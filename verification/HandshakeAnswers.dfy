/** What the handshake machine's callers are told, over whole runs, and which steps put
    them in a queue, took them out and sent them. */
module HandshakeAnswers {
  import opened Handshakes

  // ------------------------------------------------------------------- being told

  predicate Told(s: Client, c: CallId, a: Answer) {
    c in s.calls && a in s.calls[c].told
  }

  // The provider refused call `c` and it may go round again.
  predicate MayRetry(s: Client, c: CallId) {
    c in s.calls && s.calls[c].retriesLeft > 0 && s.calls[c].target in s.eligible
  }

  /** Whether `st`, taken in `s`, tells the caller of `c` exactly `a`: what the provider
      answered, that it refused with no retry left, or that its target was not reached. */
  predicate Tells(s: Client, st: Step, c: CallId, a: Answer) {
    match a
    case Result(raw) => raw.Plain? && st.Reply? && st.c == c && st.raw == raw
    case Unauthorized => st.Reply? && st.c == c && st.raw == Sentinel && !MayRetry(s, c)
    case Unavailable => st.RunNext? && s.running != [] && s.running[0] == Moved(c, false)
  }

  // Queueing, draining and dispatching tell nobody anything.
  predicate SameTold(s: Client, s': Client) {
    s'.calls.Keys == s.calls.Keys && forall c :: c in s.calls ==> s'.calls[c].told == s.calls[c].told
  }

  lemma SettleTellsNobody(s: Client, t: Target, ready: bool)
    ensures SameTold(s, Settle(s, t, ready))
  {
  }

  lemma EnqueueTellsNobody(s: Client, c: CallId, r: RecId)
    requires c in s.calls
    ensures SameTold(s, Enqueue(s, c)) && SameTold(s, Dispatch(s, c))
    ensures SameTold(s, Enqueue(s, c).(recs := s.recs[r := Rec(s.calls[c].target, true)]))
  {
  }

  lemma ImplTellsNobody(s: Client, c: CallId, r: RecId, mode: Mode)
    requires c in s.calls
    ensures SameTold(s, Impl(s, c, r, mode))
  {
    var t, s1 := s.calls[c].target, Enqueue(s, c);
    var s2 := s1.(recs := s1.recs[r := Rec(t, true)]);
    EnqueueTellsNobody(s, c, r);
    SettleTellsNobody(s2, t, false);
    SettleTellsNobody(s2, t, true);
    SameToldTwice(s, s2, Settle(s2, t, true));
    SameToldTwice(s, s2, Settle(s2, t, false));
    SameToldAs(s, s1, s1.(recs := s1.recs[r := Rec(t, false)], readiness := s1.readiness[t := r]));
    hide Settle, SameTold, Enqueue, Dispatch, Queue;
  }

  lemma SameToldTwice(a: Client, b: Client, c: Client)
    requires SameTold(a, b) && SameTold(b, c)
    ensures SameTold(a, c)
  {
  }

  lemma SameToldAs(a: Client, b: Client, c: Client)
    requires SameTold(a, b) && c.calls == b.calls
    ensures SameTold(a, c)
  {
  }

  lemma ToldByInvoke(s: Client, c: CallId, t: Target, r: RecId, mode: Mode, x: CallId, a: Answer)
    requires Enabled(s, Invoke(c, t, r, mode))
    ensures Told(Apply(s, Invoke(c, t, r, mode)), x, a) <==> Told(s, x, a)
  {
    ImplTellsNobody(s.(calls := s.calls[c := Call(t, Between, 1, 0, 0, 0, [])]), c, r, mode);
    hide Impl;
  }

  lemma ToldByReport(s: Client, r: RecId, ready: bool, x: CallId, a: Answer)
    requires r in s.recs
    ensures Told(Finish(s, r, ready), x, a) <==> Told(s, x, a)
  {
    var t := s.recs[r].target;
    SettleTellsNobody(s.(recs := s.recs[r := Rec(t, true)], readiness := s.readiness - {t}), t, ready);
    hide Settle;
  }

  lemma GoRoundTellsNobody(s: Client, c: CallId, r: RecId, mode: Mode)
    requires c in s.calls && s.calls[c].retriesLeft > 0
    ensures SameTold(s, Impl(GoRound(s, c), c, r, mode))
  {
    ImplTellsNobody(GoRound(s, c), c, r, mode);
    hide Impl;
  }

  lemma ToldByReply(s: Client, c: CallId, raw: Raw, r: RecId, mode: Mode, x: CallId, a: Answer)
    requires Enabled(s, Reply(c, raw, r, mode))
    ensures Told(Apply(s, Reply(c, raw, r, mode)), x, a) <==> Told(s, x, a) || Tells(s, Reply(c, raw, r, mode), x, a)
  {
    if raw.Sentinel? && MayRetry(s, c) { GoRoundTellsNobody(s, c, r, mode); }
    hide Impl, GoRound;
  }

  lemma ToldByStep(s: Client, st: Step, x: CallId, a: Answer)
    requires Inv(s) && Enabled(s, st)
    ensures Told(Apply(s, st), x, a) <==> Told(s, x, a) || Tells(s, st, x, a)
  {
    hide Inv, Impl, Finish;
    match st
    case Invoke(c, t, r, mode) => ToldByInvoke(s, c, t, r, mode, x, a);
    case Ready(r, ready) => ToldByReport(s, r, ready, x, a);
    case Deadline(r) => ToldByReport(s, r, false, x, a);
    case Reply(c, raw, r, mode) => ToldByReply(s, c, raw, r, mode, x, a);
    case _ =>
  }

  // Some step of the run tells it.
  ghost predicate EverTold(s: Client, steps: seq<Step>, c: CallId, a: Answer)
    requires Run(s, steps)
    decreases |steps|
  {
    steps != [] && (Tells(s, steps[0], c, a) || EverTold(Apply(s, steps[0]), steps[1..], c, a))
  }

  lemma {:induction false} ToldIffSome(s: Client, steps: seq<Step>, c: CallId, a: Answer)
    requires Inv(s) && Run(s, steps)
    ensures Told(End(s, steps), c, a) <==> Told(s, c, a) || EverTold(s, steps, c, a)
    decreases |steps|
  {
    if steps != [] {
      hide Inv, Apply, Enabled, Told, Tells;
      StepKeepsInv(s, steps[0]);
      ToldByStep(s, steps[0], c, a);
      ToldIffSome(Apply(s, steps[0]), steps[1..], c, a);
    }
  }

  /** Over every run, a caller has been told an answer, and nothing else, if and only if a
      step told it: the provider's own answer to its call, a refusal with no retry left, or
      its turn among the calls drained as unreachable. */
  lemma ToldExactly(eligible: set<Target>, steps: seq<Step>, c: CallId, a: Answer)
    requires Run(Initial(eligible), steps) && c in End(Initial(eligible), steps).calls
    ensures End(Initial(eligible), steps).calls[c].told == [a] <==> EverTold(Initial(eligible), steps, c, a)
  {
    InitialInv(eligible);
    RunKeepsInv(Initial(eligible), steps);
    assert CallOk(End(Initial(eligible), steps).calls[c]);
    ToldIffSome(Initial(eligible), steps, c, a);
    hide Inv, Run, End, EverTold;
  }

  // ---------------------------------------------------------------- being unreachable

  // Told its target could not be reached, or drained so and waiting for its turn to be.
  predicate Unreached(s: Client, c: CallId) {
    Told(s, c, Unavailable) || Moved(c, false) in s.running
  }

  // Readiness is refused or denied while it is being asked for.
  predicate FailsAtOnce(mode: Mode) {
    mode == Refused || mode == AtOnce(false)
  }

  // A call for `t` that comes now would be the first in its queue.
  predicate First(s: Client, t: Target) {
    t in s.eligible && Queue(s, t) == []
  }

  /** Whether `st`, taken in `s`, drains `c` as unreachable: readiness is denied, or its
      deadline passes, while `c` is queued for it; or `c` is the first in its queue, on its
      way in or round again, and readiness fails at once. */
  predicate DrainsUnreachable(s: Client, st: Step, c: CallId)
    requires Enabled(s, st)
  {
    match st
    case Ready(r, ready) => !ready && !s.recs[r].done && c in Queue(s, s.recs[r].target)
    case Deadline(r) => !s.recs[r].done && c in Queue(s, s.recs[r].target)
    case Invoke(x, t, _, mode) => x == c && FailsAtOnce(mode) && First(s, t) && t !in s.tokens
    case Reply(x, raw, _, mode) => x == c && raw == Sentinel && MayRetry(s, c) && FailsAtOnce(mode) && First(s, s.calls[c].target)
    case _ => false
  }

  lemma DrainMoves(s: Client, t: Target, reachable: bool, c: CallId)
    ensures var s' := Drain(s, t, reachable);
            && |s'.running| == |Queue(s, t)| + |s.running|
            && (forall i :: 0 <= i < |Queue(s, t)| ==> s'.running[i] == Moved(Queue(s, t)[i], reachable))
            && s'.running[|Queue(s, t)|..] == s.running
            && (Moved(c, false) in s'.running <==> Moved(c, false) in s.running || (!reachable && c in Queue(s, t)))
  {
    var q, s' := Queue(s, t), Drain(s, t, reachable);
    hide Queue;
    if c in q && !reachable {
      var i :| 0 <= i < |q| && q[i] == c;
      assert s'.running[i] == Moved(c, false);
    }
  }

  lemma SettleMoves(s: Client, t: Target, ready: bool, c: CallId)
    ensures Moved(c, false) in Settle(s, t, ready).running <==> Moved(c, false) in s.running || (!ready && c in Queue(s, t))
  {
    DrainMoves(s, t, false, c);
    hide Drain;
  }

  lemma ImplMoves(s: Client, x: CallId, r: RecId, mode: Mode, c: CallId)
    requires x in s.calls
    ensures Moved(c, false) in Impl(s, x, r, mode).running <==>
              Moved(c, false) in s.running ||
              (x == c && FailsAtOnce(mode) && First(s, s.calls[x].target) && s.calls[x].target !in s.tokens)
  {
    var t, s1 := s.calls[x].target, Enqueue(s, x);
    assert Queue(s1, t) == Queue(s, t) + [x];
    var s2 := s1.(recs := s1.recs[r := Rec(t, true)]);
    assert Queue(s2, t) == Queue(s1, t);
    SettleMoves(s2, t, false, c);
    SettleMoves(s2, t, true, c);
    hide Settle, Queue;
  }

  lemma UnreachedByStep(s: Client, st: Step, c: CallId)
    requires Inv(s) && Enabled(s, st)
    ensures Unreached(Apply(s, st), c) <==> Unreached(s, c) || DrainsUnreachable(s, st, c)
  {
    ToldByStep(s, st, c, Unavailable);
    hide Inv, Told;
    MovedByStep(s, st, c);
    hide Apply, Enabled;
  }

  lemma MovedByStep(s: Client, st: Step, c: CallId)
    requires Enabled(s, st)
    ensures Moved(c, false) in Apply(s, st).running || (st.RunNext? && s.running[0] == Moved(c, false)) <==>
              Moved(c, false) in s.running || DrainsUnreachable(s, st, c)
  {
    hide Impl, Finish, Drain;
    match st
    case Invoke(x, t, r, mode) =>
      var s1 := s.(calls := s.calls[x := Call(t, Between, 1, 0, 0, 0, [])]);
      assert Queue(s1, t) == Queue(s, t);
      ImplMoves(s1, x, r, mode, c);
    case Ready(r, ready) => FinishMoves(s, r, ready, c);
    case Deadline(r) => FinishMoves(s, r, false, c);
    case ExchangeDone(t, minted) =>
      DrainMoves(s.(exchanges := s.exchanges[t := Exchanges(s, t) - 1], tokens := if minted then s.tokens + {t} else s.tokens), t, true, c);
    case RunNext => assert s.running == [s.running[0]] + s.running[1..];
    case Reply(x, raw, r, mode) =>
      if raw.Sentinel? && MayRetry(s, x) {
        var t := s.calls[x].target;
        assert Queue(GoRound(s, x), t) == Queue(s, t);
        ImplMoves(GoRound(s, x), x, r, mode, c);
      }
    case TokenChanges(_, _) =>
  }

  lemma FinishMoves(s: Client, r: RecId, ready: bool, c: CallId)
    requires r in s.recs
    ensures Moved(c, false) in Finish(s, r, ready).running <==>
              Moved(c, false) in s.running || (!ready && !s.recs[r].done && c in Queue(s, s.recs[r].target))
  {
    var t := s.recs[r].target;
    var s1 := s.(recs := s.recs[r := Rec(t, true)], readiness := s.readiness - {t});
    assert Queue(s1, t) == Queue(s, t);
    SettleMoves(s1, t, ready, c);
    hide Settle, Queue;
  }

  ghost predicate EverUnreachable(s: Client, steps: seq<Step>, c: CallId)
    requires Run(s, steps)
    decreases |steps|
  {
    steps != [] && (DrainsUnreachable(s, steps[0], c) || EverUnreachable(Apply(s, steps[0]), steps[1..], c))
  }

  /** Over every run, a call is told its target is unavailable, or is waiting its turn to
      be, if and only if it was drained as unreachable. */
  lemma {:induction false} UnavailableIffDrainedSo(s: Client, steps: seq<Step>, c: CallId)
    requires Inv(s) && Run(s, steps)
    ensures Unreached(End(s, steps), c) <==> Unreached(s, c) || EverUnreachable(s, steps, c)
    decreases |steps|
  {
    if steps != [] {
      hide Inv, Apply, Enabled, Unreached, DrainsUnreachable;
      StepKeepsInv(s, steps[0]);
      UnreachedByStep(s, steps[0], c);
      UnavailableIffDrainedSo(Apply(s, steps[0]), steps[1..], c);
    }
  }

  // --------------------------------------------------------------- in, out and round again

  /** Call `c` is queued for `t` by going from `s` to `s'`: at the end of the queue, where
      the first begins the wait, which may be answered at once. */
  predicate WaitsInTurn(s: Client, s': Client, c: CallId, t: Target, r: RecId, mode: Mode) {
    && c in s'.calls
    && if Queue(s, t) != [] then
         s'.calls[c].status == Queued && Queue(s', t) == Queue(s, t) + [c]
         && s'.readiness == s.readiness && s'.exchanges == s.exchanges && s'.running == s.running
       else if FailsAtOnce(mode) then
         s'.calls[c].status == Running && Queue(s', t) == [] && s'.running == [Moved(c, false)] + s.running
         && s'.readiness == s.readiness && s'.exchanges == s.exchanges
       else
         s'.calls[c].status == Queued && Queue(s', t) == [c] && s'.running == s.running
         && if mode.Later? then s'.readiness == s.readiness[t := r] && r in s'.recs && s'.recs[r] == Rec(t, false) && s'.exchanges == s.exchanges
            else s'.readiness == s.readiness && Exchanges(s', t) == Exchanges(s, t) + 1
  }

  lemma ImplQueues(s: Client, c: CallId, r: RecId, mode: Mode)
    requires c in s.calls && s.calls[c].target !in s.tokens && s.calls[c].target in s.eligible
    ensures var s' := Impl(s, c, r, mode);
            && WaitsInTurn(s, s', c, s.calls[c].target, r, mode) && s'.tokens == s.tokens
            && s'.calls[c] == s.calls[c].(status := s'.calls[c].status, enqueued := s'.calls[c].enqueued, drained := s'.calls[c].drained)
  {
    var t, s1 := s.calls[c].target, Enqueue(s, c);
    assert Queue(s1, t) == Queue(s, t) + [c];
    if Queue(s, t) == [] {
      if FailsAtOnce(mode) { DrainsAlone(s1, c, t, r); }
    }
    hide Drain;
  }

  lemma DrainsAlone(s: Client, c: CallId, t: Target, r: RecId)
    requires Queue(s, t) == [c] && c in s.calls
    ensures var s' := Drain(s.(recs := s.recs[r := Rec(t, true)]), t, false);
            && s'.calls[c] == s.calls[c].(status := Running, drained := s.calls[c].drained + 1)
            && Queue(s', t) == [] && s'.running == [Moved(c, false)] + s.running
            && s'.readiness == s.readiness && s'.exchanges == s.exchanges && s'.tokens == s.tokens && c in s'.calls
  {
  }

  /** A call on its way in is sent at once with a token or where none can be had; else it
      waits in its target's queue. */
  lemma FirstCallWaits(s: Client, c: CallId, t: Target, r: RecId, mode: Mode)
    requires Enabled(s, Invoke(c, t, r, mode))
    ensures var s' := Apply(s, Invoke(c, t, r, mode));
            && s'.tokens == s.tokens
            && if t in s.tokens || t !in s.eligible then
                 c in s'.calls && s'.calls[c].status == InFlight && s'.calls[c].dispatched == 1 && s'.queues == s.queues
                 && s'.readiness == s.readiness && s'.exchanges == s.exchanges && s'.running == s.running
               else WaitsInTurn(s, s', c, t, r, mode)
  {
    var s1 := s.(calls := s.calls[c := Call(t, Between, 1, 0, 0, 0, [])]);
    if t in s.tokens || t !in s.eligible {
      hide Enqueue, Begin;
    } else {
      ImplQueues(s1, c, r, mode);
      hide Impl;
      SameQueues(s, s1, t);
    }
  }

  lemma SameQueues(s: Client, s': Client, t: Target)
    requires s'.queues == s.queues && s'.exchanges == s.exchanges
    ensures Queue(s', t) == Queue(s, t) && Exchanges(s', t) == Exchanges(s, t)
  {
  }

  /** A report of readiness, if it is the first of its wait, starts one exchange or drains
      the whole queue as unreachable, in order and ahead of what is still to run. */
  lemma ReportSettles(s: Client, r: RecId, ready: bool)
    requires r in s.recs && !s.recs[r].done
    ensures var t, s' := s.recs[r].target, Finish(s, r, ready);
            && t !in s'.readiness && s'.tokens == s.tokens
            && if ready then Exchanges(s', t) == Exchanges(s, t) + 1 && s'.queues == s.queues && s'.running == s.running
               else s'.exchanges == s.exchanges && s'.queues == s.queues - {t}
                    && |s'.running| == |Queue(s, t)| + |s.running| && s'.running[|Queue(s, t)|..] == s.running
                    && forall i :: 0 <= i < |Queue(s, t)| ==> s'.running[i] == Moved(Queue(s, t)[i], false)
  {
    var t := s.recs[r].target;
    var s1 := s.(recs := s.recs[r := Rec(t, true)], readiness := s.readiness - {t});
    assert Queue(s1, t) == Queue(s, t);
    DrainMoves(s1, t, false, 0);
  }

  /** An exchange that ends caches a token that was minted and drains the whole queue as
      reachable, in order, minted or not. */
  lemma ExchangeDrains(s: Client, t: Target, minted: bool)
    requires Enabled(s, ExchangeDone(t, minted))
    ensures var s' := Apply(s, ExchangeDone(t, minted));
            && s'.tokens == (if minted then s.tokens + {t} else s.tokens)
            && Exchanges(s', t) == Exchanges(s, t) - 1 && s'.queues == s.queues - {t} && s'.readiness == s.readiness
            && |s'.running| == |Queue(s, t)| + |s.running| && s'.running[|Queue(s, t)|..] == s.running
            && forall i :: 0 <= i < |Queue(s, t)| ==> s'.running[i] == Moved(Queue(s, t)[i], true)
  {
    var s1 := s.(exchanges := s.exchanges[t := Exchanges(s, t) - 1], tokens := if minted then s.tokens + {t} else s.tokens);
    assert Queue(s1, t) == Queue(s, t);
    DrainMoves(s1, t, true, 0);
  }

  /** A refusal with a retry left drops the token, uses up the retry and tells nobody: the
      call waits again. */
  lemma RefusalGoesRound(s: Client, c: CallId, r: RecId, mode: Mode)
    requires Enabled(s, Reply(c, Sentinel, r, mode)) && MayRetry(s, c)
    ensures var s', t := Apply(s, Reply(c, Sentinel, r, mode)), s.calls[c].target;
            && s'.tokens == s.tokens - {t} && WaitsInTurn(s, s', c, t, r, mode)
            && s'.calls[c].retriesLeft == s.calls[c].retriesLeft - 1 && s'.calls[c].told == s.calls[c].told
            && s'.calls[c].dispatched == s.calls[c].dispatched
  {
    ImplQueues(GoRound(s, c), c, r, mode);
    hide Impl;
    SameQueues(s, GoRound(s, c), s.calls[c].target);
  }
}
