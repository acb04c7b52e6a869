/** The client's queues and readiness waits as it keeps them, performing the steps of the
    handshake machine. */
module ApiClient {
  import opened Handshakes
  import opened HandshakeAnswers

  class LogosAPIClient {
    var pendingHandshakes: map<Target, seq<CallId>>
    var pendingReadiness: map<Target, RecId>
    var recs: map<RecId, Rec>
    var exchanges: map<Target, nat>
    var running: seq<Moved>
    var calls: map<CallId, Call>
    var tokens: set<Target>
    const eligible: set<Target>

    constructor (eligible: set<Target>)
      ensures View() == Initial(eligible)
    {
      pendingHandshakes, pendingReadiness, recs, exchanges := map[], map[], map[], map[];
      running, calls, tokens := [], map[], {};
      this.eligible := eligible;
    }

    ghost function View(): Client
      reads this
    {
      Client(pendingHandshakes, pendingReadiness, recs, exchanges, running, calls, tokens, eligible)
    }

    // The queue is taken out before anything in it runs: a continuation may queue again.
    method DrainPendingHandshakes(t: Target, reachable: bool)
      requires forall c :: c in Queue(View(), t) ==> c in calls
      requires Distinct(Queue(View(), t))
      modifies this
      ensures View() == Drain(old(View()), t, reachable)
    {
      if t !in pendingHandshakes {
        NothingQueued(View(), t, reachable);
        return;
      }
      var moved := pendingHandshakes[t];
      ghost var before := View();
      pendingHandshakes := pendingHandshakes - {t};
      var front := [];
      var i := 0;
      while i < |moved|
        invariant 0 <= i <= |moved|
        invariant pendingHandshakes == before.queues - {t} && running == before.running && front == MoveAll(moved[..i], reachable)
        invariant pendingReadiness == before.readiness && recs == before.recs && exchanges == before.exchanges && tokens == before.tokens
        invariant calls.Keys == before.calls.Keys
        invariant forall c :: c in calls ==>
                    calls[c] == if c in moved[..i] then before.calls[c].(status := Running, drained := before.calls[c].drained + 1)
                                else before.calls[c]
      {
        var c := moved[i];
        assert c !in moved[..i];
        front := front + [Moved(c, reachable)];
        calls := calls[c := calls[c].(status := Running, drained := calls[c].drained + 1)];
        assert moved[..i + 1] == moved[..i] + [c];
        assert MoveAll(moved[..i + 1], reachable) == MoveAll(moved[..i], reachable) + [Moved(c, reachable)];
        i := i + 1;
      }
      assert moved[..|moved|] == moved;
      running := front + running;
      DrainedCalls(before, t, reachable, calls);
    }

    method StartCapabilityHandshake(t: Target)
      modifies this
      ensures View() == StartExchange(old(View()), t)
    {
      exchanges := exchanges[t := (if t in exchanges then exchanges[t] else 0) + 1];
    }

    method BeginReadinessGatedHandshake(t: Target, r: RecId, mode: Mode)
      requires forall c :: c in Queue(View(), t) ==> c in calls
      requires Distinct(Queue(View(), t)) && t !in pendingReadiness
      modifies this
      ensures View() == Begin(old(View()), t, r, mode)
    {
      hide Drain, Distinct, Queue;
      ghost var before := View();
      recs := recs[r := Rec(t, false)];
      pendingReadiness := pendingReadiness[t := r];
      match mode
      case AtOnce(ready) =>
        recs := recs[r := Rec(t, true)];
        assert recs == before.recs[r := Rec(t, true)];
        FinishReadiness(t);
        assert pendingReadiness == before.readiness;
        SameQueue(before, View(), t);
        if ready { StartCapabilityHandshake(t); } else { DrainPendingHandshakes(t, false); }
      case Refused =>
        recs := recs[r := Rec(t, true)];
        assert recs == before.recs[r := Rec(t, true)];
        pendingReadiness := pendingReadiness - {t};
        assert pendingReadiness == before.readiness;
        SameQueue(before, View(), t);
        DrainPendingHandshakes(t, false);
      case Later =>
    }

    method FinishReadiness(t: Target)
      modifies this`pendingReadiness
      ensures pendingReadiness == old(pendingReadiness) - {t}
    {
      if t !in pendingReadiness { return; }
      pendingReadiness := pendingReadiness - {t};
    }

    // The readiness callback, or its deadline: whichever comes first.
    method OnReadiness(r: RecId, ready: bool)
      requires r in recs
      requires forall c :: c in Queue(View(), recs[r].target) ==> c in calls
      requires Distinct(Queue(View(), recs[r].target))
      modifies this
      ensures View() == Finish(old(View()), r, ready)
    {
      if recs[r].done { return; }
      var t := recs[r].target;
      recs := recs[r := Rec(t, true)];
      FinishReadiness(t);
      if ready { StartCapabilityHandshake(t); } else { DrainPendingHandshakes(t, false); }
    }

    method OnExchangeDone(t: Target, minted: bool)
      requires t in exchanges && exchanges[t] > 0
      requires forall c :: c in Queue(View(), t) ==> c in calls
      requires Distinct(Queue(View(), t))
      modifies this
      ensures View() == Apply(old(View()), ExchangeDone(t, minted))
    {
      exchanges := exchanges[t := exchanges[t] - 1];
      if minted { tokens := tokens + {t}; }
      DrainPendingHandshakes(t, true);
    }

    // A call on its way in, for the first time or after a rejection.
    method InvokeImpl(c: CallId, r: RecId, mode: Mode)
      requires OnTheWayIn(c)
      modifies this
      ensures View() == Impl(old(View()), c, r, mode)
    {
      var t := calls[c].target;
      if t in tokens || t !in eligible {
        calls := calls[c := calls[c].(status := InFlight, dispatched := calls[c].dispatched + 1)];
        return;
      }
      ghost var before := View();
      pendingHandshakes := pendingHandshakes[t := (if t in pendingHandshakes then pendingHandshakes[t] else []) + [c]];
      calls := calls[c := calls[c].(status := Queued, enqueued := calls[c].enqueued + 1)];
      assert View() == Enqueue(before, c);
      if |pendingHandshakes[t]| > 1 { return; }
      assert pendingHandshakes[t] == [c];
      BeginReadinessGatedHandshake(t, r, mode);
    }

    // What the machine keeps, with `c` the one call on its way in.
    ghost predicate OnTheWayIn(c: CallId)
      reads this
    {
      && Core(View()) && OnePerTarget(View()) && c in calls && calls[c].status == Between
      && (calls[c].target in pendingReadiness ==> Queue(View(), calls[c].target) != [])
    }

    // A rejection with a retry left: the token goes, and the call goes round again.
    method Retry(c: CallId, r: RecId, mode: Mode)
      requires Inv(View()) && c in calls && calls[c].status == InFlight && calls[c].retriesLeft > 0 && r !in recs
      modifies this
      ensures View() == Impl(GoRound(old(View()), c), c, r, mode)
    {
      hide CallOk, OneBut, WaitsOk, PlacesOk, Impl;
      ghost var before := View();
      var t := calls[c].target;
      assert CallOk(calls[c]);
      RetriedOk(calls[c]);
      tokens := tokens - {t};
      calls := calls[c := calls[c].(status := Between, retriesLeft := calls[c].retriesLeft - 1)];
      RetryKeeps(before, View(), c, calls[c]);
      WaitMeansQueue(View(), t);
      InvokeImpl(c, r, mode);
    }

    method OnResult(c: CallId, raw: Raw, r: RecId, mode: Mode)
      requires Inv(View()) && c in calls && calls[c].status == InFlight && r !in recs
      modifies this
      ensures Inv(View()) && View() == Apply(old(View()), Reply(c, raw, r, mode))
      ensures c in calls
      ensures calls[c].told == if raw.Plain? then [Result(raw)]
                               else if old(calls[c].retriesLeft) > 0 && old(calls[c].target) in eligible then []
                               else [Unauthorized]
    {
      ghost var before := View();
      NotYetTold(before, c, r, mode);
      hide *;
      ReplyKeeps(before, c, raw, r, mode);
      if raw.Sentinel? && calls[c].retriesLeft > 0 && calls[c].target in eligible {
        Retry(c, r, mode);
      } else {
        var a := if raw.Sentinel? then Unauthorized else Result(raw);
        calls := calls[c := calls[c].(status := Answered, told := calls[c].told + [a])];
      }
    }
  }

  lemma NotYetTold(s: Client, c: CallId, r: RecId, mode: Mode)
    requires Inv(s) && c in s.calls && s.calls[c].status == InFlight && r !in s.recs
    ensures s.calls[c].told == []
    ensures MayRetry(s, c) ==> c in Impl(GoRound(s, c), c, r, mode).calls && Impl(GoRound(s, c), c, r, mode).calls[c].told == []
  {
    assert CallOk(s.calls[c]);
    if MayRetry(s, c) { RefusalGoesRound(s, c, r, mode); }
    hide Inv, Impl;
  }

  lemma RetriedOk(k: Call)
    requires CallOk(k) && k.status == InFlight && k.retriesLeft > 0
    ensures CallOk(k.(status := Between, retriesLeft := k.retriesLeft - 1))
  {
  }

  lemma SameQueue(s: Client, s': Client, t: Target)
    requires s'.queues == s.queues
    ensures Queue(s', t) == Queue(s, t)
  {
  }

  lemma DrainedCalls(s: Client, t: Target, reachable: bool, calls: map<CallId, Call>)
    requires calls.Keys == s.calls.Keys
    requires forall c :: c in calls ==>
               calls[c] == if c in Queue(s, t) then s.calls[c].(status := Running, drained := s.calls[c].drained + 1) else s.calls[c]
    ensures calls == Drain(s, t, reachable).calls
  {
  }

  lemma NothingQueued(s: Client, t: Target, reachable: bool)
    requires t !in s.queues
    ensures Drain(s, t, reachable) == s
  {
    assert s.queues - {t} == s.queues;
    assert Drain(s, t, reachable).calls == s.calls;
    assert MoveAll([], reachable) + s.running == s.running;
  }

  lemma WaitMeansQueue(s: Client, t: Target)
    requires OnePerTarget(s)
    ensures t in s.readiness ==> Queue(s, t) != []
  {
    assert Waits(s, t) + Exchanges(s, t) + (if t == 0 then 0 else 0) == if Queue(s, t) != [] then 1 else 0;
  }
}
