/** Coalescing of first calls: a call to a target nobody holds a token for waits in the
    target's queue behind one readiness wait and then one token exchange.  User callbacks
    may call again at any point; continuations a drain has moved out run one by one. */
module Handshakes {

  type Target = nat
  type CallId = nat
  type RecId = nat

  // A readiness wait, with the latch that makes ready and deadline exclusive.
  datatype Rec = Rec(target: Target, done: bool)

  // What a provider can answer, and what the caller can be told.
  datatype Raw = Plain(v: int) | Sentinel
  datatype Answer = Result(raw: Raw) | Unavailable | Unauthorized

  // `Between` is a call on its way in, neither queued nor sent.
  datatype Status = Between | Queued | Running | InFlight | Answered
  datatype Call = Call(target: Target, status: Status, retriesLeft: nat,
                       enqueued: nat, drained: nat, dispatched: nat, told: seq<Answer>)

  // A continuation moved out of a queue, and whether its target could be reached.
  datatype Moved = Moved(call: CallId, reachable: bool)

  datatype Client = Client(queues: map<Target, seq<CallId>>, readiness: map<Target, RecId>, recs: map<RecId, Rec>,
                           exchanges: map<Target, nat>, running: seq<Moved>, calls: map<CallId, Call>,
                           tokens: set<Target>, eligible: set<Target>)

  // What asking for readiness answered: to be told later, told at once, or refused.
  datatype Mode = Later | AtOnce(ready: bool) | Refused

  datatype Step =
    | Invoke(c: CallId, t: Target, r: RecId, mode: Mode)
    | Ready(r: RecId, ready: bool)
    | Deadline(r: RecId)
    | ExchangeDone(t: Target, minted: bool)
    | RunNext
    | Reply(c: CallId, raw: Raw, r: RecId, mode: Mode)
    | TokenChanges(t: Target, present: bool)

  function Queue(s: Client, t: Target): seq<CallId> {
    if t in s.queues then s.queues[t] else []
  }

  function Exchanges(s: Client, t: Target): nat {
    if t in s.exchanges then s.exchanges[t] else 0
  }

  ghost predicate Enabled(s: Client, st: Step) {
    match st
    case Invoke(c, _, r, _) => c !in s.calls && r !in s.recs
    case Ready(r, _) => r in s.recs
    case Deadline(r) => r in s.recs
    case ExchangeDone(t, _) => Exchanges(s, t) > 0
    case RunNext => s.running != [] && s.running[0].call in s.calls
    case Reply(c, _, r, _) => c in s.calls && s.calls[c].status == InFlight && r !in s.recs
    case TokenChanges(_, _) => true
  }

  // --------------------------------------------------------------------- the pieces

  function MoveAll(q: seq<CallId>, reachable: bool): seq<Moved> {
    seq(|q|, i requires 0 <= i < |q| => Moved(q[i], reachable))
  }

  // Taken out of the queues before any of them runs, and run ahead of what an outer drain
  // has still to run.
  function Drain(s: Client, t: Target, reachable: bool): Client {
    var q := Queue(s, t);
    s.(queues := s.queues - {t}, running := MoveAll(q, reachable) + s.running,
       calls := map c | c in s.calls ::
         if c in q then s.calls[c].(status := Running, drained := s.calls[c].drained + 1) else s.calls[c])
  }

  function StartExchange(s: Client, t: Target): Client {
    s.(exchanges := s.exchanges[t := Exchanges(s, t) + 1])
  }

  // The readiness wait is over, one way or the other.
  function Settle(s: Client, t: Target, ready: bool): Client {
    if ready then StartExchange(s, t) else Drain(s, t, false)
  }

  function Begin(s: Client, t: Target, r: RecId, mode: Mode): Client {
    match mode
    case Later => s.(recs := s.recs[r := Rec(t, false)], readiness := s.readiness[t := r])
    case AtOnce(ready) => Settle(s.(recs := s.recs[r := Rec(t, true)]), t, ready)
    case Refused => Settle(s.(recs := s.recs[r := Rec(t, true)]), t, false)
  }

  function Enqueue(s: Client, c: CallId): Client
    requires c in s.calls
  {
    var t := s.calls[c].target;
    s.(queues := s.queues[t := Queue(s, t) + [c]],
       calls := s.calls[c := s.calls[c].(status := Queued, enqueued := s.calls[c].enqueued + 1)])
  }

  function Dispatch(s: Client, c: CallId): Client
    requires c in s.calls
  {
    s.(calls := s.calls[c := s.calls[c].(status := InFlight, dispatched := s.calls[c].dispatched + 1)])
  }

  function Tell(s: Client, c: CallId, a: Answer): Client
    requires c in s.calls
  {
    s.(calls := s.calls[c := s.calls[c].(status := Answered, told := s.calls[c].told + [a])])
  }

  // With a token, or where none can be had, straight out; else in the queue, and the
  // first one there starts the exchange.
  function Impl(s: Client, c: CallId, r: RecId, mode: Mode): Client
    requires c in s.calls
  {
    var t := s.calls[c].target;
    if t in s.tokens || t !in s.eligible then Dispatch(s, c)
    else if |Queue(s, t)| + 1 > 1 then Enqueue(s, c)
    else Begin(Enqueue(s, c), t, r, mode)
  }

  // Refused with a retry left: the token goes, and the call is on its way in again.
  function GoRound(s: Client, c: CallId): Client
    requires c in s.calls && s.calls[c].retriesLeft > 0
  {
    s.(tokens := s.tokens - {s.calls[c].target},
       calls := s.calls[c := s.calls[c].(status := Between, retriesLeft := s.calls[c].retriesLeft - 1)])
  }

  function Finish(s: Client, r: RecId, ready: bool): Client
    requires r in s.recs
  {
    var t := s.recs[r].target;
    if s.recs[r].done then s
    else Settle(s.(recs := s.recs[r := Rec(t, true)], readiness := s.readiness - {t}), t, ready)
  }

  function Apply(s: Client, st: Step): Client
    requires Enabled(s, st)
  {
    match st
    case Invoke(c, t, r, mode) =>
      Impl(s.(calls := s.calls[c := Call(t, Between, 1, 0, 0, 0, [])]), c, r, mode)
    case Ready(r, ready) => Finish(s, r, ready)
    case Deadline(r) => Finish(s, r, false)
    case ExchangeDone(t, minted) =>
      Drain(s.(exchanges := s.exchanges[t := Exchanges(s, t) - 1], tokens := if minted then s.tokens + {t} else s.tokens), t, true)
    case RunNext =>
      var m := s.running[0];
      var s1 := s.(running := s.running[1..]);
      if m.reachable then Dispatch(s1, m.call) else Tell(s1, m.call, Unavailable)
    case Reply(c, raw, r, mode) =>
      var t := s.calls[c].target;
      if raw.Sentinel? && s.calls[c].retriesLeft > 0 && t in s.eligible then
        Impl(GoRound(s, c), c, r, mode)
      else if raw.Sentinel? then Tell(s, c, Unauthorized)
      else Tell(s, c, Result(raw))
    case TokenChanges(t, present) => s.(tokens := if present then s.tokens + {t} else s.tokens - {t})
  }

  // --------------------------------------------------------------------- the invariant

  ghost predicate Distinct<T>(q: seq<T>) {
    forall i, j :: 0 <= i < j < |q| ==> q[i] != q[j]
  }

  function Waits(s: Client, t: Target): nat {
    if t in s.readiness then 1 else 0
  }

  // For a target with callers waiting, one readiness wait or one exchange, `owed` of them
  // still to be started; for others none.
  ghost predicate OneBut(s: Client, target: Target, owed: nat) {
    forall t :: Waits(s, t) + Exchanges(s, t) + (if t == target then owed else 0) == if Queue(s, t) != [] then 1 else 0
  }

  ghost predicate OnePerTarget(s: Client) {
    OneBut(s, 0, 0)
  }

  // The waits are the unlatched records.
  ghost predicate WaitsOk(s: Client) {
    && (forall t :: t in s.readiness ==> s.readiness[t] in s.recs && s.recs[s.readiness[t]] == Rec(t, false))
    && (forall r :: r in s.recs && !s.recs[r].done ==> s.recs[r].target in s.readiness && s.readiness[s.recs[r].target] == r)
  }

  // Every call is where its status says, once: in its target's queue,
  ghost predicate QueuesOk(s: Client) {
    && (forall t :: Distinct(Queue(s, t)))
    && (forall t, c :: c in Queue(s, t) ==> c in s.calls && s.calls[c].status == Queued && s.calls[c].target == t)
    && (forall c :: c in s.calls && s.calls[c].status == Queued ==> c in Queue(s, s.calls[c].target))
  }

  // or moved out and waiting its turn.
  ghost predicate RunningOk(s: Client) {
    && (forall i, j :: 0 <= i < j < |s.running| ==> s.running[i].call != s.running[j].call)
    && (forall i :: 0 <= i < |s.running| ==> s.running[i].call in s.calls && s.calls[s.running[i].call].status == Running)
    && (forall c :: c in s.calls && s.calls[c].status == Running ==> exists i :: 0 <= i < |s.running| && s.running[i].call == c)
  }

  ghost predicate PlacesOk(s: Client) {
    QueuesOk(s) && RunningOk(s)
  }

  // What a call's history can be.
  ghost predicate CallOk(k: Call) {
    && k.retriesLeft <= 1
    && k.enqueued == k.drained + (if k.status == Queued then 1 else 0)
    && k.enqueued + (if k.status == Between then 1 else 0) <= 2 - k.retriesLeft
    && (k.status == Queued || k.status == Running || k.status == Between ==> k.dispatched == 1 - k.retriesLeft)
    && (k.status == InFlight ==> k.dispatched == 2 - k.retriesLeft)
    && k.dispatched <= 2 - k.retriesLeft
    && |k.told| == (if k.status == Answered then 1 else 0)
    && (forall a :: a in k.told ==> a != Result(Sentinel))
  }

  ghost predicate CallsOk(s: Client) {
    forall c :: c in s.calls ==> CallOk(s.calls[c])
  }

  ghost predicate Core(s: Client) {
    WaitsOk(s) && PlacesOk(s) && CallsOk(s)
  }

  ghost predicate Inv(s: Client) {
    Core(s) && OnePerTarget(s) && forall c :: c in s.calls ==> s.calls[c].status != Between
  }

  function Initial(eligible: set<Target>): Client {
    Client(map[], map[], map[], map[], [], map[], {}, eligible)
  }

  // -------------------------------------------------------------- the pieces keep it

  lemma DrainQueues(s: Client, t: Target, reachable: bool)
    requires QueuesOk(s)
    ensures QueuesOk(Drain(s, t, reachable))
  {
    var s' := Drain(s, t, reachable);
    assert forall x :: Queue(s', x) == if x == t then [] else Queue(s, x);
  }

  // What is moved out was queued, and none of it twice.
  ghost predicate Movable(s: Client, q: seq<CallId>) {
    Distinct(q) && forall c :: c in q ==> c in s.calls && s.calls[c].status == Queued
  }

  lemma DrainListed(s: Client, t: Target, reachable: bool)
    requires RunningOk(s) && Movable(s, Queue(s, t))
    ensures var s' := Drain(s, t, reachable);
            && (forall i, j :: 0 <= i < j < |s'.running| ==> s'.running[i].call != s'.running[j].call)
            && (forall i :: 0 <= i < |s'.running| ==> s'.running[i].call in s'.calls && s'.calls[s'.running[i].call].status == Running)
  {
    hide Queue;
    var q, s', n := Queue(s, t), Drain(s, t, reachable), |Queue(s, t)|;
    forall i, j | 0 <= i < j < |s'.running| ensures s'.running[i].call != s'.running[j].call {
      if i < n <= j {
        assert q[i] in q && s'.running[j] == s.running[j - n];
      } else if n <= i {
        assert s'.running[i] == s.running[i - n] && s'.running[j] == s.running[j - n];
      }
    }
    forall i | 0 <= i < |s'.running| ensures s'.running[i].call in s'.calls && s'.calls[s'.running[i].call].status == Running {
      if i < n { assert q[i] in q; } else { assert s'.running[i] == s.running[i - n]; }
    }
  }

  lemma DrainRunning(s: Client, t: Target, reachable: bool)
    requires PlacesOk(s)
    ensures RunningOk(Drain(s, t, reachable))
  {
    assert Movable(s, Queue(s, t));
    DrainListed(s, t, reachable);
    hide QueuesOk, Queue, Movable;
    var q, s', n := Queue(s, t), Drain(s, t, reachable), |Queue(s, t)|;
    forall c | c in s'.calls && s'.calls[c].status == Running ensures exists i :: 0 <= i < |s'.running| && s'.running[i].call == c {
      if c in q {
        var k :| 0 <= k < |q| && q[k] == c;
        assert s'.running[k].call == c;
      } else {
        var i :| 0 <= i < |s.running| && s.running[i].call == c;
        assert s'.running[n + i].call == c;
      }
    }
  }

  lemma DrainKeeps(s: Client, t: Target, reachable: bool)
    requires Core(s) && OneBut(s, t, 1)
    ensures Core(Drain(s, t, reachable)) && OnePerTarget(Drain(s, t, reachable))
    ensures forall c :: c in s.calls <==> c in Drain(s, t, reachable).calls
    ensures forall c :: c in s.calls && s.calls[c].status != Between ==> Drain(s, t, reachable).calls[c].status != Between
  {
    DrainQueues(s, t, reachable);
    DrainRunning(s, t, reachable);
    var s' := Drain(s, t, reachable);
    forall c | c in s'.calls ensures CallOk(s'.calls[c]) {
      assert CallOk(s.calls[c]);
    }
    forall x ensures Waits(s', x) + Exchanges(s', x) == if Queue(s', x) != [] then 1 else 0 {
      assert Waits(s, x) + Exchanges(s, x) + (if x == t then 1 else 0) == if Queue(s, x) != [] then 1 else 0;
    }
  }

  lemma SettleKeeps(s: Client, t: Target, ready: bool)
    requires Core(s) && OneBut(s, t, 1)
    ensures Core(Settle(s, t, ready)) && OnePerTarget(Settle(s, t, ready))
    ensures forall c :: c in s.calls <==> c in Settle(s, t, ready).calls
    ensures forall c :: c in s.calls && s.calls[c].status != Between ==> Settle(s, t, ready).calls[c].status != Between
  {
    if ready {
      var s' := StartExchange(s, t);
      forall x ensures Waits(s', x) + Exchanges(s', x) == if Queue(s', x) != [] then 1 else 0 {
        assert Waits(s, x) + Exchanges(s, x) + (if x == t then 1 else 0) == if Queue(s, x) != [] then 1 else 0;
      }
      assert Core(s') by { SamePlaces(s, s'); }
    } else {
      DrainKeeps(s, t, false);
    }
  }

  lemma SamePlaces(s: Client, s': Client)
    requires PlacesOk(s) && s'.queues == s.queues && s'.running == s.running && s'.calls == s.calls
    ensures PlacesOk(s')
  {
    assert forall t :: Queue(s', t) == Queue(s, t);
  }

  lemma BeginKeeps(s: Client, t: Target, r: RecId, mode: Mode)
    requires Core(s) && OneBut(s, t, 1) && r !in s.recs && Queue(s, t) != []
    ensures Core(Begin(s, t, r, mode)) && OnePerTarget(Begin(s, t, r, mode))
    ensures forall c :: c in s.calls <==> c in Begin(s, t, r, mode).calls
    ensures forall c :: c in s.calls && s.calls[c].status != Between ==> Begin(s, t, r, mode).calls[c].status != Between
  {
    if mode.Later? {
      var s' := s.(recs := s.recs[r := Rec(t, false)], readiness := s.readiness[t := r]);
      SamePlaces(s, s');
      assert Waits(s, t) + Exchanges(s, t) + 1 == 1;
      forall x ensures Waits(s', x) + Exchanges(s', x) == if Queue(s', x) != [] then 1 else 0 {
        assert Waits(s, x) + Exchanges(s, x) + (if x == t then 1 else 0) == if Queue(s, x) != [] then 1 else 0;
      }
    } else {
      var s1 := s.(recs := s.recs[r := Rec(t, true)]);
      SamePlaces(s, s1);
      assert OneBut(s1, t, 1) by {
        forall x ensures Waits(s1, x) + Exchanges(s1, x) + (if x == t then 1 else 0) == if Queue(s1, x) != [] then 1 else 0 {
          assert Waits(s, x) + Exchanges(s, x) + (if x == t then 1 else 0) == if Queue(s, x) != [] then 1 else 0;
        }
      }
      SettleKeeps(s1, t, mode.AtOnce? && mode.ready);
    }
  }

  lemma EnqueueKeeps(s: Client, c: CallId)
    requires Core(s) && OnePerTarget(s) && c in s.calls && s.calls[c].status == Between
    ensures var t, s' := s.calls[c].target, Enqueue(s, c);
            Core(s') && OneBut(s', t, if Queue(s, t) == [] then 1 else 0) && Queue(s', t) != []
  {
    EnqueueOwes(s, c);
    hide OneBut;
    EnqueuePlaces(s, c);
    hide PlacesOk;
    assert CallOk(s.calls[c]);
  }

  lemma EnqueueOwes(s: Client, c: CallId)
    requires OnePerTarget(s) && c in s.calls
    ensures var t, s' := s.calls[c].target, Enqueue(s, c); OneBut(s', t, if Queue(s, t) == [] then 1 else 0) && Queue(s', t) != []
  {
    var t, s' := s.calls[c].target, Enqueue(s, c);
    forall x ensures Waits(s', x) + Exchanges(s', x) + (if x == t then if Queue(s, t) == [] then 1 else 0 else 0)
                     == if Queue(s', x) != [] then 1 else 0 {
      assert Waits(s, x) + Exchanges(s, x) + (if x == 0 then 0 else 0) == if Queue(s, x) != [] then 1 else 0;
    }
  }

  lemma EnqueueQueues(s: Client, c: CallId)
    requires QueuesOk(s) && c in s.calls && s.calls[c].status == Between
    ensures QueuesOk(Enqueue(s, c))
  {
    var t, s' := s.calls[c].target, Enqueue(s, c);
    assert forall x :: Queue(s', x) == if x == t then Queue(s, t) + [c] else Queue(s, x);
    assert c !in Queue(s, t);
  }

  lemma EnqueueRunning(s: Client, c: CallId)
    requires RunningOk(s) && c in s.calls && s.calls[c].status == Between
    ensures RunningOk(Enqueue(s, c))
  {
    var s' := Enqueue(s, c);
    forall d | d in s'.calls && s'.calls[d].status == Running ensures exists i :: 0 <= i < |s'.running| && s'.running[i].call == d {
      var i :| 0 <= i < |s.running| && s.running[i].call == d;
      assert s'.running[i].call == d;
    }
  }

  lemma EnqueuePlaces(s: Client, c: CallId)
    requires PlacesOk(s) && c in s.calls && s.calls[c].status == Between
    ensures PlacesOk(Enqueue(s, c))
  {
    EnqueueQueues(s, c);
    EnqueueRunning(s, c);
    hide QueuesOk, RunningOk;
  }

  // Taking a call out of every list.
  lemma MovedOutPlaces(s: Client, s': Client, c: CallId, k: Call)
    requires PlacesOk(s) && c in s.calls && s.calls[c].status != Queued && s.calls[c].status != Running
    requires k.status != Queued && k.status != Running
    requires s'.queues == s.queues && s'.running == s.running && s'.calls == s.calls[c := k]
    ensures PlacesOk(s')
  {
    assert forall t :: Queue(s', t) == Queue(s, t);
    forall d | d in s'.calls && s'.calls[d].status == Running ensures exists i :: 0 <= i < |s'.running| && s'.running[i].call == d {
      var i :| 0 <= i < |s.running| && s.running[i].call == d;
      assert s'.running[i].call == d;
    }
  }

  lemma DispatchKeeps(s: Client, c: CallId)
    requires Core(s) && OnePerTarget(s) && c in s.calls && (s.calls[c].status == Between)
    ensures Core(Dispatch(s, c)) && OnePerTarget(Dispatch(s, c))
  {
    var s' := Dispatch(s, c);
    assert CallOk(s.calls[c]);
    assert CallOk(s'.calls[c]);
    MovedOutPlaces(s, s', c, s'.calls[c]);
    SameSources(s, s');
    hide PlacesOk, OneBut;
  }

  lemma ImplKeeps(s: Client, c: CallId, r: RecId, mode: Mode)
    requires Core(s) && OnePerTarget(s) && c in s.calls && s.calls[c].status == Between && r !in s.recs
    requires forall d :: d in s.calls && d != c ==> s.calls[d].status != Between
    ensures Inv(Impl(s, c, r, mode))
  {
    hide Core, OneBut, Begin;
    var t := s.calls[c].target;
    if t in s.tokens || t !in s.eligible {
      DispatchKeeps(s, c);
    } else {
      EnqueueKeeps(s, c);
      var s1 := Enqueue(s, c);
      if Queue(s, t) == [] {
        BeginKeeps(s1, t, r, mode);
      } else {
        SameOwed(s1, t);
      }
    }
  }

  lemma SameOwed(s: Client, t: Target)
    requires OneBut(s, t, 0)
    ensures OnePerTarget(s)
  {
    forall x ensures Waits(s, x) + Exchanges(s, x) + (if x == 0 then 0 else 0) == if Queue(s, x) != [] then 1 else 0 {
      assert Waits(s, x) + Exchanges(s, x) + (if x == t then 0 else 0) == if Queue(s, x) != [] then 1 else 0;
    }
  }

  lemma SameSources(s: Client, s': Client)
    requires OnePerTarget(s) && s'.queues == s.queues && s'.readiness == s.readiness && s'.exchanges == s.exchanges
    ensures OnePerTarget(s')
  {
    forall x ensures Waits(s', x) + Exchanges(s', x) + (if x == 0 then 0 else 0) == if Queue(s', x) != [] then 1 else 0 {
      assert Waits(s, x) + Exchanges(s, x) + (if x == 0 then 0 else 0) == if Queue(s, x) != [] then 1 else 0;
    }
  }

  // ---------------------------------------------------------------------- the steps

  lemma FinishKeeps(s: Client, r: RecId, ready: bool)
    requires Inv(s) && r in s.recs
    ensures Inv(Finish(s, r, ready))
  {
    if !s.recs[r].done {
      var t := s.recs[r].target;
      var s1 := s.(recs := s.recs[r := Rec(t, true)], readiness := s.readiness - {t});
      SamePlaces(s, s1);
      assert OneBut(s1, t, 1) by {
        forall x ensures Waits(s1, x) + Exchanges(s1, x) + (if x == t then 1 else 0) == if Queue(s1, x) != [] then 1 else 0 {
          assert Waits(s, x) + Exchanges(s, x) + (if x == 0 then 0 else 0) == if Queue(s, x) != [] then 1 else 0;
        }
      }
      assert WaitsOk(s1);
      hide OneBut, PlacesOk, CallsOk;
      SettleKeeps(s1, t, ready);
    }
  }

  lemma OneExchangeFewer(s: Client, t: Target, minted: bool)
    requires Inv(s) && Exchanges(s, t) > 0
    ensures var s1 := s.(exchanges := s.exchanges[t := Exchanges(s, t) - 1], tokens := if minted then s.tokens + {t} else s.tokens);
            Core(s1) && OneBut(s1, t, 1)
  {
    var s1 := s.(exchanges := s.exchanges[t := Exchanges(s, t) - 1], tokens := if minted then s.tokens + {t} else s.tokens);
    SamePlaces(s, s1);
    hide PlacesOk, CallOk;
    forall x ensures Waits(s1, x) + Exchanges(s1, x) + (if x == t then 1 else 0) == if Queue(s1, x) != [] then 1 else 0 {
      assert Waits(s, x) + Exchanges(s, x) + (if x == 0 then 0 else 0) == if Queue(s, x) != [] then 1 else 0;
    }
  }

  lemma ExchangeKeeps(s: Client, t: Target, minted: bool)
    requires Inv(s) && Exchanges(s, t) > 0
    ensures Inv(Apply(s, ExchangeDone(t, minted)))
  {
    hide OneBut, Core, Drain;
    OneExchangeFewer(s, t, minted);
    DrainKeeps(s.(exchanges := s.exchanges[t := Exchanges(s, t) - 1], tokens := if minted then s.tokens + {t} else s.tokens), t, true);
  }

  lemma RunNextPlaces(s: Client, k: Call)
    requires PlacesOk(s) && s.running != [] && k.status != Queued && k.status != Running
    ensures var c := s.running[0].call; PlacesOk(s.(running := s.running[1..], calls := s.calls[c := k]))
  {
    var c := s.running[0].call;
    var s' := s.(running := s.running[1..], calls := s.calls[c := k]);
    assert forall t :: Queue(s', t) == Queue(s, t);
    forall d | d in s'.calls && s'.calls[d].status == Running ensures exists i :: 0 <= i < |s'.running| && s'.running[i].call == d {
      var i :| 0 <= i < |s.running| && s.running[i].call == d;
      assert i != 0;
      assert s'.running[i - 1].call == d;
    }
  }

  lemma OneCallKeeps(s: Client, s': Client, c: CallId, k: Call)
    requires Inv(s) && PlacesOk(s') && CallOk(k) && k.status != Between && s'.calls == s.calls[c := k]
    requires s'.queues == s.queues && s'.readiness == s.readiness && s'.exchanges == s.exchanges && s'.recs == s.recs
    ensures Inv(s')
  {
    SameSources(s, s');
    hide PlacesOk, OneBut, CallOk;
  }

  lemma NextOk(k: Call)
    requires CallOk(k) && k.status == Running
    ensures CallOk(k.(status := InFlight, dispatched := k.dispatched + 1))
    ensures CallOk(k.(status := Answered, told := k.told + [Unavailable]))
  {
  }

  lemma RunNextKeeps(s: Client)
    requires Inv(s) && Enabled(s, RunNext)
    ensures Inv(Apply(s, RunNext))
  {
    hide OneBut, CallOk, WaitsOk, QueuesOk;
    var m := s.running[0];
    var k := s.calls[m.call];
    assert CallOk(k) && k.status == Running;
    NextOk(k);
    var k' := if m.reachable then k.(status := InFlight, dispatched := k.dispatched + 1)
              else k.(status := Answered, told := k.told + [Unavailable]);
    hide RunningOk, CallsOk;
    RunNextPlaces(s, k');
    OneCallKeeps(s, Apply(s, RunNext), m.call, k');
  }

  lemma AnsweredOk(k: Call, a: Answer)
    requires CallOk(k) && k.status == InFlight && a != Result(Sentinel)
    ensures CallOk(k.(status := Answered, told := k.told + [a]))
  {
  }

  lemma AnswerKeeps(s: Client, c: CallId, a: Answer)
    requires Inv(s) && c in s.calls && s.calls[c].status == InFlight && a != Result(Sentinel)
    ensures Inv(Tell(s, c, a))
  {
    var k := s.calls[c];
    AnsweredOk(k, a);
    hide OneBut, CallOk, QueuesOk, RunningOk;
    MovedOutPlaces(s, Tell(s, c, a), c, k.(status := Answered, told := k.told + [a]));
    OneCallKeeps(s, Tell(s, c, a), c, k.(status := Answered, told := k.told + [a]));
  }

  lemma RejectedKeeps(s: Client, c: CallId, r: RecId, mode: Mode)
    requires Inv(s) && c in s.calls && s.calls[c].status == InFlight && s.calls[c].retriesLeft > 0 && r !in s.recs
    ensures Inv(Impl(GoRound(s, c), c, r, mode))
  {
    var k := s.calls[c];
    assert CallOk(k);
    var k' := k.(status := Between, retriesLeft := k.retriesLeft - 1);
    var s1 := GoRound(s, c);
    assert CallOk(k');
    hide Inv, Core, OneBut, Impl, CallOk;
    RetryKeeps(s, s1, c, k');
    ImplKeeps(s1, c, r, mode);
  }

  lemma ReplyKeeps(s: Client, c: CallId, raw: Raw, r: RecId, mode: Mode)
    requires Inv(s) && Enabled(s, Reply(c, raw, r, mode))
    ensures Inv(Apply(s, Reply(c, raw, r, mode)))
  {
    hide Inv, Impl, Tell;
    if raw.Sentinel? && s.calls[c].retriesLeft > 0 && s.calls[c].target in s.eligible {
      RejectedKeeps(s, c, r, mode);
    } else {
      AnswerKeeps(s, c, if raw.Sentinel? then Unauthorized else Result(raw));
    }
  }

  lemma RetryKeeps(s: Client, s': Client, c: CallId, k: Call)
    requires Inv(s) && c in s.calls && s.calls[c].status == InFlight && k.status == Between && CallOk(k)
    requires s' == s.(tokens := s'.tokens, calls := s.calls[c := k])
    ensures Core(s') && OnePerTarget(s') && forall d :: d in s'.calls && d != c ==> s'.calls[d].status != Between
  {
    MovedOutPlaces(s, s', c, k);
    SameSources(s, s');
    hide PlacesOk, OneBut, CallOk;
  }

  lemma InvokePlaces(s: Client, c: CallId, k: Call)
    requires PlacesOk(s) && c !in s.calls && k.status == Between
    ensures PlacesOk(s.(calls := s.calls[c := k]))
  {
    var s' := s.(calls := s.calls[c := k]);
    assert forall t :: Queue(s', t) == Queue(s, t);
  }

  lemma InvokeKeeps(s: Client, c: CallId, t: Target, r: RecId, mode: Mode)
    requires Inv(s) && Enabled(s, Invoke(c, t, r, mode))
    ensures Inv(Apply(s, Invoke(c, t, r, mode)))
  {
    var k := Call(t, Between, 1, 0, 0, 0, []);
    var s1 := s.(calls := s.calls[c := k]);
    InvokePlaces(s, c, k);
    SameSources(s, s1);
    hide PlacesOk, OneBut, Impl;
    ImplKeeps(s1, c, r, mode);
  }

  lemma StepKeepsInv(s: Client, st: Step)
    requires Inv(s) && Enabled(s, st)
    ensures Inv(Apply(s, st))
  {
    match st
    case Invoke(c, t, r, mode) =>
      hide Inv, Apply;
      InvokeKeeps(s, c, t, r, mode);
    case Ready(r, ready) =>
      hide Inv, Finish;
      FinishKeeps(s, r, ready);
    case Deadline(r) =>
      hide Inv, Finish;
      FinishKeeps(s, r, false);
    case ExchangeDone(t, minted) =>
      hide Inv, Apply;
      ExchangeKeeps(s, t, minted);
    case RunNext =>
      hide Inv, Apply;
      RunNextKeeps(s);
    case Reply(c, raw, r, mode) =>
      hide Inv, Apply;
      ReplyKeeps(s, c, raw, r, mode);
    case TokenChanges(t, present) =>
      SamePlaces(s, Apply(s, st));
      SameSources(s, Apply(s, st));
      hide PlacesOk, OneBut;
  }

  ghost predicate Run(s: Client, steps: seq<Step>)
    decreases |steps|
  {
    steps == [] || (Enabled(s, steps[0]) && Run(Apply(s, steps[0]), steps[1..]))
  }

  function End(s: Client, steps: seq<Step>): Client
    requires Run(s, steps)
    decreases |steps|
  {
    if steps == [] then s else End(Apply(s, steps[0]), steps[1..])
  }

  lemma {:induction false} RunKeepsInv(s: Client, steps: seq<Step>)
    requires Inv(s) && Run(s, steps)
    ensures Inv(End(s, steps))
    decreases |steps|
  {
    if steps != [] {
      hide Inv, Apply, Enabled;
      StepKeepsInv(s, steps[0]);
      RunKeepsInv(Apply(s, steps[0]), steps[1..]);
    }
  }

  lemma InitialInv(eligible: set<Target>)
    ensures Inv(Initial(eligible))
  {
  }

  // -------------------------------------------------------------------- the theorems

  /** For each target, callers are waiting exactly when one readiness wait or one token
      exchange is outstanding for it, and there are never two. */
  lemma OneExchangePerTarget(eligible: set<Target>, steps: seq<Step>, t: Target)
    requires Run(Initial(eligible), steps)
    ensures var s := End(Initial(eligible), steps);
            && Waits(s, t) + Exchanges(s, t) <= 1
            && (Queue(s, t) != [] <==> Waits(s, t) + Exchanges(s, t) == 1)
  {
    InitialInv(eligible);
    RunKeepsInv(Initial(eligible), steps);
    var s := End(Initial(eligible), steps);
    assert Waits(s, t) + Exchanges(s, t) + (if t == 0 then 0 else 0) == if Queue(s, t) != [] then 1 else 0;
  }

  /** Every continuation queued is drained once: a call still queued has one more queueing
      than drainings, any other as many of each, and it is in one place. */
  lemma DrainedExactlyOnce(eligible: set<Target>, steps: seq<Step>, c: CallId)
    requires Run(Initial(eligible), steps) && c in End(Initial(eligible), steps).calls
    ensures var s := End(Initial(eligible), steps); var k := s.calls[c];
            && k.enqueued == k.drained + (if k.status == Queued then 1 else 0)
            && (k.status == Queued <==> c in Queue(s, k.target))
            && (k.status == Running <==> exists i :: 0 <= i < |s.running| && s.running[i].call == c)
            && (forall i, j :: 0 <= i < j < |s.running| ==> s.running[i].call != s.running[j].call)
            && Distinct(Queue(s, k.target))
  {
    InitialInv(eligible);
    RunKeepsInv(Initial(eligible), steps);
    assert CallOk(End(Initial(eligible), steps).calls[c]);
    hide OneBut, WaitsOk;
  }

  /** Each call is dispatched at most twice and answered at most once, never with the
      provider's refusal itself. */
  lemma TwiceSentOnceToldNeverTheSentinel(eligible: set<Target>, steps: seq<Step>, c: CallId)
    requires Run(Initial(eligible), steps) && c in End(Initial(eligible), steps).calls
    ensures var k := End(Initial(eligible), steps).calls[c];
            && k.dispatched <= 2 && k.enqueued <= 2 && |k.told| <= 1
            && (k.told != [] <==> k.status == Answered) && Result(Sentinel) !in k.told
  {
    InitialInv(eligible);
    RunKeepsInv(Initial(eligible), steps);
    assert CallOk(End(Initial(eligible), steps).calls[c]);
    hide OneBut, WaitsOk, PlacesOk;
  }

  lemma SettleLeavesRecs(s: Client, t: Target, ready: bool)
    ensures Settle(s, t, ready).recs == s.recs
  {
  }

  lemma ImplOnlyAdds(s: Client, c: CallId, r: RecId, mode: Mode)
    requires c in s.calls
    ensures forall x :: x in s.recs && x != r ==> x in Impl(s, c, r, mode).recs && Impl(s, c, r, mode).recs[x] == s.recs[x]
  {
    var t := s.calls[c].target;
    var s1 := Enqueue(s, c).(recs := s.recs[r := Rec(t, true)]);
    SettleLeavesRecs(s1, t, false);
    SettleLeavesRecs(s1, t, true);
    hide Settle;
  }

  lemma FinishLatches(s: Client, r: RecId, ready: bool)
    requires r in s.recs
    ensures var s' := Finish(s, r, ready);
            && r in s'.recs && s'.recs[r].done && (s.recs[r].done ==> s' == s)
            && forall x :: x in s.recs && x != r ==> x in s'.recs && s'.recs[x] == s.recs[x]
  {
    var t := s.recs[r].target;
    SettleLeavesRecs(s.(recs := s.recs[r := Rec(t, true)], readiness := s.readiness - {t}), t, ready);
    hide Settle;
  }

  // A latch once set stays set.
  lemma LatchStays(s: Client, st: Step, r: RecId)
    requires Enabled(s, st) && r in s.recs && s.recs[r].done
    ensures r in Apply(s, st).recs && Apply(s, st).recs[r] == s.recs[r]
  {
    hide Impl, Finish;
    match st
    case Invoke(c, t, x, mode) => ImplOnlyAdds(s.(calls := s.calls[c := Call(t, Between, 1, 0, 0, 0, [])]), c, x, mode);
    case Ready(x, ready) => FinishLatches(s, x, ready);
    case Deadline(x) => FinishLatches(s, x, false);
    case Reply(c, raw, x, mode) =>
      if s.calls[c].retriesLeft > 0 { ImplOnlyAdds(GoRound(s, c), c, x, mode); }
    case _ =>
  }

  lemma {:induction false} LatchStaysSet(s: Client, steps: seq<Step>, r: RecId)
    requires Run(s, steps) && r in s.recs && s.recs[r].done
    ensures r in End(s, steps).recs && End(s, steps).recs[r] == s.recs[r]
    decreases |steps|
  {
    if steps != [] {
      hide Apply, Enabled;
      LatchStays(s, steps[0], r);
      LatchStaysSet(Apply(s, steps[0]), steps[1..], r);
    }
  }

  /** Ready and deadline exclude each other: once either has been reported for a wait, then
      whatever happens afterwards, no later report of readiness and no deadline of that wait
      changes anything. */
  lemma SettledOnce(s: Client, first: Step, steps: seq<Step>, r: RecId, again: Step)
    requires (first == Deadline(r) || (first.Ready? && first.r == r)) && (again == Deadline(r) || (again.Ready? && again.r == r))
    requires Enabled(s, first) && Run(Apply(s, first), steps)
    ensures var s' := End(Apply(s, first), steps); Enabled(s', again) && Apply(s', again) == s'
  {
    FinishLatches(s, r, first.Ready? && first.ready);
    LatchStaysSet(Apply(s, first), steps, r);
    hide Apply, End, Run;
    SettledStays(End(Apply(s, first), steps), r, again);
  }

  lemma SettledStays(s: Client, r: RecId, again: Step)
    requires (again == Deadline(r) || (again.Ready? && again.r == r)) && r in s.recs && s.recs[r].done
    ensures Enabled(s, again) && Apply(s, again) == s
  {
  }
}
