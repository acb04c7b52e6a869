/** The pending-call half of an RPC peer: two maps under one mutex, and the four
    contenders for an entry in them (a decoded reply, a cancel, the teardown sweep
    and the sender's own reclaim). */
module PendingCalls {

  // Every critical section, and every atomic load or compare-and-swap outside one,
  // is a single step; the steps of all threads interleave freely.

  type Id = nat
  type Handler = nat

  // Which of the two pending maps a registration lives in.
  datatype Kind = Call | Methods

  datatype Result = Result(id: Id, ok: bool, err: string, errCode: string, value: int)

  // What the sender answers itself with when it finds the peer already stopped.
  function StoppedResult(kind: Kind, id: Id): Result {
    Result(id, false, "connection stopped", if kind.Call? then "TRANSPORT_CLOSED" else "", 0)
  }

  // What the teardown sweep answers with.
  function SweptResult(kind: Kind, id: Id, reason: string): Result {
    Result(id, false, reason, if kind.Call? then "TRANSPORT_ERROR" else "", 0)
  }

  /** The maps guarded by the mutex. */
  datatype Registry = Registry(calls: map<Id, Handler>, methods: map<Id, Handler>) {
    function Of(k: Kind): map<Id, Handler> {
      if k.Call? then calls else methods
    }

    function With(k: Kind, m: map<Id, Handler>): Registry {
      if k.Call? then this.(calls := m) else this.(methods := m)
    }

    function Register(k: Kind, id: Id, h: Handler): Registry {
      With(k, Of(k)[id := h])
    }

    function Remove(k: Kind, id: Id): Registry {
      With(k, Of(k) - {id})
    }

    function Cancel(id: Id): Registry {
      Registry(calls - {id}, methods - {id})
    }
  }

  const EMPTY := Registry(map[], map[])

  // Who took a handler out of the map, and so runs it once the mutex is released.
  datatype Owner = Dispatch | Sweep | Sender

  datatype Hand = Hand(owner: Owner, handler: Handler, result: Result)

  /** Where one send is.  `Answering` is the sender running its own handler inline. */
  datatype Pc = Fresh | Registered | Reclaiming | Emitting | Answering | Returned

  /** One send, with the history of what became of its handler: extracted and about
      to run (`hands`), already run (`runs`), erased by a cancel (`withdrawn`). */
  datatype Send = Send(kind: Kind, handler: Handler, pc: Pc,
                       hands: seq<Hand>, runs: seq<Hand>, withdrawn: nat, written: nat)

  datatype Teardown = Open | Won | Swept

  datatype Peer = Peer(nextId: Id, reg: Registry, stopped: bool, teardown: Teardown,
                       sends: map<Id, Send>)

  const INITIAL := Peer(1, EMPTY, false, Open, map[])

  datatype Step =
    | TakeId(kind: Kind, handler: Handler)     // nextId(), by the thread about to send
    | Register(id: Id)                         // first critical section of a send
    | LoadStopped(id: Id)                      // the re-check
    | Reclaim(id: Id)                          // second critical section, when stopped
    | Emit(id: Id)
    | Reply(kind: Kind, result: Result)        // dispatchIncoming's critical section
    | Cancel(id: Id)                           // cancelPending
    | FailCas                                  // the winning compare-and-swap of fail()
    | FailSweep(reason: string)                // its critical section
    | Run(id: Id, i: nat)                      // a taken handler is invoked, mutex released

  // Moves the handler filed under `id` from the map into `owner`'s hand.
  function Take(s: Peer, k: Kind, id: Id, owner: Owner, result: Result): Peer
    requires id in s.reg.Of(k) && id in s.sends
  {
    var hand := Hand(owner, s.reg.Of(k)[id], result);
    s.(reg := s.reg.Remove(k, id),
       sends := s.sends[id := s.sends[id].(hands := s.sends[id].hands + [hand])])
  }

  function SweepSend(s: Peer, id: Id, reason: string): Send
    requires id in s.sends
  {
    var hands :=
      (if id in s.reg.calls then [Hand(Sweep, s.reg.calls[id], SweptResult(Call, id, reason))] else []) +
      (if id in s.reg.methods then [Hand(Sweep, s.reg.methods[id], SweptResult(Methods, id, reason))] else []);
    s.sends[id].(hands := s.sends[id].hands + hands)
  }

  function WithPc(s: Peer, id: Id, pc: Pc): Peer
    requires id in s.sends
  {
    s.(sends := s.sends[id := s.sends[id].(pc := pc)])
  }

  function Withdraw(s: Peer, id: Id): Peer
    requires id in s.sends
  {
    var n := (if id in s.reg.calls then 1 else 0) + (if id in s.reg.methods then 1 else 0);
    s.(reg := s.reg.Cancel(id),
       sends := s.sends[id := s.sends[id].(withdrawn := s.sends[id].withdrawn + n)])
  }

  ghost predicate Enabled(s: Peer, step: Step) {
    match step
    case TakeId(_, _) => true
    case Register(id) => id in s.sends && s.sends[id].pc.Fresh?
    case LoadStopped(id) => id in s.sends && s.sends[id].pc.Registered?
    case Reclaim(id) => id in s.sends && s.sends[id].pc.Reclaiming?
    case Emit(id) => id in s.sends && s.sends[id].pc.Emitting?
    case Reply(_, _) => true
    case Cancel(_) => true
    case FailCas => !s.stopped
    case FailSweep(_) => s.teardown.Won?
    case Run(id, i) => id in s.sends && i < |s.sends[id].hands|
  }

  /** The state after one step. */
  function Apply(s: Peer, step: Step): Peer
    requires Enabled(s, step)
  {
    match step
    case TakeId(k, h) =>
      s.(nextId := s.nextId + 1, sends := s.sends[s.nextId := Send(k, h, Fresh, [], [], 0, 0)])
    case Register(id) =>
      var c := s.sends[id];
      WithPc(s, id, Registered).(reg := s.reg.Register(c.kind, id, c.handler))
    case LoadStopped(id) =>
      WithPc(s, id, if s.stopped then Reclaiming else Emitting)
    case Reclaim(id) =>
      var k := s.sends[id].kind;
      if id in s.reg.Of(k)
      then WithPc(Take(s, k, id, Sender, StoppedResult(k, id)), id, Answering)
      else WithPc(s, id, Returned)
    case Emit(id) =>
      WithPc(s, id, Returned).(sends := s.sends[id := s.sends[id].(pc := Returned, written := s.sends[id].written + 1)])
    case Reply(k, r) =>
      if r.id in s.reg.Of(k) && r.id in s.sends then Take(s, k, r.id, Dispatch, r) else s
    case Cancel(id) =>  // an id never handed out is in neither map
      if id in s.sends then Withdraw(s, id) else s
    case FailCas =>
      s.(stopped := true, teardown := Won)
    case FailSweep(reason) =>
      s.(reg := EMPTY, teardown := Swept, sends := map id | id in s.sends :: SweepSend(s, id, reason))
    case Run(id, i) =>
      var c := s.sends[id];
      var hand := c.hands[i];
      var c' := c.(hands := c.hands[..i] + c.hands[i + 1..], runs := c.runs + [hand],
                   pc := if hand.owner.Sender? then Returned else c.pc);
      s.(sends := s.sends[id := c'])
  }

  // ---------------------------------------------------------------- invariant

  predicate OwnHand(c: Send, id: Id, hand: Hand) {
    hand.handler == c.handler && hand.result.id == id
  }

  /** One send: its handler is in exactly one place, `filed` in its pending map being one,
      and belongs to the send wherever it is. */
  predicate SendOk(c: Send, id: Id, nextId: Id, filed: bool, swept: bool) {
    && id < nextId
    && (if filed then 1 else 0) + |c.hands| + |c.runs| + c.withdrawn == (if c.pc.Fresh? then 0 else 1)
    && (|c.hands| > 0 ==> OwnHand(c, id, c.hands[0]))
    && (|c.runs| > 0 ==> OwnHand(c, id, c.runs[0]))
    && (c.pc.Answering? <==> |c.hands| > 0 && c.hands[0].owner.Sender?)
    && (|c.runs| > 0 && c.runs[0].owner.Sender? ==> c.pc.Returned? && c.written == 0)
    && c.written <= (if c.pc.Returned? then 1 else 0)
    // The point of registering before re-checking: nothing is left behind by the
    // sweep except what its own sender is still going to look for.
    && (swept && filed ==> c.pc.Registered? || c.pc.Reclaiming?)
  }

  predicate SendInv(s: Peer, id: Id)
    requires id in s.sends
  {
    SendOk(s.sends[id], id, s.nextId, id in s.reg.Of(s.sends[id].kind), s.teardown.Swept?)
  }

  ghost predicate Inv(s: Peer) {
    && (s.stopped <==> !s.teardown.Open?)
    && (forall id :: id in s.reg.calls ==> id in s.sends && s.sends[id].kind.Call? && s.reg.calls[id] == s.sends[id].handler)
    && (forall id :: id in s.reg.methods ==> id in s.sends && s.sends[id].kind.Methods? && s.reg.methods[id] == s.sends[id].handler)
    && (forall id :: id in s.sends ==> SendInv(s, id))
  }

  ghost predicate SameElsewhere(m: map<Id, Handler>, m': map<Id, Handler>, id: Id) {
    forall k :: k != id ==> (k in m' <==> k in m) && (k in m ==> m'[k] == m[k])
  }

  // A step of one send `id` that leaves the others alone.
  lemma OneSend(s: Peer, id: Id, c: Send, reg: Registry)
    requires Inv(s) && id in s.sends && c.kind == s.sends[id].kind && c.handler == s.sends[id].handler
    requires SendOk(c, id, s.nextId, id in reg.Of(c.kind), s.teardown.Swept?)
    requires SameElsewhere(s.reg.calls, reg.calls, id) && (id in reg.calls ==> c.kind.Call? && reg.calls[id] == c.handler)
    requires SameElsewhere(s.reg.methods, reg.methods, id) && (id in reg.methods ==> c.kind.Methods? && reg.methods[id] == c.handler)
    ensures Inv(s.(reg := reg, sends := s.sends[id := c]))
  {
    var s' := s.(reg := reg, sends := s.sends[id := c]);
    hide SendOk;
    forall k | k in s'.sends ensures SendInv(s', k) { assert SendInv(s, k); }
  }

  // Where the handlers of one send are.
  lemma OneReg(s: Peer, id: Id)
    requires Inv(s) && id in s.sends
    ensures SendInv(s, id)
    ensures id in s.reg.calls ==> s.sends[id].kind.Call? && s.reg.calls[id] == s.sends[id].handler
    ensures id in s.reg.methods ==> s.sends[id].kind.Methods? && s.reg.methods[id] == s.sends[id].handler
    ensures s.stopped <==> !s.teardown.Open?
  {
    hide SendOk;
  }

  // Taking a handler out changes one send.
  lemma TakeShape(s: Peer, k: Kind, id: Id, owner: Owner, r: Result, pc: Pc)
    requires id in s.sends && id in s.reg.Of(k)
    ensures var c := s.sends[id];
            WithPc(Take(s, k, id, owner, r), id, pc)
            == s.(reg := s.reg.Remove(k, id), sends := s.sends[id := c.(hands := c.hands + [Hand(owner, s.reg.Of(k)[id], r)], pc := pc)])
  {
    var c := s.sends[id];
    assert WithPc(Take(s, k, id, owner, r), id, pc).sends
        == s.sends[id := c.(hands := c.hands + [Hand(owner, s.reg.Of(k)[id], r)], pc := pc)];
  }

  lemma RegisterKeepsInv(s: Peer, id: Id)
    requires Inv(s) && Enabled(s, Register(id))
    ensures Inv(Apply(s, Register(id)))
  {
    var c := s.sends[id];
    OneReg(s, id);
    hide Inv;
    OneSend(s, id, c.(pc := Registered), s.reg.Register(c.kind, id, c.handler));
  }

  lemma LoadKeepsInv(s: Peer, id: Id)
    requires Inv(s) && Enabled(s, LoadStopped(id))
    ensures Inv(Apply(s, LoadStopped(id)))
  {
    OneReg(s, id);
    hide Inv;
    OneSend(s, id, s.sends[id].(pc := if s.stopped then Reclaiming else Emitting), s.reg);
  }

  // Whoever takes a registered handler out is the only one to have it in hand.
  lemma TakeKeepsInv(s: Peer, k: Kind, id: Id, owner: Owner, r: Result, pc: Pc)
    requires Inv(s) && id in s.sends && id in s.reg.Of(k) && r.id == id
    requires if owner.Sender? then pc.Answering? && s.sends[id].pc.Reclaiming? else pc == s.sends[id].pc
    ensures Inv(WithPc(Take(s, k, id, owner, r), id, pc))
  {
    var c := s.sends[id];
    OneReg(s, id);
    TakeShape(s, k, id, owner, r, pc);
    hide Inv, Take, WithPc;
    assert c.hands == [];
    OneSend(s, id, c.(hands := c.hands + [Hand(owner, c.handler, r)], pc := pc), s.reg.Remove(k, id));
  }

  lemma ReclaimKeepsInv(s: Peer, id: Id)
    requires Inv(s) && Enabled(s, Reclaim(id))
    ensures Inv(Apply(s, Reclaim(id)))
  {
    var k := s.sends[id].kind;
    OneReg(s, id);
    hide Inv;
    if id in s.reg.Of(k) {
      TakeKeepsInv(s, k, id, Sender, StoppedResult(k, id), Answering);
    } else {
      OneSend(s, id, s.sends[id].(pc := Returned), s.reg);
    }
  }

  lemma ReplyKeepsInv(s: Peer, k: Kind, r: Result)
    requires Inv(s) && Enabled(s, Reply(k, r))
    ensures Inv(Apply(s, Reply(k, r)))
  {
    hide Inv;
    if r.id in s.reg.Of(k) && r.id in s.sends {
      var pc := s.sends[r.id].pc;
      TakeKeepsInv(s, k, r.id, Dispatch, r, pc);
      var s' := Take(s, k, r.id, Dispatch, r);
      assert WithPc(s', r.id, pc).sends == s'.sends;
    }
  }

  lemma CancelKeepsInv(s: Peer, id: Id)
    requires Inv(s) && Enabled(s, Cancel(id))
    ensures Inv(Apply(s, Cancel(id)))
  {
    if id in s.sends {
      var c := s.sends[id];
      var c' := c.(withdrawn := c.withdrawn + if id in s.reg.Of(c.kind) then 1 else 0);
      OneReg(s, id);
      hide Inv;
      assert Apply(s, Cancel(id)) == s.(reg := s.reg.Cancel(id), sends := s.sends[id := c']);
      hide Apply;
      OneSend(s, id, c', s.reg.Cancel(id));
    }
  }

  lemma SweptSend(s: Peer, id: Id, reason: string)
    requires Inv(s) && id in s.sends
    ensures var c := SweepSend(s, id, reason);
            c.kind == s.sends[id].kind && c.handler == s.sends[id].handler && SendOk(c, id, s.nextId, false, true)
  {
    assert SendInv(s, id);
    var c, c' := s.sends[id], SweepSend(s, id, reason);
    if id in s.reg.Of(c.kind) {
      assert c.hands == [] && |c'.hands| == 1;
    } else {
      assert c'.hands == c.hands;
    }
  }

  lemma SweepKeepsInv(s: Peer, reason: string)
    requires Inv(s) && Enabled(s, FailSweep(reason))
    ensures Inv(Apply(s, FailSweep(reason)))
  {
    forall id | id in s.sends ensures SendInv(Apply(s, FailSweep(reason)), id) {
      SweptSend(s, id, reason);
      hide SendOk, SweepSend;
    }
    hide SendInv, SweepSend;
  }

  lemma RunKeepsInv(s: Peer, id: Id, i: nat)
    requires Inv(s) && Enabled(s, Run(id, i))
    ensures Inv(Apply(s, Run(id, i)))
  {
    var c := s.sends[id];
    assert SendInv(s, id);
    hide Inv;
    assert |c.hands| == 1 && i == 0;
    assert c.hands[..0] + c.hands[1..] == [] && c.hands == [c.hands[0]];
    OneSend(s, id, c.(hands := [], runs := c.runs + [c.hands[0]], pc := if c.hands[0].owner.Sender? then Returned else c.pc), s.reg);
  }

  lemma EmitKeepsInv(s: Peer, id: Id)
    requires Inv(s) && Enabled(s, Emit(id))
    ensures Inv(Apply(s, Emit(id)))
  {
    var c := s.sends[id];
    assert SendInv(s, id);
    hide Inv;
    OneSend(s, id, c.(pc := Returned, written := c.written + 1), s.reg);
    assert Apply(s, Emit(id)).sends == s.sends[id := c.(pc := Returned, written := c.written + 1)];
  }

  lemma TakeIdKeepsInv(s: Peer, k: Kind, h: Handler)
    requires Inv(s)
    ensures Inv(Apply(s, TakeId(k, h)))
  {
    var s' := Apply(s, TakeId(k, h));
    forall id | id in s'.sends ensures SendInv(s', id) { if id in s.sends { assert SendInv(s, id); } }
  }

  lemma FailKeepsInv(s: Peer)
    requires Inv(s) && Enabled(s, FailCas)
    ensures Inv(Apply(s, FailCas))
  {
    forall id | id in s.sends ensures SendInv(Apply(s, FailCas), id) { assert SendInv(s, id); }
  }

  lemma StepKeepsInv(s: Peer, step: Step)
    requires Inv(s) && Enabled(s, step)
    ensures Inv(Apply(s, step))
  {
    hide Inv, Enabled, Apply;
    match step
    case TakeId(k, h) => TakeIdKeepsInv(s, k, h);
    case Register(id) => RegisterKeepsInv(s, id);
    case LoadStopped(id) => LoadKeepsInv(s, id);
    case Reclaim(id) => ReclaimKeepsInv(s, id);
    case Emit(id) => EmitKeepsInv(s, id);
    case Reply(k, r) => ReplyKeepsInv(s, k, r);
    case Cancel(id) => CancelKeepsInv(s, id);
    case FailCas => FailKeepsInv(s);
    case FailSweep(reason) => SweepKeepsInv(s, reason);
    case Run(id, i) => RunKeepsInv(s, id, i);
  }

  // ---------------------------------------------------------------- every run

  // A run, with the step taken from each of its states.
  ghost predicate IsRun(run: seq<Peer>, steps: seq<Step>) {
    && |run| == |steps| + 1 && run[0] == INITIAL
    && forall i :: 0 <= i < |steps| ==> Enabled(run[i], steps[i]) && run[i + 1] == Apply(run[i], steps[i])
  }

  lemma {:induction false} RunKeepsInvariant(run: seq<Peer>, steps: seq<Step>, n: nat)
    requires IsRun(run, steps) && n < |run|
    ensures Inv(run[n])
  {
    if n > 0 {
      RunKeepsInvariant(run, steps, n - 1);
      StepKeepsInv(run[n - 1], steps[n - 1]);
    }
  }

  /** However the threads interleave, a handler is invoked at most once, it is the
      one its own send registered, and the result carries that send's id. */
  lemma HandlerRunsAtMostOnce(run: seq<Peer>, steps: seq<Step>, n: nat, id: Id)
    requires IsRun(run, steps) && n < |run| && id in run[n].sends
    ensures var c := run[n].sends[id];
            && |c.runs| + |c.hands| + c.withdrawn <= 1
            && (forall h :: h in c.runs ==> h.handler == c.handler && h.result.id == id)
  {
    RunKeepsInvariant(run, steps, n);
    assert SendInv(run[n], id);
  }

  // ------------------------------------------------------------- what handlers are given

  // A send's handler, in somebody's hand or already run.
  predicate Given(c: Send, h: Hand) {
    h in c.hands || h in c.runs
  }

  /** Whether `step`, taken in `s`, takes the handler of `id` out to be given exactly this: a
      reply gives it the very result that came, teardown a transport error with its reason,
      and the sender its own "connection stopped".  An introspection reply has no code. */
  ghost predicate Gives(s: Peer, step: Step, id: Id, h: Hand) {
    id in s.sends && h.result.id == id &&
    match h.owner
    case Dispatch => step == Reply(s.sends[id].kind, h.result)
    case Sweep => step.FailSweep? && h.result == Result(id, false, step.reason, if s.sends[id].kind.Call? then "TRANSPORT_ERROR" else "", 0)
    case Sender => step == Reclaim(id) && h.result == Result(id, false, "connection stopped", if s.sends[id].kind.Call? then "TRANSPORT_CLOSED" else "", 0)
  }

  lemma SweepGives(s: Peer, reason: string, id: Id, h: Hand)
    requires Inv(s) && Enabled(s, FailSweep(reason)) && id in s.sends && Given(Apply(s, FailSweep(reason)).sends[id], h)
    ensures Given(s.sends[id], h) || Gives(s, FailSweep(reason), id, h)
  {
    assert SendInv(s, id);
  }

  lemma RunGives(s: Peer, id: Id, i: nat, k: Id, h: Hand)
    requires Enabled(s, Run(id, i)) && k in s.sends && Given(Apply(s, Run(id, i)).sends[k], h)
    ensures Given(s.sends[k], h)
  {
  }

  lemma ReplyGives(s: Peer, k: Kind, r: Result, id: Id, h: Hand)
    requires Inv(s) && id in s.sends && Given(Apply(s, Reply(k, r)).sends[id], h)
    ensures Given(s.sends[id], h) || Gives(s, Reply(k, r), id, h)
  {
    if id == r.id { OneReg(s, id); }
    hide Inv, SendOk;
  }

  lemma ReclaimGives(s: Peer, c: Id, id: Id, h: Hand)
    requires Enabled(s, Reclaim(c)) && id in s.sends && Given(Apply(s, Reclaim(c)).sends[id], h)
    ensures Given(s.sends[id], h) || Gives(s, Reclaim(c), id, h)
  {
  }

  lemma StepGives(s: Peer, step: Step, id: Id, h: Hand)
    requires Inv(s) && Enabled(s, step) && id in Apply(s, step).sends && Given(Apply(s, step).sends[id], h)
    ensures id in s.sends && (Given(s.sends[id], h) || Gives(s, step, id, h))
  {
    match step
    case FailSweep(reason) => SweepGives(s, reason, id, h);
    case Run(k, i) => RunGives(s, k, i, id, h);
    case Reply(k, r) => ReplyGives(s, k, r, id, h);
    case Reclaim(c) => ReclaimGives(s, c, id, h);
    case _ => hide Inv, Gives;
  }

  /** Over every run, what a handler was given is what the step that took it out gives. */
  lemma {:induction false} GivenWhatCame(run: seq<Peer>, steps: seq<Step>, n: nat, id: Id, h: Hand)
    requires IsRun(run, steps) && n < |run| && id in run[n].sends && Given(run[n].sends[id], h)
    ensures exists i :: 0 <= i < n && Gives(run[i], steps[i], id, h)
  {
    if n > 0 {
      RunKeepsInvariant(run, steps, n - 1);
      hide Inv, Enabled, Apply, Given, Gives;
      StepGives(run[n - 1], steps[n - 1], id, h);
      if !Gives(run[n - 1], steps[n - 1], id, h) { GivenWhatCame(run, steps, n - 1, id, h); }
    }
  }

  ghost predicate FailReturned(s: Peer) {
    && s.teardown.Swept?
    && forall id, h :: id in s.sends && h in s.sends[id].hands ==> !h.owner.Sweep?
  }

  ghost predicate SendsReturned(s: Peer) {
    forall id :: id in s.sends ==> s.sends[id].pc.Returned?
  }

  /** Once fail() and every send have returned, nothing is pending, and each handler
      was withdrawn by a cancel, or has run exactly once, or is the one reply the io
      thread is in the middle of delivering. */
  lemma NothingIsStranded(run: seq<Peer>, steps: seq<Step>, n: nat)
    requires IsRun(run, steps) && n < |run|
    requires FailReturned(run[n]) && SendsReturned(run[n])
    ensures run[n].reg == EMPTY
    ensures forall id :: id in run[n].sends ==>
              var c := run[n].sends[id];
              || (c.withdrawn == 1 && c.runs == [] && c.hands == [])
              || (c.withdrawn == 0 && |c.runs| == 1 && c.hands == [])
              || (c.withdrawn == 0 && c.runs == [] && |c.hands| == 1 && c.hands[0].owner.Dispatch?)
  {
    var s := run[n];
    RunKeepsInvariant(run, steps, n);
    forall id | id in s.sends
      ensures id !in s.reg.Of(s.sends[id].kind)
      ensures |s.sends[id].hands| > 0 ==> s.sends[id].hands[0].owner.Dispatch?
    {
      assert SendInv(s, id);
      assert |s.sends[id].hands| > 0 ==> s.sends[id].hands[0] in s.sends[id].hands;
    }
    assert s.reg.calls == map[] && s.reg.methods == map[];
    forall id | id in s.sends ensures SendInv(s, id) {}
  }

  ghost predicate NothingUnderWay(s: Peer) {
    forall id, h :: id in s.sends && h in s.sends[id].hands ==> !h.owner.Dispatch?
  }

  /** And once no reply is being delivered either, every handler has run exactly once or
      was withdrawn. */
  lemma EveryHandlerAnswered(run: seq<Peer>, steps: seq<Step>, n: nat, id: Id)
    requires IsRun(run, steps) && n < |run| && id in run[n].sends
    requires FailReturned(run[n]) && SendsReturned(run[n]) && NothingUnderWay(run[n])
    ensures run[n].reg == EMPTY
    ensures var c := run[n].sends[id]; c.hands == [] && (c.withdrawn == 1 <==> c.runs == []) && c.withdrawn + |c.runs| == 1
  {
    NothingIsStranded(run, steps, n);
    FirstIsIn(run[n].sends[id].hands);
  }

  lemma FirstIsIn(hands: seq<Hand>)
    ensures hands != [] ==> hands[0] in hands
  {
  }

  /** A send that answered its caller "connection stopped" put nothing on the wire,
      and no send writes its frame twice. */
  lemma StoppedAnswerMeansNotWritten(run: seq<Peer>, steps: seq<Step>, n: nat, id: Id)
    requires IsRun(run, steps) && n < |run| && id in run[n].sends
    ensures run[n].sends[id].written <= 1
    ensures (exists h :: h in run[n].sends[id].runs && h.owner.Sender?) ==> run[n].sends[id].written == 0
  {
    RunKeepsInvariant(run, steps, n);
    assert SendInv(run[n], id);
  }
}
