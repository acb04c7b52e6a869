/** Asynchronous calls on one consumer handle: the reply, the deadline, a completion
    event and teardown race to resolve each call, and completions that overtake their
    own reply wait in a bounded staging area. */
module AsyncCalls {
  import opened Wrappers

  // A step is one critical section under CallState::mu, one atomic operation, or one
  // handler of the timer's strand.

  type CallNo = nat         // the call's id on the wire
  type DeferId = string     // the id a "multi" provider mints for a deferred answer
  type Value = int

  const PARKED_CAP: nat := 512

  // -------------------------------------------------- the state under CallState::mu

  datatype State = State(
    inflight: set<CallNo>,
    deferred: map<DeferId, CallNo>,
    completions: map<DeferId, Value>,
    order: seq<DeferId>,
    syncOutstanding: nat,
    stopping: bool)
  {
    predicate Busy() {
      syncOutstanding > 0 || inflight != {} || deferred != map[]
    }

    function DropIfIdle(): State {
      if Busy() then this else this.(completions := map[], order := [])
    }

    function Park(id: DeferId, v: Value): State {
      if !Busy() then this
      else if id in completions then this.(completions := completions[id := v])
      else Evict(this.(completions := completions[id := v], order := order + [id]))
    }

    function Take(id: DeferId): State {
      if id !in completions then this
      else this.(completions := completions - {id}, order := Erase(order, id))
    }

    function Leave(no: CallNo, deferId: Option<DeferId>): State {
      this.(inflight := inflight - {no},
            deferred := if deferId.Some? then deferred - {deferId.value} else deferred).DropIfIdle()
    }

    function Stop(): State {
      State({}, map[], map[], [], syncOutstanding, true)
    }
  }

  const FRESH := State({}, map[], map[], [], 0, false)

  // Drops the oldest entries until the cap holds.
  function Evict(st: State): (r: State)
    ensures r == st.(completions := r.completions, order := r.order)
    decreases |st.order|
  {
    if |st.order| <= PARKED_CAP then st
    else Evict(st.(completions := st.completions - {st.order[0]}, order := st.order[1..]))
  }

  // Removes the first occurrence.
  function Erase(s: seq<DeferId>, id: DeferId): seq<DeferId> {
    if s == [] then []
    else if s[0] == id then s[1..]
    else [s[0]] + Erase(s[1..], id)
  }

  predicate Distinct(s: seq<DeferId>) {
    forall i, j :: 0 <= i < j < |s| ==> s[i] != s[j]
  }

  /** The staging area and its arrival order name the same ids, once each, within the
      cap; a stopped handle has nothing registered. */
  ghost predicate Parked(st: State) {
    && Distinct(st.order)
    && (forall id :: id in st.order <==> id in st.completions)
    && |st.order| <= PARKED_CAP
  }

  ghost predicate StateInv(st: State) {
    && Parked(st)
    && (st.stopping ==> st.inflight == {} && st.deferred == map[])
  }

  // How many entries arrived after `id`.
  function Behind(s: seq<DeferId>, id: DeferId): nat {
    if s == [] then 0
    else if s[0] == id then |s| - 1
    else Behind(s[1..], id)
  }

  lemma {:induction false} ErasedOrder(s: seq<DeferId>, id: DeferId)
    requires Distinct(s)
    ensures Distinct(Erase(s, id))
    ensures forall x :: x in Erase(s, id) <==> x in s && x != id
    ensures |Erase(s, id)| <= |s|
    ensures forall x :: x in s && x != id ==> Behind(Erase(s, id), x) <= Behind(s, x)
  {
    if s != [] {
      ErasedOrder(s[1..], id);
      assert s[0] !in s[1..];
      if s[0] != id {
        var e := Erase(s[1..], id);
        assert ([s[0]] + e)[1..] == e;
        assert forall j :: 0 <= j < |e| ==> e[j] in e;
      } else {
        forall x | x in s && x != id ensures Behind(Erase(s, id), x) <= Behind(s, x) {}
      }
    }
  }

  lemma {:induction false} BehindAppend(s: seq<DeferId>, x: DeferId, id: DeferId)
    requires id in s
    ensures Behind(s + [x], id) == Behind(s, id) + 1
  {
    if s[0] != id {
      assert (s + [x])[1..] == s[1..] + [x];
      BehindAppend(s[1..], x, id);
    }
  }

  // One past the cap, exactly the oldest entry goes.
  lemma EvictDropsOldest(st: State)
    requires |st.order| == PARKED_CAP + 1
    ensures Evict(st) == st.(completions := st.completions - {st.order[0]}, order := st.order[1..])
  {
  }

  lemma AppendFresh(s: seq<DeferId>, id: DeferId)
    requires Distinct(s) && id !in s
    ensures Distinct(s + [id]) && Distinct((s + [id])[1..])
    ensures forall x :: x in s + [id] <==> x in s || x == id
    ensures forall x :: x in (s + [id])[1..] <==> x in s + [id] && x != (s + [id])[0]
  {
    var t := s + [id];
    assert t == [t[0]] + t[1..];
    assert t[0] !in t[1..];
  }

  lemma ParkKeeps(st: State, id: DeferId, v: Value)
    requires StateInv(st)
    ensures StateInv(st.Park(id, v))
    ensures st.Busy() ==> id in st.Park(id, v).completions && st.Park(id, v).completions[id] == v
    ensures st.Busy() && id !in st.completions ==> Behind(st.Park(id, v).order, id) == 0
  {
    if st.Busy() && id !in st.completions {
      AppendFresh(st.order, id);
      var grown := st.(completions := st.completions[id := v], order := st.order + [id]);
      if |grown.order| > PARKED_CAP { EvictDropsOldest(grown); }
      LastIsNewest(st.Park(id, v).order);
    }
  }

  lemma {:induction false} LastIsNewest(s: seq<DeferId>)
    requires s != [] && Distinct(s)
    ensures Behind(s, s[|s| - 1]) == 0
  {
    if |s| > 1 {
      assert s[1..][|s| - 2] == s[|s| - 1];
      LastIsNewest(s[1..]);
    }
  }

  lemma TakeKeeps(st: State, id: DeferId)
    requires StateInv(st)
    ensures StateInv(st.Take(id))
  {
    ErasedOrder(st.order, id);
  }

  lemma ParkOtherKeeps(st: State, id: DeferId, other: DeferId, v: Value)
    requires StateInv(st) && st.Busy() && id in st.completions && other != id
    requires other in st.completions || Behind(st.order, id) + 1 < PARKED_CAP
    ensures id in st.Park(other, v).completions && st.Park(other, v).completions[id] == st.completions[id]
    ensures Behind(st.Park(other, v).order, id) <= Behind(st.order, id) + if other in st.completions then 0 else 1
  {
    if other !in st.completions {
      AppendFresh(st.order, other);
      BehindAppend(st.order, other, id);
      var grown := st.(completions := st.completions[other := v], order := st.order + [other]);
      if |grown.order| > PARKED_CAP {
        EvictDropsOldest(grown);
        assert Behind(grown.order, id) < PARKED_CAP;
        assert grown.order[0] != id;
      }
    }
  }

  // ------------------------------------------------------------------ the calls

  datatype Outcome = Answer(v: Value) | WireError(code: string) | Timeout | Released

  /** The thread inside callAsync(). */
  datatype Issuer = Created | Refused | Filed | Sent

  /** The reply handler, which the connection invokes at most once. */
  datatype Reply = NoReply | Checking(id: DeferId) | Filing(id: DeferId) | Rearming | Replied

  /** One call.  Threads inside deliver() are counted by how far they have got:
      `entering` before the registries are left, `leaving` before the compare-and-swap,
      `won` holding the callback, `handed` after the hand-off.  `offered` is every
      outcome anything has tried to deliver.  `filedLate` says the call was filed when some
      thread had already passed the registries on its way to resolving it, and `late` the
      same of its sentinel. */
  datatype Call = Call(
    issuer: Issuer, filedLate: bool, reply: Reply, deferId: Option<DeferId>, late: bool,
    arms: nat, waiting: bool, expired: nat, cancels: nat,
    entering: multiset<Outcome>, leaving: multiset<Outcome>,
    delivered: bool, won: seq<Outcome>, handed: seq<Outcome>, offered: set<Outcome>)
  {
    function Offer(o: Outcome): Call {
      this.(entering := entering + multiset{o}, offered := offered + {o})
    }

    // Some thread has passed the registries on its way to resolving the call, or has resolved it.
    predicate Resolving() {
      delivered || leaving != multiset{}
    }

    predicate WasFiled() {
      issuer.Filed? || issuer.Sent?
    }
  }

  // The deadline is armed before the call is filed anywhere.
  const ISSUED := Call(Created, false, NoReply, None, false, 1, false, 0, 0, multiset{}, multiset{}, false, [], [], {})

  /** `alive` is whether the handle still owns its state block. */
  datatype World = World(st: State, calls: map<CallNo, Call>, alive: bool)

  const INITIAL := World(FRESH, map[], true)

  datatype Step =
    | Issue(no: CallNo)
    | FileInflight(no: CallNo)
    | Send(no: CallNo)
    | ReplyPlain(no: CallNo, o: Outcome)          // an error, or a value that is no sentinel
    | ReplySentinel(no: CallNo, id: DeferId)
    | CheckDelivered(no: CallNo)
    | FileDeferred(no: CallNo)
    | Rearm(no: CallNo)
    | Complete(id: DeferId, v: Value)             // the completion event
    | RunArm(no: CallNo) | Expire(no: CallNo) | Fire(no: CallNo) | RunCancel(no: CallNo)
    | LeaveRegistries(no: CallNo, o: Outcome)
    | Claim(no: CallNo, o: Outcome)
    | HandOff(no: CallNo)
    | StopAll
    | DropState
    | SyncBegin | SyncTake(id: DeferId) | SyncEnd

  ghost predicate Enabled(w: World, step: Step) {
    match step
    case Issue(no) => no !in w.calls
    case FileInflight(no) => no in w.calls && w.calls[no].issuer.Created?
    case Send(no) => no in w.calls && w.calls[no].issuer.Filed?
    case ReplyPlain(no, o) => no in w.calls && w.calls[no].issuer.Sent? && w.calls[no].reply.NoReply? && (o.Answer? || o.WireError?)
    case ReplySentinel(no, _) => no in w.calls && w.calls[no].issuer.Sent? && w.calls[no].reply.NoReply?
    case CheckDelivered(no) => no in w.calls && w.calls[no].reply.Checking?
    case FileDeferred(no) => no in w.calls && w.calls[no].reply.Filing?
    case Rearm(no) => no in w.calls && w.calls[no].reply.Rearming?
    case Complete(id, _) => id in w.st.deferred ==> w.st.deferred[id] in w.calls
    case RunArm(no) => no in w.calls && w.calls[no].arms > 0
    case Expire(no) => no in w.calls && w.calls[no].waiting
    case Fire(no) => no in w.calls && w.calls[no].expired > 0
    case RunCancel(no) => no in w.calls && w.calls[no].cancels > 0
    case LeaveRegistries(no, o) => no in w.calls && o in w.calls[no].entering
    case Claim(no, o) => no in w.calls && o in w.calls[no].leaving
    case HandOff(no) => no in w.calls && w.calls[no].won != []
    case StopAll => true
    case DropState => w.st.stopping
    case SyncBegin => true
    case SyncTake(_) => w.st.syncOutstanding > 0
    case SyncEnd => w.st.syncOutstanding > 0
  }

  function Put(w: World, no: CallNo, c: Call): World {
    w.(calls := w.calls[no := c])
  }

  // The critical section that files a call, or refuses it once teardown has begun.
  function FiledCall(w: World, no: CallNo): World
    requires no in w.calls
  {
    var c := w.calls[no];
    if w.st.stopping then Put(w, no, c.Offer(Released).(issuer := Refused))
    else Put(w, no, c.(issuer := Filed, filedLate := c.Resolving())).(st := w.st.(inflight := w.st.inflight + {no}))
  }

  // The reply handler's critical section once it holds a sentinel.
  function FiledSentinel(w: World, no: CallNo): World
    requires no in w.calls && w.calls[no].reply.Filing?
  {
    var c := w.calls[no];
    var id := c.reply.id;
    if id in w.st.completions then
      Put(w, no, c.Offer(Answer(w.st.completions[id])).(reply := Replied)).(st := w.st.Take(id))
    else if w.st.stopping then
      Put(w, no, c.Offer(Released).(reply := Replied))
    else
      Put(w, no, c.(reply := Rearming, deferId := Some(id), late := c.Resolving())).(st := w.st.(deferred := w.st.deferred[id := no]))
  }

  // The completion subscriber's critical section.
  function Completed(w: World, id: DeferId, v: Value): World
    requires id in w.st.deferred ==> w.st.deferred[id] in w.calls
  {
    if !w.alive then w
    else if id in w.st.deferred then
      var no := w.st.deferred[id];
      Put(w, no, w.calls[no].Offer(Answer(v))).(st := w.st.(deferred := w.st.deferred - {id}))
    else w.(st := w.st.Park(id, v))
  }

  function Apply(w: World, step: Step): World
    requires Enabled(w, step)
  {
    match step
    case Issue(no) => Put(w, no, ISSUED)
    case FileInflight(no) => FiledCall(w, no)
    case Send(no) => Put(w, no, w.calls[no].(issuer := Sent))
    case ReplyPlain(no, o) => Put(w, no, w.calls[no].Offer(o).(reply := Replied))
    case ReplySentinel(no, id) =>
      if w.alive then Put(w, no, w.calls[no].(reply := Checking(id)))
      else Put(w, no, w.calls[no].Offer(Released).(reply := Replied))
    case CheckDelivered(no) =>
      var c := w.calls[no];
      Put(w, no, c.(reply := if c.delivered then Replied else Filing(c.reply.id)))
    case FileDeferred(no) => FiledSentinel(w, no)
    case Rearm(no) => Put(w, no, w.calls[no].(reply := Replied, arms := w.calls[no].arms + 1))
    case Complete(id, v) => Completed(w, id, v)
    // A new expiry time aborts the wait it replaces, but not one whose handler is queued.
    case RunArm(no) => Put(w, no, w.calls[no].(arms := w.calls[no].arms - 1, waiting := true))
    case Expire(no) => Put(w, no, w.calls[no].(waiting := false, expired := w.calls[no].expired + 1))
    case Fire(no) => Put(w, no, w.calls[no].Offer(Timeout).(expired := w.calls[no].expired - 1))
    case RunCancel(no) => Put(w, no, w.calls[no].(cancels := w.calls[no].cancels - 1, waiting := false))
    case LeaveRegistries(no, o) =>
      var c := w.calls[no];
      Put(w, no, c.(entering := c.entering - multiset{o}, leaving := c.leaving + multiset{o}))
        .(st := if w.alive then w.st.Leave(no, c.deferId) else w.st)
    case Claim(no, o) =>
      var c := w.calls[no].(leaving := w.calls[no].leaving - multiset{o});
      Put(w, no, if c.delivered then c else c.(delivered := true, won := c.won + [o]))
    case HandOff(no) =>
      var c := w.calls[no];
      Put(w, no, c.(won := c.won[1..], handed := c.handed + [c.won[0]], cancels := c.cancels + 1))
    case StopAll =>
      w.(st := w.st.Stop(),
         calls := map no | no in w.calls :: if no in w.st.inflight then w.calls[no].Offer(Released) else w.calls[no])
    case DropState => w.(alive := false)
    case SyncBegin => w.(st := w.st.(syncOutstanding := w.st.syncOutstanding + 1))
    case SyncTake(id) => w.(st := w.st.Take(id))
    case SyncEnd => w.(st := w.st.(syncOutstanding := w.st.syncOutstanding - 1).DropIfIdle())
  }

  // ------------------------------------------------------------------ invariants

  // Something that will call deliver() without help from the peer.
  predicate Resolvable(c: Call) {
    c.arms > 0 || c.waiting || c.expired > 0 || c.entering != multiset{} || c.leaving != multiset{}
  }

  ghost predicate CallInv(c: Call) {
    && |c.won| + |c.handed| == (if c.delivered then 1 else 0)
    && (c.cancels > 0 ==> c.delivered)
    && (!c.delivered ==> Resolvable(c))
    && (forall o :: o in c.entering ==> o in c.offered)
    && (forall o :: o in c.leaving ==> o in c.offered)
    && (|c.won| > 0 ==> c.won[0] in c.offered)
    && (|c.handed| > 0 ==> c.handed[0] in c.offered)
    && (c.offered == {} ==> !c.issuer.Refused?)
    && (c.reply.NoReply? || c.reply.Checking? || c.reply.Filing? ==> c.deferId.None?)
    && (c.reply.NoReply? || c.issuer.Sent?)
    && (forall o :: o in c.offered ==> c.delivered || o in c.entering || o in c.leaving)
  }

  // What an entry of `deferred` says about its call.
  predicate Outstanding(c: Call, id: DeferId) {
    c.deferId == Some(id) && (c.late <==> c.Resolving())
  }

  ghost predicate Registered(w: World) {
    && (forall no :: no in w.st.inflight ==> no in w.calls && (w.calls[no].filedLate <==> w.calls[no].Resolving()))
    && (forall id :: id in w.st.deferred ==> w.st.deferred[id] in w.calls && Outstanding(w.calls[w.st.deferred[id]], id))
    // Until some thread passes the registries to resolve it a filed call stays, unless torn down.
    && (forall no :: no in w.calls && w.calls[no].WasFiled() && !w.calls[no].Resolving() && !w.st.stopping
          ==> no in w.st.inflight)
    && (!w.alive ==> w.st.stopping)
  }

  ghost predicate Inv(w: World) {
    && StateInv(w.st)
    && (forall no :: no in w.calls ==> CallInv(w.calls[no]))
    && Registered(w)
  }

  lemma StateSteps(w: World, step: Step)
    requires Inv(w) && Enabled(w, step)
    ensures StateInv(Apply(w, step).st)
  {
    hide Registered, CallInv, Evict, Erase;
    match step
    case FileDeferred(no) => TakeKeeps(w.st, w.calls[no].reply.id);
    case Complete(id, v) => ParkKeeps(w.st, id, v);
    case SyncTake(id) => TakeKeeps(w.st, id);
    case _ =>
  }

  lemma OfferKeeps(c: Call, o: Outcome)
    requires CallInv(c)
    ensures CallInv(c.Offer(o)) && (c.issuer.Sent? ==> CallInv(c.Offer(o).(reply := Replied)))
    ensures c.reply.NoReply? ==> CallInv(c.Offer(o).(issuer := Refused))
    ensures c.expired > 0 ==> CallInv(c.Offer(o).(expired := c.expired - 1))
    ensures c.Offer(o).offered != {}
  {
    assert o in c.Offer(o).entering;
    assert o in c.Offer(o).offered;
  }

  lemma LeaveKeeps(c: Call, o: Outcome)
    requires CallInv(c) && o in c.entering
    ensures CallInv(c.(entering := c.entering - multiset{o}, leaving := c.leaving + multiset{o}))
    ensures c.offered != {}
  {
    assert o in c.leaving + multiset{o};
  }

  lemma ClaimKeeps(w: World, no: CallNo, o: Outcome)
    requires Enabled(w, Claim(no, o)) && CallInv(w.calls[no])
    ensures CallInv(Apply(w, Claim(no, o)).calls[no])
    ensures w.calls[no].offered != {}
  {
    var c := w.calls[no];
    assert o in c.offered;
    assert !c.delivered ==> c.won == [] && c.won + [o] == [o];
  }

  lemma HandOffKeeps(w: World, no: CallNo)
    requires Enabled(w, HandOff(no)) && CallInv(w.calls[no])
    ensures CallInv(Apply(w, HandOff(no)).calls[no])
  {
    var c := w.calls[no];
    assert c.handed == [] && c.handed + [c.won[0]] == [c.won[0]];
  }

  // The call a step moves, if it moves exactly one.
  function Subject(w: World, step: Step): Option<CallNo> {
    match step
    case Complete(id, _) => if id in w.st.deferred then Some(w.st.deferred[id]) else None
    case StopAll | DropState | SyncBegin | SyncTake(_) | SyncEnd => None
    case _ => Some(step.no)
  }

  lemma OthersUntouched(w: World, step: Step, no: CallNo)
    requires Enabled(w, step) && no in Apply(w, step).calls && !step.StopAll?
    requires Subject(w, step) != Some(no)
    ensures no in w.calls && Apply(w, step).calls[no] == w.calls[no]
  {
  }

  // Steps that neither touch the shared state nor try to resolve anything.
  predicate Local(step: Step) {
    step.CheckDelivered? || step.Rearm? || step.RunArm? || step.Expire? || step.RunCancel?
  }

  lemma LocalKeeps(w: World, step: Step)
    requires Inv(w) && Enabled(w, step) && Local(step)
    ensures var c, c' := w.calls[step.no], Apply(w, step).calls[step.no];
            && Apply(w, step) == Put(w, step.no, c') && CallInv(c')
            && c'.offered == c.offered && c'.issuer == c.issuer
            && (c'.deferId, c'.late, c'.filedLate, c'.leaving, c'.delivered) == (c.deferId, c.late, c.filedLate, c.leaving, c.delivered)
  {
    assert CallInv(w.calls[step.no]);
  }

  lemma DeliverKeeps(w: World, step: Step)
    requires Inv(w) && Enabled(w, step) && (step.LeaveRegistries? || step.Claim? || step.HandOff?)
    ensures step.no in Apply(w, step).calls && CallInv(Apply(w, step).calls[step.no])
  {
    match step
    case LeaveRegistries(k, o) => LeaveKeeps(w.calls[k], o);
    case Claim(k, o) => ClaimKeeps(w, k, o);
    case HandOff(k) => HandOffKeeps(w, k);
  }

  lemma FilingKeeps(w: World, step: Step)
    requires Inv(w) && Enabled(w, step) && (step.FileInflight? || step.FileDeferred?)
    ensures step.no in Apply(w, step).calls && CallInv(Apply(w, step).calls[step.no])
  {
    var c := w.calls[step.no];
    if step.FileInflight? {
      OfferKeeps(c, Released);
    } else {
      var id := c.reply.id;
      OfferKeeps(c, if id in w.st.completions then Answer(w.st.completions[id]) else Released);
    }
  }

  // The steps that issue a call, send it, or bring it an outcome.
  lemma ReachingKeeps(w: World, step: Step, no: CallNo)
    requires no in w.calls ==> CallInv(w.calls[no])
    requires Enabled(w, step) && Subject(w, step) == Some(no)
    requires step.Issue? || step.Send? || step.ReplyPlain? || step.ReplySentinel? || step.Complete? || step.Fire?
    ensures no in Apply(w, step).calls && CallInv(Apply(w, step).calls[no])
  {
    if !step.Issue? {
      OfferKeeps(w.calls[no], match step
        case ReplyPlain(_, o) => o
        case Complete(_, v) => Answer(v)
        case Fire(_) => Timeout
        case _ => Released);
    }
  }

  lemma SubjectKeeps(w: World, step: Step, no: CallNo)
    requires Inv(w) && Enabled(w, step) && Subject(w, step) == Some(no)
    ensures no in Apply(w, step).calls && CallInv(Apply(w, step).calls[no])
  {
    hide StateInv, Registered, CallInv, Apply, Enabled;
    if Local(step) {
      LocalKeeps(w, step);
    } else if step.LeaveRegistries? || step.Claim? || step.HandOff? {
      DeliverKeeps(w, step);
    } else if step.FileInflight? || step.FileDeferred? {
      FilingKeeps(w, step);
    } else {
      ReachingKeeps(w, step, no);
    }
  }

  lemma CallSteps(w: World, step: Step, no: CallNo)
    requires Inv(w) && Enabled(w, step) && no in Apply(w, step).calls
    ensures CallInv(Apply(w, step).calls[no])
  {
    if step.StopAll? {
      OfferKeeps(w.calls[no], Released);
    } else if Subject(w, step) == Some(no) {
      SubjectKeeps(w, step, no);
    } else {
      OthersUntouched(w, step, no);
    }
  }

  /** What the registries ask of a call is not undone: it is as late, as far on its way to
      being resolved, and not filed meanwhile. */
  ghost predicate SameStanding(c: Call, c': Call) {
    && c'.deferId == c.deferId && c'.late == c.late && c'.filedLate == c.filedLate
    && (c'.Resolving() <==> c.Resolving())
    && (c'.WasFiled() ==> c.WasFiled())
  }

  lemma StandingKeeps(w: World, w': World, no: CallNo)
    requires Registered(w) && no in w.calls && no in w'.calls && w'.calls == w.calls[no := w'.calls[no]]
    requires SameStanding(w.calls[no], w'.calls[no])
    requires w'.st.inflight == w.st.inflight && w'.st.stopping == w.st.stopping && w'.alive == w.alive
    requires forall id :: id in w'.st.deferred ==> id in w.st.deferred && w'.st.deferred[id] == w.st.deferred[id]
    ensures Registered(w')
  {
  }

  lemma LeavingKeepsRegistered(w: World, no: CallNo, o: Outcome)
    requires Inv(w) && Enabled(w, LeaveRegistries(no, o))
    ensures Registered(Apply(w, LeaveRegistries(no, o)))
  {
    assert o in w.calls[no].leaving + multiset{o};
    hide CallInv;
    LeaveFrame(w.st, no, w.calls[no].deferId);
    if w.alive {
      LeftKeepsRegistered(w, no, Apply(w, LeaveRegistries(no, o)));
    } else {
      assert w.st.inflight == {} && w.st.deferred == map[];
    }
  }

  lemma LeaveFrame(st: State, no: CallNo, deferId: Option<DeferId>)
    ensures var p := st.Leave(no, deferId);
            && p.inflight == st.inflight - {no} && p.stopping == st.stopping
            && p.deferred == if deferId.Some? then st.deferred - {deferId.value} else st.deferred
  {
  }

  // A call that left both registries has nothing filed.
  lemma LeftKeepsRegistered(w: World, no: CallNo, w': World)
    requires Registered(w) && no in w.calls && no in w'.calls && w'.calls == w.calls[no := w'.calls[no]]
    requires w'.calls[no].Resolving() && w'.alive == w.alive && w'.st.stopping == w.st.stopping
    requires w'.st.inflight == w.st.inflight - {no}
    requires w'.st.deferred == if w.calls[no].deferId.Some? then w.st.deferred - {w.calls[no].deferId.value} else w.st.deferred
    ensures Registered(w')
  {
  }

  lemma ClaimKeepsRegistered(w: World, no: CallNo, o: Outcome)
    requires Inv(w) && Enabled(w, Claim(no, o))
    ensures Registered(Apply(w, Claim(no, o)))
  {
    ClaimKeeps(w, no, o);
    hide Registered, StateInv, CallInv;
    StandingKeeps(w, Apply(w, Claim(no, o)), no);
  }

  lemma HandOffKeepsRegistered(w: World, no: CallNo)
    requires Inv(w) && Enabled(w, HandOff(no))
    ensures Registered(Apply(w, HandOff(no)))
  {
    hide Registered, StateInv, CallInv;
    StandingKeeps(w, Apply(w, HandOff(no)), no);
  }

  lemma FiledCallKeepsRegistered(w: World, no: CallNo)
    requires Inv(w) && Enabled(w, FileInflight(no))
    ensures Registered(Apply(w, FileInflight(no)))
  {
    hide StateInv, CallInv, Registered;
    if w.st.stopping {
      StandingKeeps(w, Apply(w, FileInflight(no)), no);
    } else {
      FilingKeepsRegistered(w, no);
    }
  }

  // Filing a call, late or not.
  lemma FilingKeepsRegistered(w: World, no: CallNo)
    requires Registered(w) && no in w.calls
    ensures var c := w.calls[no].(issuer := Filed, filedLate := w.calls[no].Resolving());
            Registered(Put(w, no, c).(st := w.st.(inflight := w.st.inflight + {no})))
  {
  }

  lemma UnfiledWhileFiling(c: Call)
    requires CallInv(c) && c.reply.Filing?
    ensures c.deferId.None?
  {
  }

  lemma EntryIsOthers(w: World, no: CallNo, id: DeferId)
    requires Registered(w) && no in w.calls && w.calls[no].deferId.None? && id in w.st.deferred
    ensures w.st.deferred[id] != no
  {
  }

  // Filing the sentinel's id, late or not.
  lemma FiledKeepsRegistered(w: World, no: CallNo, id: DeferId)
    requires Registered(w) && no in w.calls && w.calls[no].deferId.None?
    ensures var c := w.calls[no].(reply := Rearming, deferId := Some(id), late := w.calls[no].Resolving());
            Registered(Put(w, no, c).(st := w.st.(deferred := w.st.deferred[id := no])))
  {
  }

  lemma FiledSentinelKeepsRegistered(w: World, no: CallNo)
    requires Inv(w) && Enabled(w, FileDeferred(no))
    ensures Registered(Apply(w, FileDeferred(no)))
  {
    var id := w.calls[no].reply.id;
    UnfiledWhileFiling(w.calls[no]);
    hide Registered, StateInv, CallInv, Erase;
    if id in w.st.completions || w.st.stopping {
      StandingKeeps(w, FiledSentinel(w, no), no);
    } else {
      FiledKeepsRegistered(w, no, id);
    }
  }

  lemma ParkFrame(st: State, id: DeferId, v: Value)
    ensures var p := st.Park(id, v); p == st.(completions := p.completions, order := p.order)
  {
  }

  lemma OfferingKeepsRegistered(w: World, step: Step)
    requires Inv(w) && Enabled(w, step)
    requires step.Complete? || step.ReplyPlain? || step.ReplySentinel? || step.Fire?
    ensures Registered(Apply(w, step))
  {
    hide Registered, StateInv, CallInv, Evict;
    if step.Complete? {
      CompletingKeepsRegistered(w, step.id, step.v);
    } else {
      StandingKeeps(w, Apply(w, step), step.no);
    }
  }

  lemma CompletingKeepsRegistered(w: World, id: DeferId, v: Value)
    requires Registered(w) && Enabled(w, Complete(id, v))
    ensures Registered(Completed(w, id, v))
  {
    if w.alive && id in w.st.deferred {
      hide Registered;
      StandingKeeps(w, Completed(w, id, v), w.st.deferred[id]);
    } else if w.alive {
      ParkFrame(w.st, id, v);
      hide Evict;
    }
  }

  lemma StoppingKeepsRegistered(w: World)
    requires Registered(w)
    ensures Registered(Apply(w, StopAll))
  {
  }

  lemma LocalKeepsRegistered(w: World, step: Step)
    requires Inv(w) && Enabled(w, step) && Local(step)
    ensures Registered(Apply(w, step))
  {
    LocalKeeps(w, step);
    hide Registered, StateInv, CallInv, Enabled, Apply;
    StandingKeeps(w, Apply(w, step), step.no);
  }

  lemma TakeFrame(st: State, id: DeferId)
    ensures var p := st.Take(id); p == st.(completions := p.completions, order := p.order)
    ensures var p := st.DropIfIdle(); p == st.(completions := p.completions, order := p.order)
  {
  }

  // Steps of synchronous callers and of the handle: no call moves, no registry changes.
  lemma SharedKeepsRegistered(w: World, step: Step)
    requires Registered(w) && Enabled(w, step)
    requires step.DropState? || step.SyncBegin? || step.SyncTake? || step.SyncEnd?
    ensures Registered(Apply(w, step))
  {
    if step.SyncTake? { TakeFrame(w.st, step.id); }
    if step.SyncEnd? { TakeFrame(w.st.(syncOutstanding := w.st.syncOutstanding - 1), ""); }
    hide Enabled, Erase;
    var w' := Apply(w, step);
    assert w'.calls == w.calls && w'.st.inflight == w.st.inflight && w'.st.deferred == w.st.deferred && w'.st.stopping == w.st.stopping;
  }

  lemma SendKeepsRegistered(w: World, no: CallNo)
    requires Registered(w) && Enabled(w, Send(no))
    ensures Registered(Apply(w, Send(no)))
  {
    hide Registered;
    StandingKeeps(w, Apply(w, Send(no)), no);
  }

  lemma IssueKeepsRegistered(w: World, no: CallNo)
    requires Registered(w) && Enabled(w, Issue(no))
    ensures Registered(Apply(w, Issue(no)))
  {
  }

  lemma RegistrySteps(w: World, step: Step)
    requires Inv(w) && Enabled(w, step)
    ensures Registered(Apply(w, step))
  {
    hide Registered, StateInv, CallInv, Enabled, Apply;
    if Local(step) {
      LocalKeepsRegistered(w, step);
    } else {
      match step
      case LeaveRegistries(k, o) => LeavingKeepsRegistered(w, k, o);
      case Claim(k, o) => ClaimKeepsRegistered(w, k, o);
      case HandOff(k) => HandOffKeepsRegistered(w, k);
      case FileInflight(k) => FiledCallKeepsRegistered(w, k);
      case FileDeferred(k) => FiledSentinelKeepsRegistered(w, k);
      case StopAll => StoppingKeepsRegistered(w);
      case Complete(_, _) | ReplyPlain(_, _) | ReplySentinel(_, _) | Fire(_) => OfferingKeepsRegistered(w, step);
      case Issue(k) => IssueKeepsRegistered(w, k);
      case Send(k) => SendKeepsRegistered(w, k);
      case _ => SharedKeepsRegistered(w, step);
    }
  }

  lemma StepKeepsInv(w: World, step: Step)
    requires Inv(w) && Enabled(w, step)
    ensures Inv(Apply(w, step))
  {
    StateSteps(w, step);
    RegistrySteps(w, step);
    forall no | no in Apply(w, step).calls ensures CallInv(Apply(w, step).calls[no]) { CallSteps(w, step, no); }
  }
}
