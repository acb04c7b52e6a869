/** Runs of the deferred-subscription registry: everything its users and the event loop
    can do to it, in any order, and what holds in every state they reach.  Losing a
    provider, reconnecting and a tick are single steps here, each a whole sweep over the
    objects; the timer is followed through all of them. */
module DeferredTheorems {
  import opened DeferredSubscriptions
  import opened DeferredSafety
  import opened DeferredRuns
  import opened Wrappers

  datatype Step =
    | Ask(q: Request)
    | Validity(h: Handle, isValid: bool)
    | Acquired(name: Name, offer: Offer, scripts: seq<Script>, watcher: Script)
    | Reconnect(notices: seq<Notice>, hunts: seq<Hunt>)
    | TimerFires(losses: seq<Loss>, hunts: seq<Hunt>, age: map<Id, nat>)

  function NoticeNames(s: seq<Notice>): set<Name> { set x | x in s :: x.name }
  function HuntNames(s: seq<Hunt>): set<Name> { set x | x in s :: x.name }
  function LossNames(s: seq<Loss>): set<Name> { set x | x in s :: x.name }

  // Each object once, in whatever order the set yields them.
  ghost predicate Enabled(r: Registry, st: Step) {
    match st
    case Ask(_) => true
    case Validity(h, _) => h in r.home
    case Acquired(n, o, _, _) => n in r.asked && !o.SameHandle?
    case Reconnect(notices, hunts) =>
      && NoticeNames(notices) == Names(OfPolicy(r, r.armed, true)) && |notices| == |NoticeNames(notices)|
      && HuntNames(hunts) == Names(OfPolicy(r, r.armed, false)) && |hunts| == |HuntNames(hunts)|
    case TimerFires(losses, hunts, _) =>
      && r.timerOn
      && LossNames(losses) == Dead(r) && |losses| == |LossNames(losses)|
      && HuntNames(hunts) == Wanted(CheckLiveness(r, losses)) && |hunts| == |HuntNames(hunts)|
  }

  function Apply(r: Registry, st: Step): Registry {
    match st
    case Ask(q) => Perform(r, q)
    case Validity(h, ok) => r.(valid := if ok then r.valid + {h} else r.valid - {h})
    case Acquired(n, o, scripts, watcher) => AcquireDone(r, n, o, scripts, watcher)
    case Reconnect(notices, hunts) => Reconnected(r, notices, hunts)
    case TimerFires(losses, hunts, age) => Tick(r, losses, hunts, age)
  }

  function Initial(canDefer: bool): Registry {
    Registry([], [], [], {}, multiset{}, map[], map[], false, 250, 1, canDefer, {}, 0, map[], multiset{}, map[], map[], [],
      map[], map[], map[], {}, multiset{}, {})
  }

  ghost predicate Run(r: Registry, steps: seq<Step>)
    decreases |steps|
  {
    steps == [] || (Enabled(r, steps[0]) && Run(Apply(r, steps[0]), steps[1..]))
  }

  function End(r: Registry, steps: seq<Step>): Registry
    decreases |steps|
  {
    if steps == [] then r else End(Apply(r, steps[0]), steps[1..])
  }

  // ----------------------------------------------- what the event loop's steps keep

  lemma {:induction false} AbandonAllAfter(r: Registry, matched: seq<Entry>, scripts: seq<Script>)
    requires Mid(r, matched) && forall e :: e in matched ==> e.id !in r.inHand
    ensures After(r, AbandonAll(r, matched, scripts), [], map[])
    decreases |matched|
  {
    if matched != [] {
      var e, more := matched[0], matched[1..];
      var r1 := Depart(Tell(r, e.id, false), e.id, Abandoned);
      assert matched == [e] + more;
      AbandonedAfter(r, e, more);
      hide Mid, SameAnswers, Grows;
      var r2 := if scripts != [] then RunScript(r1, scripts[0].requests) else r1;
      if scripts != [] {
        ScriptAfter(r1, scripts[0].requests, more, map[]);
        Onward(r, r1, r2, more, more, map[]);
      }
      NoneInHand(r, r2, more);
      AbandonAllAfter(r2, more, Rest(scripts, 1));
      Onward(r, r2, AbandonAll(r2, more, Rest(scripts, 1)), more, [], map[]);
    }
  }

  lemma NoneInHand(r: Registry, r': Registry, more: seq<Entry>)
    requires SameAnswers(r, r', more) && forall e :: e in more ==> e.id !in r.inHand
    ensures forall e :: e in more ==> e.id !in r'.inHand
  {
  }

  lemma AbandonedAfter(r: Registry, e: Entry, limbo: seq<Entry>)
    requires Mid(r, [e] + limbo) && e.id !in r.inHand
    ensures After(r, Depart(Tell(r, e.id, false), e.id, Abandoned), limbo, map[])
  {
    hide Conserved, ArmedOk, HeldOk, ToldOk, AnswersOk, InHandOk, HandlesOk;
    LimboApart(r, e, limbo);
    assert e.id !in r.gone by { LimboIsApart(r, [e] + limbo, e); }
    AbandonedKeeps(r, e, limbo);
    HandlesFrame(r, Depart(Tell(r, e.id, false), e.id, Abandoned), None);
  }

  lemma NotifyAfter(r0: Registry, r: Registry, n: Name, kind: EdgeKind, watcher: Script)
    requires After(r0, r, [], map[])
    ensures After(r0, Notify(r, n, kind, watcher), [], map[])
  {
    hide Mid, SameAnswers, Grows;
    ReportAfter(r, n, kind, [], map[]);
    ScriptAfter(Report(r, n, kind), watcher.requests, [], map[]);
    Onward(r, Report(r, n, kind), Notify(r, n, kind, watcher), [], [], map[]);
    Onward(r0, r, Notify(r, n, kind, watcher), [], [], map[]);
  }

  lemma AbandonAfter(r: Registry, n: Name, scripts: seq<Script>, watcher: Script)
    requires Mid(r, [])
    ensures After(r, Abandon(r, n, scripts, watcher), [], map[])
  {
    hide EntriesOk, HandlesOk, SameAnswers, Grows, Pinned, TakeMatching;
    var matched := Named(r.entries, n);
    TakeKeeps(r, n, []);
    assert matched + [] == matched;
    TakeFrame(r, n);
    var r1 := TakeMatching(r, n);
    TakenAfter(r, r1, matched);
    AbandonAllAfter(r1, matched, scripts);
    var r2 := AbandonAll(r1, matched, scripts);
    Onward(r, r1, r2, matched, [], map[]);
    if matched != [] { NotifyAfter(r, r2, n, AbandonedEdge, watcher); }
  }

  lemma TakenAfter(r: Registry, r1: Registry, matched: seq<Entry>)
    requires Mid(r, []) && EntriesOk(r1, matched) && r1 == r.(entries := r1.entries, timerOn := r1.timerOn)
    ensures After(r, r1, matched, map[])
  {
    hide EntriesOk, HandlesOk;
    Unfelt(r, r1, [], matched, map[]);
  }

  // One acquire fewer the transport may answer.
  lemma TakenOffAfter(r: Registry, n: Name, limbo: seq<Entry>, pins: map<Name, Handle>)
    requires Mid(r, limbo) && Pinned(r, pins)
    ensures After(r, Answered(r, n), limbo, pins)
  {
    hide EntriesOk, HandlesOk, Pinned, After;
    FrameAfter(r, Answered(r, n), limbo, pins);
  }

  lemma AcquireDoneAfter(r: Registry, n: Name, o: Offer, scripts: seq<Script>, watcher: Script)
    requires Mid(r, [])
    ensures After(r, AcquireDone(r, n, o, scripts, watcher), [], map[])
  {
    hide EntriesOk, HandlesOk, Holding, Receive;
    var r0 := Answered(r, n);
    TakenOffAfter(r, n, [], map[]);
    ReceiveKeeps(r0, n, o, [], map[]);
    hide SameAnswers, Grows, Mid, Pinned;
    var (r1, h) := Receive(r0, n, o);
    if h.Some? {
      ArmAfter(r1, n, h.value, scripts, [], map[]);
      Inherit(r0, r1, ArmAgainst(r1, n, h.value, scripts), [], map[]);
    } else {
      AbandonAfter(r0, n, scripts, watcher);
    }
    Onward(r, r0, AcquireDone(r, n, o, scripts, watcher), [], [], map[]);
  }

  lemma {:induction false} HuntAfter(r: Registry, hunts: seq<Hunt>)
    requires Mid(r, [])
    ensures After(r, HuntAll(r, hunts), [], map[])
    decreases |hunts|
  {
    if hunts != [] {
      hide Mid, SameAnswers, Grows, BeginAcquire;
      AcquireAfter(r, hunts[0].name, hunts[0].answer, hunts[0].scripts, [], map[]);
      var r1 := BeginAcquire(r, hunts[0].name, hunts[0].answer, hunts[0].scripts).0;
      HuntAfter(r1, hunts[1..]);
      Onward(r, r1, HuntAll(r, hunts), [], [], map[]);
    }
  }

  lemma {:induction false} NotifyHeldAfter(r0: Registry, r: Registry, notices: seq<Notice>)
    requires After(r0, r, [], map[])
    ensures After(r0, NotifyHeld(r, notices), [], map[])
    decreases |notices|
  {
    if notices != [] {
      hide After, Notify;
      NotifyAfter(r0, r, notices[0].name, HeldEdge, notices[0].watcher);
      NotifyHeldAfter(r0, Notify(r, notices[0].name, HeldEdge, notices[0].watcher), notices[1..]);
    }
  }

  lemma TimedAfter(r0: Registry, r: Registry)
    requires After(r0, r, [], map[])
    ensures After(r0, EnsureTimer(r), [], map[]) && After(r0, RescheduleOrStop(r), [], map[])
  {
    hide Mid, SameAnswers, Grows;
    TimerAfter(r, [], map[]);
    Onward(r0, r, EnsureTimer(r), [], [], map[]);
    Onward(r0, r, RescheduleOrStop(r), [], [], map[]);
  }

  lemma ReconnectedAfter(r: Registry, notices: seq<Notice>, hunts: seq<Hunt>)
    requires Mid(r, [])
    ensures After(r, Reconnected(r, notices, hunts), [], map[])
  {
    hide EntriesOk, HandlesOk;
    DetachedKeeps(r);
    DetachedHandles(r);
    hide Mid, NotifyHeld, HuntAll, EnsureTimer;
    NotifyHeldAfter(r, Detached(r), notices);
    hide SameAnswers, Grows, Detached;
    var r1 := NotifyHeld(Detached(r), notices);
    HuntAfter(r1, hunts);
    Onward(r, r1, HuntAll(r1, hunts), [], [], map[]);
    TimedAfter(r, HuntAll(r1, hunts));
  }

  // Forgetting the handle and moving its entries commute.
  lemma DroppedIsMovedThenForgotten(r: Registry, n: Name, moved: Registry)
    requires moved == if IsManual(r, n) then HoldArmed(r, n) else ReviveArmed(r, n)
    ensures var d, f := Dropped(r, n), Forget(moved, n, Lost);
            && d.entries == f.entries && d.armed == f.armed && d.held == f.held && d.handles == f.handles
            && d.nextId == f.nextId && d.gone == f.gone && d.told == f.told && d.ended == f.ended && d.armedOn == f.armedOn && d.targets == f.targets
            && d.inHand == f.inHand && d.undercut == f.undercut
            && d.home == f.home && d.released == f.released && d.nextHandle == f.nextHandle
            && d.acquiring <= r.acquiring && d.asked == r.asked
  {
    hide Named, NotNamed, Revived;
    if n in r.handles {
    }
  }

  lemma MovedKeeps(r: Registry, n: Name, manual: bool)
    requires Mid(r, [])
    ensures var moved := if manual then HoldArmed(r, n) else ReviveArmed(r, n);
            Mid(moved, []) && moved.told == r.told && Grows(r, moved) && forall e :: e in moved.armed ==> e.name != n
  {
    hide EntriesOk, HandlesOk, Named, NotNamed, Revived;
    if manual { HoldKeeps(r, n, []); } else { ReviveKeeps(r, n, []); }
    HandlesFrame(r, if manual then HoldArmed(r, n) else ReviveArmed(r, n), None);
  }

  lemma ForgottenKeeps(r: Registry, n: Name)
    requires Mid(r, []) && forall e :: e in r.armed ==> e.name != n
    ensures Mid(Forget(r, n, Lost), []) && Forget(r, n, Lost).told == r.told && Grows(r, Forget(r, n, Lost))
  {
    hide EntriesOk, HandlesOk;
    ForgetKeeps(r, n, Lost, []);
    ForgetHandles(r, n, Lost, None);
  }

  lemma DroppedAfter(r: Registry, n: Name)
    requires Mid(r, [])
    ensures After(r, Dropped(r, n), [], map[])
  {
    hide EntriesOk, HandlesOk, Dropped, Forget, HoldArmed, ReviveArmed;
    var moved := if IsManual(r, n) then HoldArmed(r, n) else ReviveArmed(r, n);
    MovedKeeps(r, n, IsManual(r, n));
    ForgottenKeeps(moved, n);
    DroppedIsMovedThenForgotten(r, n, moved);
    FrameKeeps(Forget(moved, n, Lost), Dropped(r, n), []);
    HandlesFrame(Forget(moved, n, Lost), Dropped(r, n), None);
  }

  lemma LoseAfter(r: Registry, l: Loss)
    requires Mid(r, [])
    ensures After(r, Lose(r, l), [], map[])
  {
    hide Mid, SameAnswers, Grows, Dropped, Notify, BeginAcquire;
    DroppedAfter(r, l.name);
    var r1 := Dropped(r, l.name);
    var kind := if IsManual(r, l.name) then HeldEdge else LostEdge;
    NotifyAfter(r, r1, l.name, kind, l.watcher);
    var r2 := if Named(r.armed, l.name) == [] then r1 else Notify(r1, l.name, kind, l.watcher);
    if Named(r2.entries, l.name) != [] {
      AcquireAfter(r2, l.name, l.answer, l.scripts, [], map[]);
      Onward(r, r2, BeginAcquire(r2, l.name, l.answer, l.scripts).0, [], [], map[]);
    }
  }

  lemma {:induction false} LoseAllAfter(r: Registry, losses: seq<Loss>)
    requires Mid(r, [])
    ensures After(r, LoseAll(r, losses), [], map[])
    decreases |losses|
  {
    if losses != [] {
      hide Mid, SameAnswers, Grows, Lose;
      LoseAfter(r, losses[0]);
      LoseAllAfter(Lose(r, losses[0]), losses[1..]);
      Onward(r, Lose(r, losses[0]), LoseAll(r, losses), [], [], map[]);
    }
  }

  lemma CheckAfter(r: Registry, losses: seq<Loss>)
    requires Mid(r, [])
    ensures After(r, CheckLiveness(r, losses), [], map[])
  {
    SelfAfter(r, [], map[]);
    LoseAllAfter(r, losses);
    TimedAfter(r, LoseAll(r, losses));
    hide After, LoseAll, Dead, EnsureTimer;
  }

  lemma TickAfter(r: Registry, losses: seq<Loss>, hunts: seq<Hunt>, age: map<Id, nat>)
    requires Mid(r, [])
    ensures After(r, Tick(r, losses, hunts, age), [], map[])
  {
    var r0 := CheckLiveness(r, losses);
    var r1 := HuntAll(r0, hunts);
    var r2 := r1.(entries := Warned(r1.entries, age));
    assert Tick(r, losses, hunts, age) == RescheduleOrStop(r2);
    CheckAfter(r, losses);
    hide CheckLiveness, HuntAll, Warned, RescheduleOrStop, Mid, SameAnswers, Grows, Tick;
    HuntAfter(r0, hunts);
    Onward(r, r0, r1, [], [], map[]);
    WarnedAfter(r, r1, age);
    TimedAfter(r, r2);
  }

  lemma WarnedAfter(r0: Registry, r: Registry, age: map<Id, nat>)
    requires After(r0, r, [], map[])
    ensures After(r0, r.(entries := Warned(r.entries, age)), [], map[])
  {
    hide EntriesOk, HandlesOk;
    WarnedKeeps(r, age);
    HandlesFrame(r, r.(entries := Warned(r.entries, age)), None);
  }

  lemma StepAfter(r: Registry, st: Step)
    requires Mid(r, [])
    ensures Mid(Apply(r, st), []) && Grows(r, Apply(r, st))
  {
    hide EntriesOk, HandlesOk, Perform, AcquireDone, Reconnected, Tick;
    match st
    case Ask(q) => PerformAfter(r, q, [], map[]);
    case Validity(h, ok) =>
      FrameKeeps(r, Apply(r, st), []);
      HandlesFrame(r, Apply(r, st), None);
    case Acquired(n, o, scripts, watcher) => AcquireDoneAfter(r, n, o, scripts, watcher);
    case Reconnect(notices, hunts) => ReconnectedAfter(r, notices, hunts);
    case TimerFires(losses, hunts, age) => TickAfter(r, losses, hunts, age);
  }

  // ------------------------------------------------------------------ the timer

  ghost predicate Ticking(r: Registry) {
    TimerNeeded(r) ==> r.timerOn
  }

  /** No dead-and-silent subscription: whatever is pending or armed is watched, unless
      nothing is armed and every pending entry has its acquire in flight and has said
      all it is going to say. */
  ghost predicate Watched(r: Registry) {
    Ticking(r) || (r.armed == [] && forall e :: e in r.entries ==> Quiet(r, e))
  }

  lemma ArmTicks(r: Registry, n: Name, obj: Handle, scripts: seq<Script>)
    ensures Ticking(ArmAgainst(r, n, obj, scripts))
  {
    hide Adopt, TakeForArming, AttachAll, Announce, AnyReal, Named;
  }

  lemma AcquireTicks(r: Registry, n: Name, a: Answer, scripts: seq<Script>)
    ensures BeginAcquire(r, n, a, scripts).1 ==> Ticking(BeginAcquire(r, n, a, scripts).0)
    ensures Ticking(r) ==> Ticking(BeginAcquire(r, n, a, scripts).0)
  {
    hide ArmAgainst;
    var first := Receive(r, n, if r.canDefer && n !in r.acquiring then a.now else NoHandle);
    if first.1.Some? {
      ArmTicks(first.0, n, first.1.value, scripts);
    } else if !r.canDefer {
      var second := Receive(r, n, a.lookup);
      if second.1.Some? { ArmTicks(second.0, n, second.1.value, scripts); }
    }
  }

  lemma PerformTicks(r: Registry, q: Request)
    ensures Ticking(r) ==> Ticking(Perform(r, q))
    ensures Watched(r) ==> Watched(Perform(r, q))
  {
    hide Ticking, Watched, Add, Cancel, Rearm, SetPolicy;
    match q
    case AddRequest(n, event, ready, a, scripts) => AddTicks(r, n, event, ready, a, scripts);
    case CancelRequest(id) => CancelTicks(r, id);
    case RearmRequest(n, a, scripts) => RearmTicks(r, n, a, scripts);
    case PolicyRequest(n, p) => PolicyTicks(r, n, p);
  }

  lemma RearmTicks(r: Registry, n: Name, a: Answer, scripts: seq<Script>)
    ensures Ticking(r) ==> Ticking(Rearm(r, n, a, scripts))
    ensures Watched(r) ==> Watched(Rearm(r, n, a, scripts))
  {
    hide Chase, Quiet, Unhold;
  }

  lemma PolicyTicks(r: Registry, n: Name, p: Policy)
    ensures Ticking(r) ==> Ticking(SetPolicy(r, n, p))
    ensures Watched(r) ==> Watched(SetPolicy(r, n, p))
  {
  }

  lemma AddTicks(r: Registry, n: Name, event: string, ready: bool, a: Answer, scripts: seq<Script>)
    ensures Ticking(Add(r, n, event, ready, a, scripts)) && Watched(Add(r, n, event, ready, a, scripts))
  {
    hide ArmAgainst, BeginAcquire;
    var r1 := NewEntry(r, n, event, ready);
    if LiveHandle(r1, n).Some? {
      ArmTicks(r1, n, LiveHandle(r1, n).value, scripts);
    } else {
      AcquireTicks(r1, n, a, scripts);
    }
  }

  // What cancelling leaves: no more to watch, and a timer stopped only when nothing is.
  ghost predicate LessToWatch(r: Registry, r': Registry) {
    && r'.acquiring == r.acquiring && (r'.timerOn == r.timerOn || !TimerNeeded(r'))
    && (r'.armed == [] || r.armed != []) && (forall e :: e in r'.entries ==> e in r.entries)
  }

  lemma DropPendingTimer(r: Registry, id: Id)
    ensures LessToWatch(r, DropPending(r, id))
  {
    WithoutMembers(r.entries, id);
    hide Without;
  }

  lemma DropArmedTimer(r: Registry, id: Id)
    ensures LessToWatch(r, DropArmed(r, id))
  {
    WithoutMembers(r.armed, id);
    hide Without;
  }

  lemma DropHeldTimer(r: Registry, id: Id)
    ensures LessToWatch(r, DropHeld(r, id)) && LessToWatch(r, r)
  {
    hide Without;
  }

  lemma CancelTimer(r: Registry, id: Id)
    ensures LessToWatch(r, Cancel(r, id))
  {
    DropPendingTimer(r, id);
    DropArmedTimer(r, id);
    DropHeldTimer(r, id);
    hide Has, DropPending, DropArmed, DropHeld, LessToWatch;
  }

  lemma CancelTicks(r: Registry, id: Id)
    ensures Ticking(r) ==> Ticking(Cancel(r, id))
    ensures Watched(r) ==> Watched(Cancel(r, id))
  {
    hide Cancel;
    CancelTimer(r, id);
    var r' := Cancel(r, id);
    assert r'.entries != [] ==> r'.entries[0] in r.entries;
  }

  lemma {:induction false} ScriptTicks(r: Registry, requests: seq<Request>)
    ensures Ticking(r) ==> Ticking(RunScript(r, requests))
    ensures Watched(r) ==> Watched(RunScript(r, requests))
    decreases |requests|
  {
    if requests != [] {
      hide Ticking, Watched, Perform;
      PerformTicks(r, requests[0]);
      ScriptTicks(Perform(r, requests[0]), requests[1..]);
    }
  }

  lemma NotifyTicks(r: Registry, n: Name, kind: EdgeKind, watcher: Script)
    ensures Ticking(r) ==> Ticking(Notify(r, n, kind, watcher))
    ensures Watched(r) ==> Watched(Notify(r, n, kind, watcher))
  {
    hide RunScript;
    ScriptTicks(Report(r, n, kind), watcher.requests);
  }

  lemma {:induction false} AbandonAllTicks(r: Registry, matched: seq<Entry>, scripts: seq<Script>)
    requires Watched(r)
    ensures Watched(AbandonAll(r, matched, scripts))
    decreases |matched|
  {
    if matched != [] {
      hide RunScript;
      var r1 := Depart(Tell(r, matched[0].id, false), matched[0].id, Abandoned);
      assert Watched(r1);
      if scripts != [] {
        ScriptTicks(r1, scripts[0].requests);
        AbandonAllTicks(RunScript(r1, scripts[0].requests), matched[1..], Rest(scripts, 1));
      } else {
        AbandonAllTicks(r1, matched[1..], Rest(scripts, 1));
      }
    }
  }

  lemma DoneTicks(r: Registry, n: Name, o: Offer, scripts: seq<Script>, watcher: Script)
    requires Watched(r) && !o.SameHandle?
    ensures Watched(AcquireDone(r, n, o, scripts, watcher))
  {
    var r0 := Answered(r, n);
    var (r1, h) := Receive(r0, n, o);
    if h.Some? {
      hide ArmAgainst;
      ArmTicks(r1, n, h.value, scripts);
    } else {
      var taken, matched := TakeMatching(r0, n), Named(r0.entries, n);
      MembersByName(r.entries, n);
      hide AbandonAll, Notify, Named, NotNamed;
      assert Watched(taken);
      AbandonAllTicks(taken, matched, scripts);
      NotifyTicks(AbandonAll(taken, matched, scripts), n, AbandonedEdge, watcher);
    }
  }

  lemma {:induction false} HuntTicks(r: Registry, hunts: seq<Hunt>)
    requires Ticking(r)
    ensures Ticking(HuntAll(r, hunts))
    decreases |hunts|
  {
    if hunts != [] {
      hide BeginAcquire, Ticking;
      AcquireTicks(r, hunts[0].name, hunts[0].answer, hunts[0].scripts);
      HuntTicks(BeginAcquire(r, hunts[0].name, hunts[0].answer, hunts[0].scripts).0, hunts[1..]);
    }
  }

  lemma TickTicks(r: Registry, losses: seq<Loss>, hunts: seq<Hunt>, age: map<Id, nat>)
    requires r.timerOn
    ensures Watched(Tick(r, losses, hunts, age))
  {
    var r0 := CheckLiveness(r, losses);
    assert Ticking(r0) by { hide LoseAll, Dead; }
    hide CheckLiveness, HuntAll, Warned;
    HuntTicks(r0, hunts);
    var r1 := HuntAll(r0, hunts);
    WarnedSame(r1.entries, age);
    RescheduleWatches(r1.(entries := Warned(r1.entries, age)));
  }

  lemma RescheduleWatches(r: Registry)
    requires Ticking(r)
    ensures Watched(RescheduleOrStop(r))
  {
  }

  lemma StepTicks(r: Registry, st: Step)
    requires Watched(r) && Enabled(r, st)
    ensures Watched(Apply(r, st))
  {
    hide Perform, AcquireDone, Tick, OfPolicy, NotifyHeld, HuntAll, Detached, CheckLiveness;
    match st
    case Ask(q) => PerformTicks(r, q);
    case Validity(h, ok) =>
    case Acquired(n, o, scripts, watcher) => DoneTicks(r, n, o, scripts, watcher);
    case Reconnect(notices, hunts) =>
    case TimerFires(losses, hunts, age) => TickTicks(r, losses, hunts, age);
  }
}
