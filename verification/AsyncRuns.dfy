/** Asynchronous calls over whole runs: handed off once, resolved without the peer, filed
    exactly while outstanding, and answered by the completion that belongs to them. */
module AsyncRuns {
  import opened AsyncCalls
  import opened AsyncOffers
  import opened Wrappers

  // ---------------------------------------------------------------- what is registered

  /** Teardown leaves nothing registered, and nothing registers after it. */
  lemma StoppedMeansUnregistered(ws: seq<World>, steps: seq<Step>)
    requires IsPath(ws, steps) && ws[0] == INITIAL
    ensures Parked(ws[|steps|].st)
    ensures ws[|steps|].st.stopping ==> ws[|steps|].st.inflight == {} && ws[|steps|].st.deferred == map[]
  {
    InitialInv();
    PathKeepsInv(ws, steps, |steps|);
  }

  /** An entry under a provider's id belongs to a call still outstanding if and only if it
      was not filed late: filed late, its call is being resolved or has been. */
  lemma DeferredEntryIsOutstanding(ws: seq<World>, steps: seq<Step>, id: DeferId)
    requires IsPath(ws, steps) && ws[0] == INITIAL && id in ws[|steps|].st.deferred
    ensures var no := ws[|steps|].st.deferred[id];
            && no in ws[|steps|].calls
            && (var c := ws[|steps|].calls[no];
                && (c.late <==> c.delivered || c.leaving != multiset{})
                && (c.leaving == multiset{} ==> (c.late <==> c.delivered))
                && (!c.late ==> c.handed == [] && Resolvable(c)))
  {
    InitialInv();
    PathKeepsInv(ws, steps, |steps|);
    var w := ws[|steps|];
    assert CallInv(w.calls[w.st.deferred[id]]);
  }

  /** The same of the calls in flight: an entry's call is unresolved if and only if it was
      not filed after a thread resolving it had passed. */
  lemma InflightEntryIsOutstanding(ws: seq<World>, steps: seq<Step>, no: CallNo)
    requires IsPath(ws, steps) && ws[0] == INITIAL && no in ws[|steps|].st.inflight
    ensures no in ws[|steps|].calls
    ensures var c := ws[|steps|].calls[no];
            && (c.filedLate <==> c.delivered || c.leaving != multiset{})
            && (c.leaving == multiset{} ==> (c.filedLate <==> c.delivered))
            && (!c.filedLate ==> c.handed == [] && Resolvable(c))
  {
    InitialInv();
    PathKeepsInv(ws, steps, |steps|);
    assert CallInv(ws[|steps|].calls[no]);
  }

  /** And before teardown a filed call is in flight exactly while no thread has passed the
      registries to resolve it, nor has it been resolved, unless it was filed late. */
  lemma InflightExactlyWhileOutstanding(ws: seq<World>, steps: seq<Step>, no: CallNo)
    requires IsPath(ws, steps) && ws[0] == INITIAL && no in ws[|steps|].calls
    requires var c := ws[|steps|].calls[no]; (c.issuer.Filed? || c.issuer.Sent?) && !c.filedLate && !ws[|steps|].st.stopping
    ensures var c := ws[|steps|].calls[no]; no in ws[|steps|].st.inflight <==> !c.delivered && c.leaving == multiset{}
  {
    InitialInv();
    PathKeepsInv(ws, steps, |steps|);
  }

  lemma Extend(ws: seq<World>, steps: seq<Step>, step: Step) returns (ws': seq<World>, steps': seq<Step>)
    requires IsPath(ws, steps) && Enabled(ws[|steps|], step)
    ensures IsPath(ws', steps') && ws'[0] == ws[0]
    ensures ws'[|steps'|] == Apply(ws[|steps|], step)
  {
    ws', steps' := ws + [Apply(ws[|steps|], step)], steps + [step];
  }

  lemma SentinelIsBeingFiled() returns (ws: seq<World>, steps: seq<Step>)
    ensures IsPath(ws, steps) && ws[0] == INITIAL
    ensures ws[|steps|] == World(FRESH.(inflight := {1}),
              map[1 := ISSUED.(issuer := Sent, reply := Filing("x"))], true)
  {
    ws, steps := Extend([INITIAL], [], Issue(1));
    ws, steps := Extend(ws, steps, FileInflight(1));
    ws, steps := Extend(ws, steps, Send(1));
    ws, steps := Extend(ws, steps, ReplySentinel(1, "x"));
    ws, steps := Extend(ws, steps, CheckDelivered(1));
  }

  lemma DeadlineFires() returns (ws: seq<World>, steps: seq<Step>)
    ensures IsPath(ws, steps) && ws[0] == INITIAL
    ensures ws[|steps|] == World(FRESH.(inflight := {1}),
              map[1 := ISSUED.(issuer := Sent, reply := Filing("x"), arms := 0,
                               entering := multiset{Timeout}, offered := {Timeout})], true)
  {
    ws, steps := SentinelIsBeingFiled();
    ws, steps := Extend(ws, steps, RunArm(1));
    ws, steps := Extend(ws, steps, Expire(1));
    ws, steps := Extend(ws, steps, Fire(1));
    var c := ws[|steps|].calls[1];
    assert c.entering == multiset{Timeout} && c.offered == {Timeout};
    assert ws[|steps|].calls.Keys == {1};
  }

  lemma DeadlineWinsMeanwhile() returns (ws: seq<World>, steps: seq<Step>)
    ensures IsPath(ws, steps) && ws[0] == INITIAL
    ensures ws[|steps|] == World(FRESH,
              map[1 := ISSUED.(issuer := Sent, reply := Filing("x"), arms := 0,
                               delivered := true, won := [Timeout], offered := {Timeout})], true)
  {
    ws, steps := DeadlineFires();
    ws, steps := Extend(ws, steps, LeaveRegistries(1, Timeout));
    ws, steps := Extend(ws, steps, Claim(1, Timeout));
    var w := ws[|steps|];
    assert w.st.inflight == {} && w.calls[1].leaving == multiset{} && w.calls[1].entering == multiset{};
    assert w.calls[1].won == [Timeout] && w.calls[1].offered == {Timeout};
    assert w.calls.Keys == {1};
  }

  /** The header says an entry is erased by the one delivery its call gets.  That fails
      when the sentinel is filed while the deadline is resolving the call and the timer's
      cancel runs after its re-arm: the entry is left with nothing that would erase it
      short of a completion event or teardown. */
  lemma LateFilingCanOutliveItsCall() returns (ws: seq<World>, steps: seq<Step>)
    ensures IsPath(ws, steps) && ws[0] == INITIAL
    ensures var w := ws[|steps|];
            && "x" in w.st.deferred && w.st.deferred["x"] == 1 && 1 in w.calls && !w.st.stopping
            && w.calls[1].late && w.calls[1].handed == [Timeout] && !Resolvable(w.calls[1])
            && w.calls[1].reply.Replied? && w.calls[1].cancels == 0
  {
    ws, steps := DeadlineWinsMeanwhile();
    ws, steps := Extend(ws, steps, FileDeferred(1));
    ws, steps := Extend(ws, steps, HandOff(1));
    ws, steps := Extend(ws, steps, Rearm(1));
    ws, steps := Extend(ws, steps, RunArm(1));
    ws, steps := Extend(ws, steps, RunCancel(1));
  }

  /** Nor is a call in flight only until its one delivery: the deadline is armed before the
      call is filed, and when it has run its course first the call is filed for good. */
  lemma InflightFilingCanOutliveItsCall() returns (ws: seq<World>, steps: seq<Step>)
    ensures IsPath(ws, steps) && ws[0] == INITIAL
    ensures var w := ws[|steps|];
            && 1 in w.st.inflight && 1 in w.calls && !w.st.stopping
            && w.calls[1].filedLate && w.calls[1].handed == [Timeout] && !Resolvable(w.calls[1])
  {
    ws, steps := TimedOutUnfiled();
    ws, steps := Extend(ws, steps, LeaveRegistries(1, Timeout));
    ws, steps := Extend(ws, steps, Claim(1, Timeout));
    ws, steps := Extend(ws, steps, HandOff(1));
    ws, steps := Extend(ws, steps, FileInflight(1));
  }

  lemma TimedOutUnfiled() returns (ws: seq<World>, steps: seq<Step>)
    ensures IsPath(ws, steps) && ws[0] == INITIAL
    ensures ws[|steps|] == World(FRESH, map[1 := ISSUED.(arms := 0, entering := multiset{Timeout}, offered := {Timeout})], true)
  {
    ws, steps := Extend([INITIAL], [], Issue(1));
    ws, steps := Extend(ws, steps, RunArm(1));
    ws, steps := Extend(ws, steps, Expire(1));
    ws, steps := Extend(ws, steps, Fire(1));
    var c := ws[|steps|].calls[1];
    assert c.entering == multiset{Timeout} && c.offered == {Timeout};
    assert ws[|steps|].calls.Keys == {1};
  }

  // Steps of the deadline thread and of the hand-off, for one call.
  predicate DeadlineStep(step: Step, no: CallNo) {
    || step == RunArm(no) || step == Expire(no) || step == Fire(no) || step == HandOff(no)
    || (step.LeaveRegistries? && step.no == no) || (step.Claim? && step.no == no)
  }

  // How far a call is from its hand-off.
  function Distance(c: Call): nat {
    if c.won != [] then 0 else if c.leaving != multiset{} then 1 else if c.entering != multiset{} then 2
    else if c.expired > 0 then 3 else if c.waiting then 4 else 5
  }

  // Whether `step` brings the call nearer its hand-off, or hands it off.
  ghost predicate Advances(w: World, no: CallNo, step: Step) {
    && no in w.calls && DeadlineStep(step, no) && Enabled(w, step) && no in Apply(w, step).calls
    && var c' := Apply(w, step).calls[no];
       if step.HandOff? then |c'.handed| == 1 else c'.handed == [] && Distance(c') < Distance(w.calls[no])
  }

  lemma DeliveryAdvances(w: World, no: CallNo) returns (step: Step)
    requires no in w.calls && CallInv(w.calls[no]) && w.calls[no].handed == []
    requires w.calls[no].won != [] || w.calls[no].leaving != multiset{} || w.calls[no].entering != multiset{}
    ensures Advances(w, no, step) && step != Fire(no)
  {
    var c := w.calls[no];
    if c.won != [] {
      step := HandOff(no);
    } else if c.leaving != multiset{} {
      var o :| o in c.leaving;
      step := Claim(no, o);
    } else {
      var o :| o in c.entering;
      step := LeaveRegistries(no, o);
      assert o in Apply(w, step).calls[no].leaving;
    }
  }

  lemma TimerAdvances(w: World, no: CallNo) returns (step: Step)
    requires no in w.calls && CallInv(w.calls[no]) && w.calls[no].handed == []
    requires w.calls[no].won == [] && w.calls[no].leaving == multiset{} && w.calls[no].entering == multiset{}
    ensures Advances(w, no, step)
  {
    var c := w.calls[no];
    if c.expired > 0 {
      step := Fire(no);
      assert Timeout in Apply(w, step).calls[no].entering;
    } else if c.waiting {
      step := Expire(no);
    } else {
      step := RunArm(no);
    }
  }

  lemma DeadlineStepAdvances(w: World, no: CallNo) returns (step: Step)
    requires Inv(w) && no in w.calls && w.calls[no].handed == []
    ensures Advances(w, no, step)
  {
    hide Advances, CallInv;
    var c := w.calls[no];
    if c.won != [] || c.leaving != multiset{} || c.entering != multiset{} {
      step := DeliveryAdvances(w, no);
    } else {
      step := TimerAdvances(w, no);
    }
  }

  lemma Prepend(w: World, step: Step, ws: seq<World>, steps: seq<Step>) returns (ws': seq<World>, steps': seq<Step>)
    requires Enabled(w, step) && IsPath(ws, steps) && ws[0] == Apply(w, step)
    ensures IsPath(ws', steps') && ws' == [w] + ws && steps' == [step] + steps
  {
    hide Apply, Enabled;
    ws', steps' := [w] + ws, [step] + steps;
    forall i | 0 <= i < |steps'| ensures Enabled(ws'[i], steps'[i]) && ws'[i + 1] == Apply(ws'[i], steps'[i]) {
      if i > 0 { assert steps'[i] == steps[i - 1]; }
    }
  }

  /** From every reachable state a call not yet handed off gets there by steps of its
      own deadline and delivery alone: no reply, peer or teardown is needed. */
  lemma {:induction false} DeadlineAloneFinishes(w: World, no: CallNo) returns (ws: seq<World>, steps: seq<Step>)
    requires Inv(w) && no in w.calls && w.calls[no].handed == []
    ensures IsPath(ws, steps) && ws[0] == w
    ensures forall step :: step in steps ==> DeadlineStep(step, no)
    ensures no in ws[|steps|].calls && |ws[|steps|].calls[no].handed| == 1
    decreases Distance(w.calls[no])
  {
    hide Inv, Apply, Enabled, Distance;
    var step := DeadlineStepAdvances(w, no);
    if step.HandOff? {
      ws, steps := Prepend(w, step, [Apply(w, step)], []);
    } else {
      StepKeepsInv(w, step);
      var ws', steps' := DeadlineAloneFinishes(Apply(w, step), no);
      ws, steps := Prepend(w, step, ws', steps');
    }
  }

  // ------------------------------------------------------- any order of everybody's steps

  // Handed off, or no further from it.
  predicate NoFurther(c: Call, c': Call) {
    (c.handed != [] ==> c'.handed != []) && (c'.handed == [] ==> Distance(c') <= Distance(c))
  }

  lemma OfferIsNoFurther(c: Call, o: Outcome, c': Call)
    requires c' == c.Offer(o).(issuer := c'.issuer, reply := c'.reply, expired := c'.expired)
    ensures NoFurther(c, c')
  {
    assert o in c'.entering;
  }

  lemma TimerIsNoFurther(w: World, step: Step)
    requires Enabled(w, step) && (step.Rearm? || step.RunArm? || step.Expire? || step.CheckDelivered? || step.Send?)
    ensures NoFurther(w.calls[step.no], Apply(w, step).calls[step.no])
  {
  }

  // The timer is cancelled only once the call has been delivered.
  lemma CancelIsNoFurther(w: World, no: CallNo)
    requires Enabled(w, RunCancel(no)) && CallInv(w.calls[no])
    ensures NoFurther(w.calls[no], Apply(w, RunCancel(no)).calls[no])
  {
  }

  lemma LeaveIsNoFurther(w: World, no: CallNo, o: Outcome)
    requires Enabled(w, LeaveRegistries(no, o))
    ensures NoFurther(w.calls[no], Apply(w, LeaveRegistries(no, o)).calls[no])
  {
    assert o in Apply(w, LeaveRegistries(no, o)).calls[no].leaving;
  }

  lemma ClaimIsNoFurther(w: World, no: CallNo, o: Outcome)
    requires Enabled(w, Claim(no, o)) && CallInv(w.calls[no])
    ensures NoFurther(w.calls[no], Apply(w, Claim(no, o)).calls[no])
  {
  }

  lemma HandOffIsNoFurther(w: World, no: CallNo)
    requires Enabled(w, HandOff(no))
    ensures NoFurther(w.calls[no], Apply(w, HandOff(no)).calls[no])
  {
  }

  lemma FilingIsNoFurther(w: World, step: Step)
    requires Enabled(w, step) && (step.FileInflight? || step.FileDeferred?)
    ensures NoFurther(w.calls[step.no], Apply(w, step).calls[step.no])
  {
    var c, c' := w.calls[step.no], Apply(w, step).calls[step.no];
    hide Evict, Erase;
    if step.FileDeferred? && c.reply.id in w.st.completions {
      OfferIsNoFurther(c, Answer(w.st.completions[c.reply.id]), c');
    } else if w.st.stopping {
      OfferIsNoFurther(c, Released, c');
    }
  }

  lemma ReachingIsNoFurther(w: World, step: Step, no: CallNo)
    requires Enabled(w, step) && Subject(w, step) == Some(no) && no in w.calls
    requires step.ReplyPlain? || step.ReplySentinel? || step.Complete? || step.Fire?
    ensures no in Apply(w, step).calls && NoFurther(w.calls[no], Apply(w, step).calls[no])
  {
    hide Evict, NoFurther;
    var c, c' := w.calls[no], Apply(w, step).calls[no];
    if step.ReplySentinel? && w.alive {
      assert NoFurther(c, c') by { StandsStill(c, c'); }
    } else if step.Complete? && !w.alive {
      StandsStill(c, c');
    } else {
      OfferIsNoFurther(c, match step
        case ReplyPlain(_, o) => o
        case Complete(_, v) => Answer(v)
        case Fire(_) => Timeout
        case _ => Released, c');
    }
  }

  lemma StandsStill(c: Call, c': Call)
    requires c' == c.(reply := c'.reply)
    ensures NoFurther(c, c')
  {
  }

  lemma StopIsNoFurther(w: World, no: CallNo)
    requires no in w.calls
    ensures no in Apply(w, StopAll).calls && NoFurther(w.calls[no], Apply(w, StopAll).calls[no])
  {
    var c, c' := w.calls[no], Apply(w, StopAll).calls[no];
    if no in w.st.inflight { OfferIsNoFurther(c, Released, c'); } else { StandsStill(c, c'); }
  }

  lemma SubjectIsNoFurther(w: World, step: Step, no: CallNo)
    requires no in w.calls && CallInv(w.calls[no]) && Enabled(w, step) && Subject(w, step) == Some(no)
    ensures no in Apply(w, step).calls && NoFurther(w.calls[no], Apply(w, step).calls[no])
  {
    SubjectStays(w, step, no);
    hide NoFurther, CallInv, Apply;
    match step
    case LeaveRegistries(_, o) => LeaveIsNoFurther(w, no, o);
    case Claim(_, o) => ClaimIsNoFurther(w, no, o);
    case HandOff(_) => HandOffIsNoFurther(w, no);
    case RunCancel(_) => CancelIsNoFurther(w, no);
    case FileInflight(_) | FileDeferred(_) => FilingIsNoFurther(w, step);
    case Rearm(_) | RunArm(_) | Expire(_) | CheckDelivered(_) | Send(_) => TimerIsNoFurther(w, step);
    case ReplyPlain(_, _) | ReplySentinel(_, _) | Complete(_, _) | Fire(_) => ReachingIsNoFurther(w, step, no);
    case _ =>
  }

  lemma SubjectStays(w: World, step: Step, no: CallNo)
    requires no in w.calls && Enabled(w, step) && Subject(w, step) == Some(no)
    ensures no in Apply(w, step).calls
  {
  }

  lemma NobodyTakesFurther(w: World, step: Step, no: CallNo)
    requires Inv(w) && Enabled(w, step) && no in w.calls
    ensures no in Apply(w, step).calls && NoFurther(w.calls[no], Apply(w, step).calls[no])
  {
    assert CallInv(w.calls[no]);
    hide Inv, CallInv, Apply, Enabled, NoFurther;
    if step.StopAll? {
      StopIsNoFurther(w, no);
    } else if Subject(w, step) == Some(no) {
      SubjectIsNoFurther(w, step, no);
    } else {
      OthersAsTheyWere(w, step, no);
      StandsStill(w.calls[no], Apply(w, step).calls[no]);
    }
  }

  // How many of the first `n` steps brought the call nearer its hand-off.
  ghost function Nudges(ws: seq<World>, steps: seq<Step>, no: CallNo, n: nat): nat
    requires n <= |steps| <= |ws|
  {
    if n == 0 then 0 else Nudges(ws, steps, no, n - 1) + if Advances(ws[n - 1], no, steps[n - 1]) then 1 else 0
  }

  /** Whatever everybody else does in between, no step takes a call further from its
      hand-off, so as many steps of its own deadline and delivery as it is away (five at
      most, and the hand-off itself) hand it off.  One such step is always enabled. */
  lemma {:induction false} FairDeadlineFinishes(ws: seq<World>, steps: seq<Step>, no: CallNo, n: nat)
    requires IsPath(ws, steps) && Inv(ws[0]) && no in ws[0].calls && n <= |steps|
    ensures no in ws[n].calls
    ensures ws[n].calls[no].handed != [] || Nudges(ws, steps, no, n) + Distance(ws[n].calls[no]) <= Distance(ws[0].calls[no])
    ensures Nudges(ws, steps, no, n) >= 6 ==> |ws[n].calls[no].handed| == 1
    ensures ws[n].calls[no].handed == [] ==> exists step :: Advances(ws[n], no, step)
  {
    hide Inv, Enabled, Apply, Distance, CallInv;
    PathKeepsInv(ws, steps, n);
    if n > 0 {
      FairDeadlineFinishes(ws, steps, no, n - 1);
      PathKeepsInv(ws, steps, n - 1);
      NobodyTakesFurther(ws[n - 1], steps[n - 1], no);
    }
    CloseToHandOff(ws[n], no);
    CloseToHandOff(ws[0], no);
    if ws[n].calls[no].handed == [] { var step := DeadlineStepAdvances(ws[n], no); }
  }

  lemma CloseToHandOff(w: World, no: CallNo)
    requires Inv(w) && no in w.calls
    ensures Distance(w.calls[no]) <= 5 && |w.calls[no].handed| <= 1
  {
    assert CallInv(w.calls[no]);
  }

  // ------------------------------------------- completions that overtake the reply

  // A step other than the ones that consume or replace what is filed under `id`.
  predicate Spares(w: World, step: Step, id: DeferId) {
    && !step.StopAll?
    && (step.Complete? ==> step.id != id)
    && (step.SyncTake? ==> step.id != id)
    && (step.FileDeferred? && step.no in w.calls && w.calls[step.no].reply.Filing? ==> w.calls[step.no].reply.id != id)
  }

  predicate ParksNew(w: World, step: Step) {
    step.Complete? && step.id !in w.st.deferred && step.id !in w.st.completions
  }

  // The completions newly parked by the steps from `m` up to `n`.
  function Parks(ws: seq<World>, steps: seq<Step>, m: nat, n: nat): nat
    requires m <= n <= |steps| <= |ws|
  {
    if n == m then 0 else Parks(ws, steps, m, n - 1) + if ParksNew(ws[n - 1], steps[n - 1]) then 1 else 0
  }

  // What is still parked, and how far behind, after a step.
  predicate ParkedOn(st: State, st': State, id: DeferId, more: nat)
    requires id in st.completions
  {
    && id in st'.completions && st'.completions[id] == st.completions[id]
    && Behind(st'.order, id) <= Behind(st.order, id) + more
  }

  // The steps that touch what is parked.
  predicate TouchesParked(step: Step) {
    step.Complete? || step.SyncTake? || step.SyncEnd? || step.LeaveRegistries? || step.FileDeferred? || step.StopAll?
  }

  lemma ParkedUntouched(w: World, step: Step)
    requires Enabled(w, step) && !TouchesParked(step)
    ensures Apply(w, step).st.completions == w.st.completions && Apply(w, step).st.order == w.st.order
  {
    hide Evict, Erase;
  }

  lemma TakingSpares(st: State, other: DeferId, id: DeferId)
    requires StateInv(st) && id in st.completions && other != id
    ensures ParkedOn(st, st.Take(other), id, 0)
  {
    ErasedOrder(st.order, other);
  }

  lemma CompletingSpares(w: World, other: DeferId, v: Value, id: DeferId)
    requires StateInv(w.st) && Enabled(w, Complete(other, v)) && other != id && id in w.st.completions && w.st.Busy()
    requires ParksNew(w, Complete(other, v)) ==> Behind(w.st.order, id) + 1 < PARKED_CAP
    ensures ParkedOn(w.st, Apply(w, Complete(other, v)).st, id, if ParksNew(w, Complete(other, v)) then 1 else 0)
  {
    if other !in w.st.deferred { ParkOtherKeeps(w.st, id, other, v); }
    hide Evict, Behind;
  }

  lemma StepKeepsParked(w: World, step: Step, id: DeferId)
    requires Inv(w) && Enabled(w, step) && Spares(w, step, id)
    requires w.st.Busy() && Apply(w, step).st.Busy() && id in w.st.completions
    requires ParksNew(w, step) ==> Behind(w.st.order, id) + 1 < PARKED_CAP
    ensures ParkedOn(w.st, Apply(w, step).st, id, if ParksNew(w, step) then 1 else 0)
  {
    hide StateInv, CallInv, Registered, Evict, Erase, Behind;
    if !TouchesParked(step) {
      ParkedUntouched(w, step);
    } else if step.Complete? {
      CompletingSpares(w, step.id, step.v, id);
    } else if step.SyncTake? {
      TakingSpares(w.st, step.id, id);
    } else if step.FileDeferred? {
      TakingSpares(w.st, w.calls[step.no].reply.id, id);
    }
  }

  /** A parked completion stays parked while the handle is busy, nobody claims it and
      fewer than the cap's worth of others are parked behind it. */
  lemma {:induction false} ParkedSurvives(ws: seq<World>, steps: seq<Step>, id: DeferId, m: nat, n: nat)
    requires IsPath(ws, steps) && Inv(ws[0]) && m <= n <= |steps|
    requires forall i :: m <= i <= n ==> ws[i].st.Busy()
    requires forall i :: m <= i < n ==> Spares(ws[i], steps[i], id)
    requires id in ws[m].st.completions
    requires Behind(ws[m].st.order, id) + Parks(ws, steps, m, n) < PARKED_CAP
    ensures id in ws[n].st.completions && ws[n].st.completions[id] == ws[m].st.completions[id]
    ensures Behind(ws[n].st.order, id) <= Behind(ws[m].st.order, id) + Parks(ws, steps, m, n)
  {
    if n > m {
      hide Inv, Enabled, Apply, Spares;
      ParkedSurvives(ws, steps, id, m, n - 1);
      PathKeepsInv(ws, steps, n - 1);
      assert ws[n - 1].st.Busy() && ws[n - 1 + 1].st.Busy();
      StepKeepsParked(ws[n - 1], steps[n - 1], id);
    }
  }

  // Call `no` is out and nothing has tried to resolve it, nor is the handle stopping.
  predicate Unresolved(w: World, no: CallNo) {
    no in w.calls && !w.calls[no].issuer.Created? && w.calls[no].offered == {} && !w.st.stopping
  }

  // Whatever has tried to resolve call `no` tried with `o`.
  predicate OfferedOnly(w: World, no: CallNo, o: Outcome) {
    no in w.calls && w.calls[no].offered == {o}
  }

  // The reply handler of call `no` holds the sentinel for `id` and is about to file it.
  predicate IsFiling(w: World, no: CallNo, id: DeferId) {
    no in w.calls && w.calls[no].reply == Filing(id)
  }

  lemma UnresolvedIsBusy(w: World, no: CallNo)
    requires Inv(w) && Unresolved(w, no)
    ensures w.st.Busy()
  {
    assert CallInv(w.calls[no]);
    UnresolvedIsFiled(w.calls[no]);
    assert no in w.st.inflight;
  }

  lemma UnresolvedIsFiled(c: Call)
    requires CallInv(c)
    ensures c.Resolving() ==> c.offered != {}
    ensures c.offered == {} ==> c.issuer.Created? || c.WasFiled()
  {
    if o :| o in c.leaving { assert o in c.offered; }
  }

  lemma UnresolvedAreBusy(ws: seq<World>, steps: seq<Step>, no: CallNo, a: nat, b: nat)
    requires IsPath(ws, steps) && Inv(ws[0]) && b < |ws|
    requires forall i :: a <= i <= b ==> Unresolved(ws[i], no)
    ensures forall i :: a <= i <= b ==> ws[i].st.Busy()
  {
    hide Inv, Unresolved;
    forall i | a <= i <= b ensures ws[i].st.Busy() {
      PathKeepsInv(ws, steps, i);
      UnresolvedIsBusy(ws[i], no);
    }
  }

  /** Completion first, sentinel second: the sentinel finds the parked value. */
  lemma {:induction false} CompletionThenSentinel(ws: seq<World>, steps: seq<Step>, no: CallNo, id: DeferId, v: Value, a: nat, b: nat)
    requires IsPath(ws, steps) && Inv(ws[0]) && a < b < |steps|
    requires forall i :: a <= i <= b ==> Unresolved(ws[i], no)
    requires steps[a] == Complete(id, v) && id !in ws[a].st.deferred && id !in ws[a].st.completions
    requires forall i :: a < i < b ==> Spares(ws[i], steps[i], id)
    requires Parks(ws, steps, a + 1, b) < PARKED_CAP
    requires steps[b] == FileDeferred(no) && IsFiling(ws[b], no, id)
    ensures Spent(ws[b + 1], no, Answer(v))
  {
    hide Inv, Unresolved, Spares, Apply, Enabled, Spent;
    UnresolvedAreBusy(ws, steps, no, a, b);
    PathKeepsInv(ws, steps, a);
    PathKeepsInv(ws, steps, b);
    assert Unresolved(ws[a], no);
    ParkedByCompletion(ws[a], no, id, v);
    ParkedSurvives(ws, steps, id, a + 1, b);
    assert Unresolved(ws[b], no);
    FilingTakesParked(ws[b], no, id, v);
  }

  lemma ParkedByCompletion(w: World, no: CallNo, id: DeferId, v: Value)
    requires Inv(w) && Unresolved(w, no) && w.st.Busy() && id !in w.st.deferred && id !in w.st.completions
    requires Enabled(w, Complete(id, v))
    ensures var st := Apply(w, Complete(id, v)).st;
            id in st.completions && st.completions[id] == v && Behind(st.order, id) == 0
  {
    ParkKeeps(w.st, id, v);
  }

  lemma FilingTakesParked(w: World, no: CallNo, id: DeferId, v: Value)
    requires Inv(w) && Unresolved(w, no) && IsFiling(w, no, id) && id in w.st.completions && w.st.completions[id] == v
    requires Enabled(w, FileDeferred(no))
    ensures Spent(Apply(w, FileDeferred(no)), no, Answer(v))
  {
    assert CallInv(w.calls[no]);
    hide StateInv, CallInv, Erase;
    forall k | k in w.st.deferred ensures w.st.deferred[k] != no { EntryIsOthers(w, no, k); }
  }

  // Call `no` is the one filed under `id`, and no other ever was.
  ghost predicate FiledAlone(w: World, no: CallNo, id: DeferId) {
    && id in w.st.deferred && w.st.deferred[id] == no
    && (forall other :: other in w.calls && w.calls[other].deferId == Some(id) ==> other == no)
  }

  // The steps that touch what is filed under the provider's ids.
  predicate TouchesDeferred(step: Step) {
    step.FileDeferred? || step.Complete? || step.LeaveRegistries? || step.StopAll?
  }

  lemma DeferredUntouched(w: World, step: Step)
    requires Enabled(w, step) && !TouchesDeferred(step)
    ensures Apply(w, step).st.deferred == w.st.deferred
  {
    hide Evict, Erase;
  }

  lemma StepKeepsEntry(w: World, step: Step, no: CallNo, id: DeferId)
    requires Inv(w) && Enabled(w, step) && Spares(w, step, id) && Unresolved(w, no) && FiledAlone(w, no, id)
    ensures id in Apply(w, step).st.deferred && Apply(w, step).st.deferred[id] == no
  {
    if !TouchesDeferred(step) {
      hide Inv, Apply, Enabled, Spares, Unresolved;
      DeferredUntouched(w, step);
    } else if step.LeaveRegistries? {
      LeavingSparesEntry(w, step.no, step.o, no, id);
    } else {
      hide Inv, Evict, Erase;
      if step.Complete? { ParkFrame(w.st, step.id, step.v); }
    }
  }

  // A thread leaving the registries belongs to a call something has tried to resolve.
  lemma LeavingSparesEntry(w: World, k: CallNo, o: Outcome, no: CallNo, id: DeferId)
    requires Enabled(w, LeaveRegistries(k, o)) && CallInv(w.calls[k]) && Unresolved(w, no) && FiledAlone(w, no, id)
    ensures id in Apply(w, LeaveRegistries(k, o)).st.deferred && Apply(w, LeaveRegistries(k, o)).st.deferred[id] == no
  {
    LeaveKeeps(w.calls[k], o);
    hide CallInv;
  }

  lemma StepKeepsAlone(w: World, step: Step, no: CallNo, id: DeferId)
    requires Enabled(w, step) && Spares(w, step, id) && FiledAlone(w, no, id)
    ensures forall other :: other in Apply(w, step).calls && Apply(w, step).calls[other].deferId == Some(id) ==> other == no
  {
    var w' := Apply(w, step);
    forall other | other in w'.calls && w'.calls[other].deferId == Some(id) ensures other == no {
      if Subject(w, step) != Some(other) && !step.StopAll? { OthersUntouched(w, step, other); }
    }
  }

  lemma StepKeepsFiled(w: World, step: Step, no: CallNo, id: DeferId)
    requires Inv(w) && Enabled(w, step) && Spares(w, step, id) && Unresolved(w, no) && FiledAlone(w, no, id)
    ensures FiledAlone(Apply(w, step), no, id)
  {
    StepKeepsEntry(w, step, no, id);
    StepKeepsAlone(w, step, no, id);
    hide Inv, Apply, Enabled, Spares, Unresolved;
  }

  /** Sentinel first, completion second: the completion finds the filed call.  The
      provider mints ids afresh, so no other call was ever filed under `id`. */
  lemma {:induction false} DeferredStays(ws: seq<World>, steps: seq<Step>, no: CallNo, id: DeferId, a: nat, b: nat)
    requires IsPath(ws, steps) && Inv(ws[0]) && a <= b <= |steps|
    requires forall i :: a <= i < b ==> Unresolved(ws[i], no)
    requires forall i :: a <= i < b ==> Spares(ws[i], steps[i], id)
    requires FiledAlone(ws[a], no, id)
    ensures FiledAlone(ws[b], no, id)
  {
    hide *;
    PathEnds(ws, steps);
    if b > a {
      PathStep(ws, steps, b - 1);
      DeferredStays(ws, steps, no, id, a, b - 1);
      PathKeepsInv(ws, steps, b - 1);
      assert Unresolved(ws[b - 1], no);
      StepKeepsFiled(ws[b - 1], steps[b - 1], no, id);
    }
  }

  lemma {:induction false} SentinelThenCompletion(ws: seq<World>, steps: seq<Step>, no: CallNo, id: DeferId, v: Value, a: nat, b: nat)
    requires IsPath(ws, steps) && Inv(ws[0]) && a < b < |steps|
    requires forall i :: a <= i <= b ==> Unresolved(ws[i], no)
    requires steps[a] == FileDeferred(no) && IsFiling(ws[a], no, id) && id !in ws[a].st.completions
    requires forall other :: other in ws[a].calls ==> ws[a].calls[other].deferId != Some(id)
    requires forall i :: a < i < b ==> Spares(ws[i], steps[i], id)
    requires steps[b] == Complete(id, v)
    ensures Spent(ws[b + 1], no, Answer(v))
  {
    hide Inv, Unresolved, Spares, Apply, Enabled, FiledAlone, Spent;
    assert Unresolved(ws[a], no) && Unresolved(ws[b], no);
    FiledBySentinel(ws[a], no, id);
    DeferredStays(ws, steps, no, id, a + 1, b);
    PathKeepsInv(ws, steps, b);
    CompletionAnswersFiled(ws[b], no, id, v);
  }

  lemma FiledBySentinel(w: World, no: CallNo, id: DeferId)
    requires Unresolved(w, no) && IsFiling(w, no, id) && id !in w.st.completions
    requires Enabled(w, FileDeferred(no))
    requires forall other :: other in w.calls ==> w.calls[other].deferId != Some(id)
    ensures FiledAlone(Apply(w, FileDeferred(no)), no, id)
  {
  }

  lemma CompletionAnswersFiled(w: World, no: CallNo, id: DeferId, v: Value)
    requires Inv(w) && Unresolved(w, no) && FiledAlone(w, no, id) && Enabled(w, Complete(id, v))
    ensures Spent(Apply(w, Complete(id, v)), no, Answer(v))
  {
    assert CallInv(w.calls[no]);
    hide StateInv;
  }

  // ------------------------------------------------------ what is parked, and for whom

  // A step that takes what is parked under `id`, if it is.
  predicate Claims(w: World, step: Step, id: DeferId) {
    || step == SyncTake(id) || step == StopAll
    || (step.FileDeferred? && step.no in w.calls && w.calls[step.no].reply == Filing(id))
  }

  lemma TakenIsGone(st: State, id: DeferId)
    requires StateInv(st)
    ensures id !in st.Take(id).completions
  {
  }

  lemma ParkedUnclaimed(w: World, step: Step, id: DeferId)
    requires Inv(w) && Enabled(w, step) && Claims(w, step, id)
    ensures id !in Apply(w, step).st.completions
  {
    TakenIsGone(w.st, id);
    hide Inv, Erase;
  }

  // Parked by the step, and not claimed by `n`.
  ghost predicate ParkedBy(ws: seq<World>, steps: seq<Step>, i: nat, n: nat, id: DeferId, v: Value)
    requires i < n <= |steps| <= |ws|
  {
    steps[i] == Complete(id, v) && forall j :: i < j < n ==> !Claims(ws[j], steps[j], id)
  }

  /** Over every run, what is parked under an id was sent under it, and nobody has claimed
      it since. */
  lemma {:induction false} ParkedIsUnclaimed(ws: seq<World>, steps: seq<Step>, id: DeferId, n: nat)
    requires IsPath(ws, steps) && ws[0] == INITIAL && n <= |steps| && id in ws[n].st.completions
    ensures exists i :: 0 <= i < n && ParkedBy(ws, steps, i, n, id, ws[n].st.completions[id])
  {
    if n > 0 {
      InitialInv();
      hide *;
      PathEnds(ws, steps);
      PathKeepsInv(ws, steps, n - 1);
      PathStep(ws, steps, n - 1);
      ParkedByStep(ws[n - 1], steps[n - 1], id);
      var v := ws[n].st.completions[id];
      if steps[n - 1] == Complete(id, v) {
        ParkedNow(ws, steps, n, id, v);
      } else {
        if Claims(ws[n - 1], steps[n - 1], id) { ParkedUnclaimed(ws[n - 1], steps[n - 1], id); }
        ParkedIsUnclaimed(ws, steps, id, n - 1);
        var i :| 0 <= i < n - 1 && ParkedBy(ws, steps, i, n - 1, id, v);
        ParkedStill(ws, steps, i, n, id, v);
      }
    } else {
      NothingParked(ws);
    }
  }

  lemma NothingParked(ws: seq<World>)
    requires ws != [] && ws[0] == INITIAL
    ensures ws[0].st.completions == map[]
  {
  }

  lemma ParkedNow(ws: seq<World>, steps: seq<Step>, n: nat, id: DeferId, v: Value)
    requires 0 < n <= |steps| <= |ws| && steps[n - 1] == Complete(id, v)
    ensures ParkedBy(ws, steps, n - 1, n, id, v)
  {
  }

  lemma ParkedStill(ws: seq<World>, steps: seq<Step>, i: nat, n: nat, id: DeferId, v: Value)
    requires i + 1 < n <= |steps| <= |ws| && ParkedBy(ws, steps, i, n - 1, id, v) && !Claims(ws[n - 1], steps[n - 1], id)
    ensures ParkedBy(ws, steps, i, n, id, v)
  {
    hide Claims;
  }

  // Nothing stays parked on an idle handle, unless a thread is about to leave its registries.
  ghost predicate IdleIsEmpty(w: World) {
    w.alive && !w.st.Busy() ==> w.st.completions == map[] || exists no :: no in w.calls && w.calls[no].entering != multiset{}
  }

  lemma StillEntering(w: World, step: Step, no: CallNo)
    requires Enabled(w, step) && no in w.calls && w.calls[no].entering != multiset{}
    ensures no in Apply(w, step).calls && (Apply(w, step).calls[no].entering != multiset{} || (step.LeaveRegistries? && step.no == no))
  {
    hide Evict, Erase;
    if Subject(w, step) != Some(no) && !step.StopAll? {
      OthersAsTheyWere(w, step, no);
      hide Apply;
    }
  }

  lemma LeavingEmpties(w: World, no: CallNo, o: Outcome)
    requires Enabled(w, LeaveRegistries(no, o))
    ensures IdleIsEmpty(Apply(w, LeaveRegistries(no, o)))
  {
  }

  lemma EndingEmpties(w: World)
    requires Enabled(w, SyncEnd)
    ensures IdleIsEmpty(Apply(w, SyncEnd))
  {
  }

  lemma CompletingEmpties(w: World, id: DeferId, v: Value)
    requires Enabled(w, Complete(id, v)) && IdleIsEmpty(w)
    ensures IdleIsEmpty(Apply(w, Complete(id, v)))
  {
    if id in w.st.deferred && w.alive {
      var no := w.st.deferred[id];
      assert Answer(v) in Apply(w, Complete(id, v)).calls[no].entering;
    } else if w.alive {
      ParkFrame(w.st, id, v);
      hide Evict;
    }
  }

  // Steps that leave the handle as busy as it was and park nothing.
  lemma OthersKeepEmpty(w: World, step: Step)
    requires Enabled(w, step) && IdleIsEmpty(w) && !step.LeaveRegistries? && !step.SyncEnd? && !step.Complete? && !step.StopAll?
    ensures IdleIsEmpty(Apply(w, step))
  {
    var w' := Apply(w, step);
    BusyStays(w, step);
    if w'.alive && !w'.st.Busy() && w'.st.completions != map[] {
      var no :| no in w.calls && w.calls[no].entering != multiset{};
      StillEntering(w, step, no);
      hide Apply;
    }
  }

  lemma BusyStays(w: World, step: Step)
    requires Enabled(w, step) && !step.LeaveRegistries? && !step.SyncEnd? && !step.Complete? && !step.StopAll?
    ensures w.st.Busy() ==> Apply(w, step).st.Busy()
    ensures Apply(w, step).alive ==> w.alive
    ensures w.st.completions == map[] ==> Apply(w, step).st.completions == map[]
  {
    hide Evict, Erase;
  }

  /** Over every run, once nothing is outstanding on a handle nothing stays parked on it, or
      the thread whose leaving will drop it is on its way. */
  lemma {:induction false} IdleParksNothing(ws: seq<World>, steps: seq<Step>, n: nat)
    requires IsPath(ws, steps) && ws[0] == INITIAL && n <= |steps|
    ensures IdleIsEmpty(ws[n])
  {
    if n > 0 {
      hide Enabled, Apply, IdleIsEmpty;
      IdleParksNothing(ws, steps, n - 1);
      PathStep(ws, steps, n - 1);
      match steps[n - 1]
      case LeaveRegistries(no, o) => LeavingEmpties(ws[n - 1], no, o);
      case SyncEnd => EndingEmpties(ws[n - 1]);
      case Complete(id, v) => CompletingEmpties(ws[n - 1], id, v);
      case StopAll => StoppedIsEmpty(ws[n - 1]);
      case _ => OthersKeepEmpty(ws[n - 1], steps[n - 1]);
    } else {
      hide IsPath;
    }
  }

  lemma StoppedIsEmpty(w: World)
    ensures IdleIsEmpty(Apply(w, StopAll))
  {
  }

  // The reply of call `no` has been used up without filing it.
  predicate NeverFiled(w: World, no: CallNo) {
    no in w.calls && w.calls[no].reply.Replied? && w.calls[no].deferId.None?
  }

  lemma StaysUnfiled(w: World, step: Step, no: CallNo)
    requires Enabled(w, step) && NeverFiled(w, no)
    ensures NeverFiled(Apply(w, step), no)
  {
    hide Evict, Erase;
    if Subject(w, step) != Some(no) && !step.StopAll? {
      OthersAsTheyWere(w, step, no);
      hide Apply;
    }
  }

  /** A sentinel that finds its call already delivered files nothing, then or later. */
  lemma {:induction false} DeliveredIsNotFiled(ws: seq<World>, steps: seq<Step>, no: CallNo, i: nat, n: nat)
    requires IsPath(ws, steps) && ws[0] == INITIAL && i < n <= |steps|
    requires steps[i] == CheckDelivered(no) && ws[i].calls[no].delivered
    ensures NeverFiled(ws[n], no)
  {
    InitialInv();
    PathKeepsInv(ws, steps, i);
    PathStep(ws, steps, n - 1);
    if n == i + 1 {
      assert CallInv(ws[i].calls[no]);
      hide Inv;
    } else {
      hide *;
      DeliveredIsNotFiled(ws, steps, no, i, n - 1);
      StaysUnfiled(ws[n - 1], steps[n - 1], no);
    }
  }

  // ------------------------------------------------------- and so the call is answered

  /** Call `no` was offered `o` alone, and nothing but its deadline or teardown can offer it
      anything more. */
  ghost predicate Spent(w: World, no: CallNo, o: Outcome) {
    && OfferedOnly(w, no, o) && w.calls[no].issuer.Sent? && (w.calls[no].reply.Rearming? || w.calls[no].reply.Replied?)
    && forall id :: id in w.st.deferred ==> w.st.deferred[id] != no
  }

  lemma StaysSpent(w: World, step: Step, no: CallNo, o: Outcome)
    requires Enabled(w, step) && Spent(w, no, o) && step != Fire(no) && !step.StopAll?
    ensures Spent(Apply(w, step), no, o)
  {
    hide Evict, Erase;
    if Subject(w, step) != Some(no) { OthersAsTheyWere(w, step, no); }
    if step.Complete? { ParkFrame(w.st, step.id, step.v); }
  }

  lemma {:induction false} SpentOnwards(ws: seq<World>, steps: seq<Step>, no: CallNo, o: Outcome, a: nat, n: nat)
    requires IsPath(ws, steps) && a <= n <= |steps| && Spent(ws[a], no, o)
    requires forall i :: a <= i < n ==> steps[i] != Fire(no) && !steps[i].StopAll?
    ensures Spent(ws[n], no, o)
  {
    if n > a {
      hide Spent, Apply, Enabled;
      SpentOnwards(ws, steps, no, o, a, n - 1);
      StaysSpent(ws[n - 1], steps[n - 1], no, o);
    }
  }

  // Until the reply of call `no` comes, nothing has been offered for it.
  predicate Unanswered(w: World, no: CallNo) {
    !w.st.stopping && (no in w.calls && w.calls[no].reply.NoReply? ==> w.calls[no].offered == {})
  }

  lemma StaysUnanswered(w: World, step: Step, no: CallNo)
    requires Inv(w) && Enabled(w, step) && Unanswered(w, no) && step != Fire(no) && !step.StopAll?
    ensures Unanswered(Apply(w, step), no)
  {
    assert Registered(w) && (no in w.calls ==> CallInv(w.calls[no]));
    hide Inv, StateInv, Evict, Erase;
    StoppingStays(w, step);
    if Subject(w, step) != Some(no) { OthersAsTheyWere(w, step, no); } else { ItsOwnLeavesUnanswered(w, step, no); }
    hide Apply;
  }

  lemma StoppingStays(w: World, step: Step)
    requires Enabled(w, step) && !step.StopAll?
    ensures Apply(w, step).st.stopping == w.st.stopping
  {
    if step.Complete? { ParkFrame(w.st, step.id, step.v); }
    hide Evict, Erase;
  }

  lemma ItsOwnLeavesUnanswered(w: World, step: Step, no: CallNo)
    requires Registered(w) && (no in w.calls ==> CallInv(w.calls[no])) && Subject(w, step) == Some(no)
    requires Enabled(w, step) && Unanswered(w, no) && step != Fire(no) && !step.StopAll?
    ensures no in Apply(w, step).calls
    ensures Apply(w, step).calls[no].reply.NoReply? ==> Apply(w, step).calls[no].offered == {}
  {
    hide Evict, Erase;
  }

  lemma {:induction false} UnansweredOnwards(ws: seq<World>, steps: seq<Step>, no: CallNo, n: nat)
    requires IsPath(ws, steps) && ws[0] == INITIAL && n <= |steps|
    requires forall j :: 0 <= j < n ==> steps[j] != Fire(no) && !steps[j].StopAll?
    ensures Unanswered(ws[n], no)
  {
    if n > 0 {
      hide Unanswered, Apply, Enabled, Inv;
      UnansweredOnwards(ws, steps, no, n - 1);
      InitialInv();
      PathKeepsInv(ws, steps, n - 1);
      StaysUnanswered(ws[n - 1], steps[n - 1], no);
    } else {
      hide IsPath;
    }
  }

  lemma ReplySpends(w: World, no: CallNo, o: Outcome)
    requires Inv(w) && Enabled(w, ReplyPlain(no, o)) && Unanswered(w, no)
    ensures Spent(Apply(w, ReplyPlain(no, o)), no, o)
  {
    assert Registered(w) && CallInv(w.calls[no]);
    hide Inv, StateInv;
  }

  lemma HandedStays(w: World, step: Step, no: CallNo)
    requires Inv(w) && Enabled(w, step) && no in w.calls && w.calls[no].handed != []
    ensures no in Apply(w, step).calls && Apply(w, step).calls[no].handed == w.calls[no].handed
  {
    assert CallInv(w.calls[no]);
    hide Inv, Apply, Registered, StateInv;
    NobodyTakesFurther(w, step, no);
    assert !(step.HandOff? && step.no == no);
    if step.Claim? && step.no == no { ClaimTakes(w, no, step.o); } else { HandsStay(w, step, no); }
  }

  lemma {:induction false} HandedOnwards(ws: seq<World>, steps: seq<Step>, no: CallNo, n: nat, m: nat)
    requires IsPath(ws, steps) && ws[0] == INITIAL && n <= m <= |steps| && no in ws[n].calls && ws[n].calls[no].handed != []
    ensures no in ws[m].calls && ws[m].calls[no].handed == ws[n].calls[no].handed
  {
    if n < m {
      hide Apply, Enabled, Inv;
      HandedOnwards(ws, steps, no, n, m - 1);
      InitialInv();
      PathKeepsInv(ws, steps, m - 1);
      HandedStays(ws[m - 1], steps[m - 1], no);
    }
  }

  // The exchange that decided what call `no` is answered with.
  predicate Decides(w: World, step: Step, no: CallNo, o: Outcome) {
    step == Claim(no, o) && no in w.calls && !w.calls[no].delivered
  }

  lemma DecidedByStep(w: World, step: Step, no: CallNo)
    requires Inv(w) && Enabled(w, step) && no in Apply(w, step).calls && Apply(w, step).calls[no].delivered
    ensures var c' := Apply(w, step).calls[no];
            if no in w.calls && w.calls[no].delivered then c'.handed + c'.won == w.calls[no].handed + w.calls[no].won
            else step.Claim? && Decides(w, step, no, step.o) && c'.handed + c'.won == [step.o]
  {
    assert no in w.calls ==> CallInv(w.calls[no]);
    hide Inv, StateInv, Registered, CallInv, Apply;
    if step.Claim? && step.no == no {
      ClaimTakes(w, no, step.o);
    } else if step.HandOff? && step.no == no {
      HandOffPasses(w, no);
    } else {
      HandsStay(w, step, no);
    }
  }

  lemma ClaimTakes(w: World, no: CallNo, o: Outcome)
    requires Enabled(w, Claim(no, o)) && CallInv(w.calls[no])
    ensures var c, c' := w.calls[no], Apply(w, Claim(no, o)).calls[no];
            && c'.handed + c'.won == (if c.delivered then c.handed + c.won else [o])
            && c'.handed == c.handed
  {
  }

  lemma HandOffPasses(w: World, no: CallNo)
    requires Enabled(w, HandOff(no)) && CallInv(w.calls[no])
    ensures var c, c' := w.calls[no], Apply(w, HandOff(no)).calls[no];
            c.delivered && c'.handed + c'.won == c.handed + c.won
  {
  }

  // What was decided of a call is as it was, or the call is new.
  predicate SameHands(w: World, w': World, no: CallNo)
    requires no in w'.calls
  {
    if no in w.calls then (w'.calls[no].delivered, w'.calls[no].won, w'.calls[no].handed) == (w.calls[no].delivered, w.calls[no].won, w.calls[no].handed)
    else !w'.calls[no].delivered
  }

  lemma FilingLeavesHands(w: World, step: Step, no: CallNo)
    requires Enabled(w, step) && (step == FileInflight(no) || step == FileDeferred(no))
    ensures no in Apply(w, step).calls && SameHands(w, Apply(w, step), no)
  {
    hide Evict, Erase;
  }

  lemma ReachingLeavesHands(w: World, step: Step, no: CallNo)
    requires Enabled(w, step) && Subject(w, step) == Some(no)
    requires step.ReplyPlain? || step.ReplySentinel? || step.Complete? || step.Fire?
    ensures no in Apply(w, step).calls && SameHands(w, Apply(w, step), no)
  {
    hide Evict, Erase;
  }

  lemma MovingLeavesHands(w: World, step: Step, no: CallNo)
    requires Enabled(w, step) && Subject(w, step) == Some(no)
    requires Local(step) || step.Issue? || step.Send? || step.LeaveRegistries?
    ensures no in Apply(w, step).calls && SameHands(w, Apply(w, step), no)
  {
    hide Evict, Erase;
  }

  // Nothing but an exchange and a hand-off touches what was decided.
  lemma HandsStay(w: World, step: Step, no: CallNo)
    requires Enabled(w, step) && no in Apply(w, step).calls && !((step.Claim? || step.HandOff?) && step.no == no)
    ensures SameHands(w, Apply(w, step), no)
  {
    if step.StopAll? {
    } else {
      hide Enabled, Apply;
      if Subject(w, step) != Some(no) {
        OthersAsTheyWere(w, step, no);
      } else if step.FileInflight? || step.FileDeferred? {
        FilingLeavesHands(w, step, no);
      } else if step.ReplyPlain? || step.ReplySentinel? || step.Complete? || step.Fire? {
        ReachingLeavesHands(w, step, no);
      } else {
        MovingLeavesHands(w, step, no);
      }
    }
  }

  /** Of the threads that race to resolve a call the first exchange wins: what the caller
      is handed is what that thread came with, whatever else was offered. */
  lemma {:induction false} FirstClaimDecides(ws: seq<World>, steps: seq<Step>, no: CallNo, n: nat)
    requires IsPath(ws, steps) && ws[0] == INITIAL && n <= |steps| && no in ws[n].calls && ws[n].calls[no].delivered
    ensures exists i :: 0 <= i < n && steps[i].Claim? && Decides(ws[i], steps[i], no, steps[i].o)
                        && ws[n].calls[no].handed + ws[n].calls[no].won == [steps[i].o]
  {
    if n > 0 {
      hide Apply, Enabled, Inv, Decides;
      InitialInv();
      PathKeepsInv(ws, steps, n - 1);
      DecidedByStep(ws[n - 1], steps[n - 1], no);
      if no in ws[n - 1].calls && ws[n - 1].calls[no].delivered { FirstClaimDecides(ws, steps, no, n - 1); }
    }
  }

  /** A call whose reply is no sentinel is answered with that reply, an error with that
      error: until its deadline fires or teardown begins, it is the only outcome offered,
      a thread is delivering it, and it is the only one handed off; and what was handed off
      by then stays the only hand-off whatever happens afterwards. */
  lemma PlainReplyIsTheAnswer(ws: seq<World>, steps: seq<Step>, no: CallNo, o: Outcome, i: nat, n: nat, m: nat)
    requires IsPath(ws, steps) && ws[0] == INITIAL && i < n <= m <= |steps| && steps[i] == ReplyPlain(no, o)
    requires forall j :: 0 <= j < n ==> steps[j] != Fire(no) && !steps[j].StopAll?
    ensures OfferedOnly(ws[n], no, o)
    ensures var c := ws[n].calls[no];
            || c.handed == [o]
            || (c.handed == [] && (c.won == [o] || o in c.leaving || o in c.entering))
    ensures ws[n].calls[no].handed != [] ==> no in ws[m].calls && ws[m].calls[no].handed == [o]
  {
    InitialInv();
    PathKeepsInv(ws, steps, i);
    PathKeepsInv(ws, steps, n);
    UnansweredOnwards(ws, steps, no, i);
    PathStep(ws, steps, i);
    hide Inv, Unanswered, Apply, Enabled;
    ReplySpends(ws[i], no, o);
    SpentOnwards(ws, steps, no, o, i + 1, n);
    OnlyOneInHands(ws[n], no, o);
    if ws[n].calls[no].handed != [] { HandedOnwards(ws, steps, no, n, m); }
  }

  // The completion, and then the sentinel that finds it parked.
  ghost predicate CompletionFirst(ws: seq<World>, steps: seq<Step>, no: CallNo, id: DeferId, v: Value, a: nat, b: nat)
    requires a < b < |steps| < |ws|
  {
    && steps[a] == Complete(id, v) && id !in ws[a].st.deferred && id !in ws[a].st.completions
    && steps[b] == FileDeferred(no) && IsFiling(ws[b], no, id)
    && Parks(ws, steps, a + 1, b) < PARKED_CAP
  }

  // The sentinel, under an id no call was ever filed under, and then the completion.
  ghost predicate SentinelFirst(ws: seq<World>, steps: seq<Step>, no: CallNo, id: DeferId, v: Value, a: nat, b: nat)
    requires a < b < |steps| < |ws|
  {
    && steps[a] == FileDeferred(no) && IsFiling(ws[a], no, id) && id !in ws[a].st.completions
    && (forall other :: other in ws[a].calls ==> ws[a].calls[other].deferId != Some(id))
    && steps[b] == Complete(id, v)
  }

  /** A deferred call whose sentinel and completion both arrive, in either order, before
      anything else resolves it is answered with the completion's value: until its deadline
      fires or teardown begins, that value is the only one offered for it, it is in the
      hands of a thread delivering it, and it is the only one handed off. */
  lemma {:induction false} DeferredCallIsAnswered(ws: seq<World>, steps: seq<Step>, no: CallNo, id: DeferId, v: Value,
                                                  a: nat, b: nat, n: nat)
    requires IsPath(ws, steps) && ws[0] == INITIAL && a < b < n <= |steps|
    requires CompletionFirst(ws, steps, no, id, v, a, b) || SentinelFirst(ws, steps, no, id, v, a, b)
    requires forall i :: a <= i <= b ==> Unresolved(ws[i], no)
    requires forall i :: a < i < b ==> Spares(ws[i], steps[i], id)
    requires forall i :: b < i < n ==> steps[i] != Fire(no) && !steps[i].StopAll?
    ensures OfferedOnly(ws[n], no, Answer(v))
    ensures var c := ws[n].calls[no];
            || c.handed == [Answer(v)]
            || (c.handed == [] && (c.won == [Answer(v)] || Answer(v) in c.leaving || Answer(v) in c.entering))
  {
    InitialInv();
    PathKeepsInv(ws, steps, n);
    hide Inv, Unresolved, Spares, Apply, Enabled;
    if CompletionFirst(ws, steps, no, id, v, a, b) {
      CompletionThenSentinel(ws, steps, no, id, v, a, b);
    } else {
      SentinelThenCompletion(ws, steps, no, id, v, a, b);
    }
    hide CompletionFirst, SentinelFirst;
    SpentOnwards(ws, steps, no, Answer(v), b + 1, n);
    OnlyOneInHands(ws[n], no, Answer(v));
  }

  lemma OnlyOneInHands(w: World, no: CallNo, o: Outcome)
    requires Inv(w) && OfferedOnly(w, no, o)
    ensures var c := w.calls[no];
            c.handed == [o] || (c.handed == [] && (c.won == [o] || o in c.leaving || o in c.entering))
  {
    assert CallInv(w.calls[no]);
    assert o in w.calls[no].offered;
  }

  /** And the threads delivering it hand it off: by their steps alone, from any such state,
      the call is answered with that value. */
  lemma {:induction false} DeliveryFinishes(w: World, no: CallNo, o: Outcome) returns (ws: seq<World>, steps: seq<Step>)
    requires Inv(w) && OfferedOnly(w, no, o) && w.calls[no].handed == []
    ensures IsPath(ws, steps) && ws[0] == w
    ensures forall step :: step in steps ==> DeadlineStep(step, no) && step != Fire(no)
    ensures no in ws[|steps|].calls && ws[|steps|].calls[no].handed == [o]
    decreases Distance(w.calls[no])
  {
    hide *;
    var step := DeliveryStep(w, no, o);
    if step.HandOff? {
      Standing(Apply(w, step));
      ws, steps := Prepend(w, step, [Apply(w, step)], []);
    } else {
      var ws', steps' := DeliveryFinishes(Apply(w, step), no, o);
      ws, steps := Prepend(w, step, ws', steps');
      PathEnds(ws', steps');
    }
  }

  lemma Standing(w: World)
    ensures IsPath([w], [])
  {
  }

  lemma PathEnds(ws: seq<World>, steps: seq<Step>)
    requires IsPath(ws, steps)
    ensures |ws| == |steps| + 1
  {
  }

  lemma DeliveryStep(w: World, no: CallNo, o: Outcome) returns (step: Step)
    requires Inv(w) && OfferedOnly(w, no, o) && w.calls[no].handed == []
    ensures Enabled(w, step) && DeadlineStep(step, no) && step != Fire(no)
    ensures Inv(Apply(w, step)) && OfferedOnly(Apply(w, step), no, o) && no in Apply(w, step).calls
    ensures var c' := Apply(w, step).calls[no];
            if step.HandOff? then c'.handed == [o] else c'.handed == [] && Distance(c') < Distance(w.calls[no])
  {
    OnlyOneInHands(w, no, o);
    assert CallInv(w.calls[no]);
    hide Inv, CallInv;
    step := DeliveryAdvances(w, no);
    StepKeepsInv(w, step);
    DeliveryOffersNothing(w, no, step);
    hide Apply, Enabled, Distance, DeadlineStep;
    OnlyOneInHands(Apply(w, step), no, o);
  }

  lemma DeliveryOffersNothing(w: World, no: CallNo, step: Step)
    requires no in w.calls && Enabled(w, step) && DeadlineStep(step, no) && step != Fire(no)
    ensures no in Apply(w, step).calls && Apply(w, step).calls[no].offered == w.calls[no].offered
  {
    hide Apply, Enabled;
    MovingOffersNothing(w, step, no);
  }

  /** A call to which nothing but one outcome was offered is answered with it. */
  lemma OnlyOfferIsTheAnswer(ws: seq<World>, steps: seq<Step>, no: CallNo, v: Value)
    requires IsPath(ws, steps) && ws[0] == INITIAL
    requires OfferedOnly(ws[|steps|], no, Answer(v)) && ws[|steps|].calls[no].handed != []
    ensures ws[|steps|].calls[no].handed == [Answer(v)]
  {
    HandedOffAtMostOnce(ws, steps, no);
  }
}
