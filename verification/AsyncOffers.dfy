/** What an asynchronous call is offered over a whole run, and so what its caller can be
    handed: each outcome is one that some step brought it. */
module AsyncOffers {
  import opened AsyncCalls
  import opened Wrappers

  // ------------------------------------------------------------------- every run

  ghost predicate IsPath(ws: seq<World>, steps: seq<Step>) {
    && |ws| == |steps| + 1
    && forall i :: 0 <= i < |steps| ==> Enabled(ws[i], steps[i]) && ws[i + 1] == Apply(ws[i], steps[i])
  }

  lemma {:induction false} PathKeepsInv(ws: seq<World>, steps: seq<Step>, n: nat)
    requires IsPath(ws, steps) && Inv(ws[0]) && n < |ws|
    ensures Inv(ws[n])
  {
    if n > 0 {
      PathKeepsInv(ws, steps, n - 1);
      StepKeepsInv(ws[n - 1], steps[n - 1]);
    }
  }

  lemma PathStep(ws: seq<World>, steps: seq<Step>, i: nat)
    requires IsPath(ws, steps) && i < |steps|
    ensures Enabled(ws[i], steps[i]) && ws[i + 1] == Apply(ws[i], steps[i])
  {
    hide Enabled, Apply;
  }

  lemma InitialInv()
    ensures Inv(INITIAL)
  {
  }

  // ------------------------------------------------------------- where outcomes come from

  predicate Offered(w: World, no: CallNo, o: Outcome) {
    no in w.calls && o in w.calls[no].offered
  }

  // The value parked under the id whose sentinel call `no` is about to file.
  function ParkedFor(w: World, no: CallNo): Option<Value> {
    if no in w.calls && w.calls[no].reply.Filing? && w.calls[no].reply.id in w.st.completions
    then Some(w.st.completions[w.calls[no].reply.id]) else None
  }

  /** Whether `step`, taken in `w`, brings call `no` the outcome `o`: an answer comes by the
      reply, by a completion for the id it is filed under, or by one parked under the id of
      its sentinel; an error by the reply; the deadline by its timer; and the rest by
      teardown, by being refused during it, or by finding the handle gone. */
  ghost predicate Brings(w: World, step: Step, no: CallNo, o: Outcome) {
    match o
    case Answer(v) =>
      || step == ReplyPlain(no, Answer(v))
      || (step.Complete? && step.v == v && w.alive && step.id in w.st.deferred && w.st.deferred[step.id] == no)
      || (step == FileDeferred(no) && ParkedFor(w, no) == Some(v))
    case WireError(code) => step == ReplyPlain(no, WireError(code))
    case Timeout => step == Fire(no)
    case Released =>
      || (step == StopAll && no in w.st.inflight)
      || (w.st.stopping && (step == FileInflight(no) || (step == FileDeferred(no) && ParkedFor(w, no) == None)))
      || (!w.alive && step.ReplySentinel? && step.no == no)
  }

  lemma OfferedByTeardown(w: World, no: CallNo, o: Outcome)
    requires Registered(w)
    ensures Offered(Apply(w, StopAll), no, o) <==> Offered(w, no, o) || Brings(w, StopAll, no, o)
  {
  }

  lemma OfferedToOthers(w: World, step: Step, no: CallNo, o: Outcome)
    requires Enabled(w, step) && !step.StopAll? && Subject(w, step) != Some(no)
    ensures Offered(Apply(w, step), no, o) <==> Offered(w, no, o)
    ensures !Brings(w, step, no, o)
  {
    hide Apply, Enabled, Brings;
    OthersAsTheyWere(w, step, no);
    OthersGetNothing(w, step, no, o);
  }

  lemma OthersGetNothing(w: World, step: Step, no: CallNo, o: Outcome)
    requires Enabled(w, step) && !step.StopAll? && Subject(w, step) != Some(no)
    ensures !Brings(w, step, no, o)
  {
  }

  lemma OthersAsTheyWere(w: World, step: Step, no: CallNo)
    requires Enabled(w, step) && !step.StopAll? && Subject(w, step) != Some(no)
    ensures no in w.calls <==> no in Apply(w, step).calls
    ensures no in w.calls ==> Apply(w, step).calls[no] == w.calls[no]
  {
    hide Evict, Erase;
  }

  lemma OfferedByFiling(w: World, step: Step, no: CallNo, o: Outcome)
    requires Enabled(w, step) && (step == FileInflight(no) || step == FileDeferred(no))
    ensures Offered(Apply(w, step), no, o) <==> Offered(w, no, o) || Brings(w, step, no, o)
  {
    hide Evict, Erase;
  }

  lemma OfferedByReaching(w: World, step: Step, no: CallNo, o: Outcome)
    requires Enabled(w, step) && Subject(w, step) == Some(no)
    requires step.ReplyPlain? || step.ReplySentinel? || step.Complete? || step.Fire?
    ensures Offered(Apply(w, step), no, o) <==> Offered(w, no, o) || Brings(w, step, no, o)
  {
    hide Evict, Erase;
  }

  // The other steps of one call bring it nothing.
  lemma OfferedByMoving(w: World, step: Step, no: CallNo, o: Outcome)
    requires Enabled(w, step) && Subject(w, step) == Some(no)
    requires Local(step) || step.Issue? || step.Send? || step.LeaveRegistries? || step.Claim? || step.HandOff?
    ensures Offered(Apply(w, step), no, o) <==> Offered(w, no, o) || Brings(w, step, no, o)
  {
    hide Apply, Enabled;
    if step.Issue? { IssuedWithNothing(w, no); } else { MovingOffersNothing(w, step, no); }
  }

  lemma IssuedWithNothing(w: World, no: CallNo)
    requires Enabled(w, Issue(no))
    ensures no !in w.calls && no in Apply(w, Issue(no)).calls && Apply(w, Issue(no)).calls[no].offered == {}
  {
  }

  lemma MovingOffersNothing(w: World, step: Step, no: CallNo)
    requires Enabled(w, step) && (Local(step) || step.Send? || step.LeaveRegistries? || step.Claim? || step.HandOff?) && step.no == no
    ensures no in w.calls && no in Apply(w, step).calls && Apply(w, step).calls[no].offered == w.calls[no].offered
  {
    match step
    case LeaveRegistries(_, o) => LeavingOffersNothing(w, no, o);
    case Claim(_, o) => ClaimingOffersNothing(w, no, o);
    case _ =>
  }

  lemma LeavingOffersNothing(w: World, no: CallNo, o: Outcome)
    requires Enabled(w, LeaveRegistries(no, o))
    ensures Apply(w, LeaveRegistries(no, o)).calls[no].offered == w.calls[no].offered
  {
  }

  lemma ClaimingOffersNothing(w: World, no: CallNo, o: Outcome)
    requires Enabled(w, Claim(no, o))
    ensures Apply(w, Claim(no, o)).calls[no].offered == w.calls[no].offered
  {
  }

  lemma OfferedByStep(w: World, step: Step, no: CallNo, o: Outcome)
    requires Inv(w) && Enabled(w, step)
    ensures Offered(Apply(w, step), no, o) <==> Offered(w, no, o) || Brings(w, step, no, o)
  {
    assert Registered(w);
    hide Inv, Registered, Enabled, Apply, Offered, Brings;
    if step.StopAll? {
      OfferedByTeardown(w, no, o);
    } else if Subject(w, step) != Some(no) {
      OfferedToOthers(w, step, no, o);
    } else {
      OfferedByItsOwn(w, step, no, o);
    }
  }

  lemma OfferedByItsOwn(w: World, step: Step, no: CallNo, o: Outcome)
    requires Enabled(w, step) && Subject(w, step) == Some(no)
    ensures Offered(Apply(w, step), no, o) <==> Offered(w, no, o) || Brings(w, step, no, o)
  {
    hide Enabled, Apply, Offered, Brings;
    if step.FileInflight? || step.FileDeferred? {
      OfferedByFiling(w, step, no, o);
    } else if step.ReplyPlain? || step.ReplySentinel? || step.Complete? || step.Fire? {
      OfferedByReaching(w, step, no, o);
    } else {
      OfferedByMoving(w, step, no, o);
    }
  }

  /** Over every run, a call has been offered exactly the outcomes some step brought it. */
  lemma {:induction false} OfferedIffBrought(ws: seq<World>, steps: seq<Step>, no: CallNo, o: Outcome, n: nat)
    requires IsPath(ws, steps) && ws[0] == INITIAL && n <= |steps|
    ensures Offered(ws[n], no, o) <==> exists i :: 0 <= i < n && Brings(ws[i], steps[i], no, o)
  {
    if n > 0 {
      OfferedIffBrought(ws, steps, no, o, n - 1);
      InitialInv();
      PathKeepsInv(ws, steps, n - 1);
      hide Inv, Enabled, Apply, Offered, Brings;
      PathStep(ws, steps, n - 1);
      OfferedByStep(ws[n - 1], steps[n - 1], no, o);
      if Brings(ws[n - 1], steps[n - 1], no, o) { assert Brings(ws[n - 1], steps[n - 1], no, o); }
    }
  }

  // ------------------------------------------------------------------ whose answer it is

  lemma {:induction false} EvictOnlyDrops(st: State, id: DeferId)
    ensures id in Evict(st).completions ==> id in st.completions && Evict(st).completions[id] == st.completions[id]
    decreases |st.order|
  {
    if |st.order| > PARKED_CAP { EvictOnlyDrops(st.(completions := st.completions - {st.order[0]}, order := st.order[1..]), id); }
  }

  lemma ParkedByStep(w: World, step: Step, id: DeferId)
    requires Enabled(w, step) && id in Apply(w, step).st.completions
    ensures var v := Apply(w, step).st.completions[id];
            (id in w.st.completions && w.st.completions[id] == v) || step == Complete(id, v)
  {
    if step.Complete? && step.id !in w.st.deferred && step.id !in w.st.completions {
      EvictOnlyDrops(w.st.(completions := w.st.completions[step.id := step.v], order := w.st.order + [step.id]), id);
    }
    hide Evict, Erase;
  }

  // What is parked under an id was sent under it.
  lemma {:induction false} ParkedWasSent(ws: seq<World>, steps: seq<Step>, id: DeferId, n: nat)
    requires IsPath(ws, steps) && ws[0] == INITIAL && n <= |steps| && id in ws[n].st.completions
    ensures Complete(id, ws[n].st.completions[id]) in steps[..n]
  {
    if n > 0 {
      PathStep(ws, steps, n - 1);
      ParkedByStep(ws[n - 1], steps[n - 1], id);
      assert steps[..n] == steps[..n - 1] + [steps[n - 1]];
      hide Enabled, Apply;
      if steps[n - 1] != Complete(id, ws[n].st.completions[id]) { ParkedWasSent(ws, steps, id, n - 1); }
    }
  }

  // The peer sent this value, as the call's own reply or as a completion.
  ghost predicate Sent(steps: seq<Step>, no: CallNo, v: Value) {
    ReplyPlain(no, Answer(v)) in steps || exists id :: Complete(id, v) in steps
  }

  lemma AnswerWasSent(ws: seq<World>, steps: seq<Step>, no: CallNo, v: Value, i: nat)
    requires IsPath(ws, steps) && ws[0] == INITIAL && i < |steps| && Brings(ws[i], steps[i], no, Answer(v))
    ensures Sent(steps, no, v)
  {
    assert |ws| == |steps| + 1;
    hide IsPath;
    if steps[i] == FileDeferred(no) {
      var id := ws[i].calls[no].reply.id;
      ParkedWasSent(ws, steps, id, i);
      assert Complete(id, v) in steps[..i];
      assert Complete(id, v) in steps;
    } else {
      assert steps[i] in steps;
      if steps[i].Complete? { assert Complete(steps[i].id, v) in steps; }
    }
  }

  /** However reply, deadlines, completion and teardown race, a call is handed off at most
      once, with an outcome some step brought it, and an answer is one the peer sent; and
      while it is undelivered something on this side is still going to resolve it. */
  lemma HandedOffAtMostOnce(ws: seq<World>, steps: seq<Step>, no: CallNo)
    requires IsPath(ws, steps) && ws[0] == INITIAL && no in ws[|steps|].calls
    ensures var c := ws[|steps|].calls[no];
            && |c.handed| <= 1
            && (c.handed != [] ==> c.delivered && c.won == [] && c.handed[0] in c.offered)
            && (c.handed != [] ==> exists i :: 0 <= i < |steps| && Brings(ws[i], steps[i], no, c.handed[0]))
            && (c.handed != [] && c.handed[0].Answer? ==> Sent(steps, no, c.handed[0].v))
            && (!c.delivered ==> c.handed == [] && Resolvable(c))
  {
    InitialInv();
    PathKeepsInv(ws, steps, |steps|);
    var c := ws[|steps|].calls[no];
    assert CallInv(c);
    hide Inv, Brings, Sent;
    if c.handed != [] {
      OfferedIffBrought(ws, steps, no, c.handed[0], |steps|);
      var i :| 0 <= i < |steps| && Brings(ws[i], steps[i], no, c.handed[0]);
      if c.handed[0].Answer? { AnswerWasSent(ws, steps, no, c.handed[0].v, i); }
    }
  }
}
