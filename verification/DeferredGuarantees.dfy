/** The guarantees of the deferred-subscription registry, over every run from its
    construction: any requests, acquires, reconnects and ticks, with any callbacks. */
module DeferredGuarantees {
  import opened DeferredSubscriptions
  import opened DeferredSafety
  import opened DeferredRuns
  import opened DeferredTheorems
  import opened DeferredGenerations
  import opened Wrappers

  ghost predicate Inv(r: Registry) {
    Mid(r, []) && Watched(r)
  }

  lemma InitialInv(canDefer: bool)
    ensures Inv(Initial(canDefer))
  {
  }

  lemma {:induction false} RunKeepsInv(r: Registry, steps: seq<Step>)
    requires Inv(r) && Run(r, steps)
    ensures Inv(End(r, steps)) && Grows(r, End(r, steps))
    decreases |steps|
  {
    if steps != [] {
      hide Mid, Watched, Apply, Enabled;
      StepAfter(r, steps[0]);
      StepTicks(r, steps[0]);
      RunKeepsInv(Apply(r, steps[0]), steps[1..]);
    }
  }

  // ------------------------------------------------------------------ conservation

  function Home(r: Registry, id: Id): nat {
    (if Has(r.entries, id) then 1 else 0) + (if Has(r.armed, id) then 1 else 0) +
    (if Has(r.held, id) then 1 else 0) + (if id in r.gone then 1 else 0)
  }

  /** Every id ever issued is pending, armed, held or gone, and only one of them; no
      other id is anywhere. */
  lemma EveryIdInOnePlace(canDefer: bool, steps: seq<Step>, id: Id)
    requires Run(Initial(canDefer), steps)
    ensures Home(End(Initial(canDefer), steps), id) == if 1 <= id < End(Initial(canDefer), steps).nextId then 1 else 0
  {
    InitialInv(canDefer);
    RunKeepsInv(Initial(canDefer), steps);
    var r := End(Initial(canDefer), steps);
    hide HandlesOk, ArmedOk, HeldOk, ToldOk, AnswersOk, InHandOk, Watched, End, Run, Has;
    assert Places(r, id) + Count([], id) == if 1 <= id < r.nextId then 1 else 0;
    CountHas(r.entries, id);
    CountHas(r.armed, id);
    CountHas(r.held, id);
  }

  /** An id that has left stays gone, for the reason it left: its one readiness answer
      was the only answer it was given, an abandoned one was told no last, and nobody
      else was ever told no. */
  lemma GoneForGood(canDefer: bool, before: seq<Step>, after: seq<Step>, id: Id)
    requires Run(Initial(canDefer), before) && Run(End(Initial(canDefer), before), after)
    requires id in End(Initial(canDefer), before).gone
    ensures var r, r' := End(Initial(canDefer), before), End(End(Initial(canDefer), before), after);
            && id in r'.gone && r'.gone[id] == r.gone[id]
            && (r.gone[id].ReadinessAnswered? ==> id in r'.told && r'.told[id] == [true])
            && (r.gone[id].Abandoned? <==> id in r'.told && r'.told[id] != [] && !r'.told[id][|r'.told[id]| - 1])
            && (id in r'.told ==> forall i :: 0 <= i < |r'.told[id]| - 1 ==> r'.told[id][i])
  {
    InitialInv(canDefer);
    RunKeepsInv(Initial(canDefer), before);
    RunKeepsInv(End(Initial(canDefer), before), after);
    hide Conserved, ArmedOk, HeldOk, InHandOk, HandlesOk, Watched, End, Run;
  }

  // ------------------------------------------------------------------------- held

  ghost predicate RunSpares(steps: seq<Step>, e: Entry) {
    forall st :: st in steps ==> StepSpares(st, Limits(Some(e), false))
  }

  /** What is held was armed once and is a real subscription; and it stays held through
      every run that neither rearms its object nor cancels it. */
  lemma {:induction false} HeldUntilAsked(r: Registry, steps: seq<Step>, e: Entry)
    requires Inv(r) && Run(r, steps) && e in r.held && RunSpares(steps, e)
    ensures e in End(r, steps).held && e.everArmed && !e.readinessOnly
    decreases |steps|
  {
    if steps != [] {
      hide Watched, Conserved, HandlesOk, Apply, Enabled, StepSpares;
      StepAfter(r, steps[0]);
      StepTicks(r, steps[0]);
      StepKept(r, steps[0], e.name, Limits(Some(e), false));
      HeldUntilAsked(Apply(r, steps[0]), steps[1..], e);
    }
  }

  // ---------------------------------------------------------------------- handles

  /** Every handle ever received is the one held for its object or was released, exactly
      once.  An armed subscription is on the handle held for its object if and only if
      that handle was not replaced, by an arming nested in its own, before it was put
      down. */
  lemma HandlesHeldOrReleasedOnce(canDefer: bool, steps: seq<Step>)
    requires Run(Initial(canDefer), steps)
    ensures var r := End(Initial(canDefer), steps);
            && (forall e :: e in r.armed ==>
                  e.name in r.handles && (e.at == Some(r.handles[e.name]) <==> e.id !in r.undercut))
            && (forall h :: h in r.home ==>
                  var n := r.home[h];
                  if n in r.handles && r.handles[n] == h then r.released[(n, h)] == 0 else r.released[(n, h)] == 1)
  {
    InitialInv(canDefer);
    RunKeepsInv(Initial(canDefer), steps);
    var r := End(Initial(canDefer), steps);
    hide LinesOk, EndingsOk, Conserved, ToldOk, AnswersOk, InHandOk, Watched;
    forall h | h in r.home
      ensures var n := r.home[h];
              if n in r.handles && r.handles[n] == h then r.released[(n, h)] == 0 else r.released[(n, h)] == 1
    {
      assert HeldNow(r, r.home[h], h) + r.released[(r.home[h], h)] == 1;
    }
  }

  /** A live handle outlives every request, whatever its callbacks ask for: only a handle
      already stale is ever replaced under an arming. */
  lemma LiveHandleOutlivesRequests(r: Registry, q: Request, n: Name)
    requires Inv(r) && LiveHandle(r, n).Some?
    ensures LiveHandle(Perform(r, q), n) == LiveHandle(r, n)
  {
    hide EntriesOk, HandlesOk, Watched, Perform, SameAnswers, Grows;
    PerformAfter(r, q, [], map[n := r.handles[n]]);
  }

  /** An answer to an earlier acquire that comes while the object has a live handle, as
      the second of two acquires in flight may, changes nothing: its handle is given back
      and the live one stays. */
  lemma LateAnswerIsGivenBack(r: Registry, n: Name, ok: bool, scripts: seq<Script>, watcher: Script)
    requires Inv(r) && LiveHandle(r, n).Some?
    ensures var r' := AcquireDone(r, n, NewHandle(ok), scripts, watcher);
            LiveHandle(r', n) == Some(r.handles[n]) && r'.released[(n, r.nextHandle)] == 1
  {
    var r0, h := Answered(r, n), r.nextHandle;
    var r1, r' := Receive(r0, n, NewHandle(ok)).0, AcquireDone(r, n, NewHandle(ok), scripts, watcher);
    LateShape(r, n, ok, scripts, watcher);
    hide *;
    LiveInMid(r, n);
    var pins := map[n := LiveHandle(r, n).value];
    TakenOffAfter(r, n, [], pins);
    OnAgain(r, r0, [], pins);
    ReceiveKeeps(r0, n, NewHandle(ok), [], pins);
    ArmAfter(r1, n, h, scripts, [], pins);
    LateEnding(r, r1, r', n, pins);
  }

  lemma LiveInMid(r: Registry, n: Name)
    requires Inv(r) && LiveHandle(r, n).Some?
    ensures Mid(r, []) && n in r.handles && LiveHandle(r, n) == Some(r.handles[n]) && Pinned(r, map[n := LiveHandle(r, n).value])
  {
    hide Mid, Watched;
  }

  lemma LateShape(r: Registry, n: Name, ok: bool, scripts: seq<Script>, watcher: Script)
    ensures var r1, h := Receive(Answered(r, n), n, NewHandle(ok)).0, r.nextHandle;
            && Receive(Answered(r, n), n, NewHandle(ok)).1 == Some(h) && h in r1.home && r1.home[h] == n
            && AcquireDone(r, n, NewHandle(ok), scripts, watcher) == ArmAgainst(r1, n, h, scripts)
  {
    hide ArmAgainst, Abandon;
  }

  lemma LateEnding(r: Registry, r1: Registry, r': Registry, n: Name, pins: map<Name, Handle>)
    requires Mid(r, []) && n in r.handles && pins == map[n := r.handles[n]] && After(r1, r', [], pins)
    requires r.nextHandle in r1.home && r1.home[r.nextHandle] == n
    ensures LiveHandle(r', n) == Some(r.handles[n]) && r'.released[(n, r.nextHandle)] == 1
  {
    hide EntriesOk, LinesOk, EndingsOk, SameAnswers, Placed;
    ReleasedUnlessHeld(r', r.nextHandle);
  }

  lemma ReleasedUnlessHeld(r: Registry, h: Handle)
    requires HandlesOk(r, None) && h in r.home && !Held(r, h)
    ensures r.released[(r.home[h], h)] == 1
  {
    hide LinesOk, EndingsOk;
    assert HeldNow(r, r.home[h], h) + r.released[(r.home[h], h)] == 1;
  }

  /** An arming on a live handle undercuts nobody: that handle stays, live, whatever its
      callbacks do, and each subscription of the object it leaves armed is on it, unless
      it was armed before and undercut already. */
  lemma ArmingOnLiveUndercutsNobody(r: Registry, n: Name, obj: Handle, scripts: seq<Script>)
    requires Holding(r, n, obj, []) && Adopt(r, n, obj).handles[n] in Adopt(r, n, obj).valid
    ensures var r1, r' := Adopt(r, n, obj), ArmAgainst(r, n, obj, scripts);
            && LiveHandle(r', n) == Some(r1.handles[n])
            && forall e :: e in r'.armed && e.name == n && e.id in r'.undercut ==> e in r1.armed && e.id in r1.undercut
  {
    hide *;
    var r1, r' := Adopt(r, n, obj), ArmAgainst(r, n, obj, scripts);
    var pins := map[n := r1.handles[n]];
    AdoptKeeps(r, n, obj, [], map[]) by { NothingPinned(r); }
    OnAgain(r, r1, [], map[]);
    FiledAfter(r, r1, n, obj, scripts, [], pins) by { PinnedHere(r1, n); }
    StaysOnPins(r1, r', n, pins);
  }

  lemma NothingPinned(r: Registry)
    ensures Pinned(r, map[])
  {
  }

  lemma PinnedHere(r: Registry, n: Name)
    requires n in r.handles && r.handles[n] in r.valid
    ensures Pinned(r, map[n := r.handles[n]])
  {
  }

  lemma StaysOnPins(r: Registry, r': Registry, n: Name, pins: map<Name, Handle>)
    requires Mid(r, []) && After(r, r', [], pins) && n in r.handles && pins == map[n := r.handles[n]]
    ensures LiveHandle(r', n) == Some(r.handles[n])
    ensures forall e :: e in r'.armed && e.name == n && e.id in r'.undercut ==> e in r.armed && e.id in r.undercut
  {
    hide Conserved, HeldOk, ToldOk, AnswersOk, InHandOk, HandlesOk, SameAnswers, Grows;
  }

  // ------------------------------------------------------------------- the watchdog

  /** No dead-and-silent subscription: while the timer is off nothing is armed, and
      whatever is pending has an acquire the transport may still answer, and has said all
      it will. */
  lemma NoDeadAndSilent(canDefer: bool, steps: seq<Step>, e: Entry)
    requires Run(Initial(canDefer), steps)
    ensures var r := End(Initial(canDefer), steps);
            !r.timerOn ==> e !in r.armed && (e in r.entries ==> e.name in r.acquiring && e.name in r.asked && e.warn >= 2)
  {
    InitialInv(canDefer);
    RunKeepsInv(Initial(canDefer), steps);
  }

  // ------------------------------------------------------------------ generations

  /** An object's generation is the number of Armed edges reported for it. */
  lemma {:induction false} GenerationCountsArmings(r: Registry, steps: seq<Step>, n: Name)
    requires Run(r, steps) && Gen(r, n) == ArmedEdges(r.edges, n)
    ensures Gen(End(r, steps), n) == ArmedEdges(End(r, steps).edges, n)
    ensures Gen(r, n) <= Gen(End(r, steps), n) && r.edges <= End(r, steps).edges
    decreases |steps|
  {
    if steps != [] {
      hide Apply, Enabled;
      FreeStep(steps[0]);
      StepKept(r, steps[0], n, FREE);
      GenerationCountsArmings(Apply(r, steps[0]), steps[1..], n);
    }
  }

  lemma {:induction false} RunTallies(r: Registry, steps: seq<Step>, n: Name)
    requires Run(r, steps) && Tallied(r, n)
    ensures Tallied(End(r, steps), n) && End(r, steps).open[n] == r.open[n]
    decreases |steps|
  {
    if steps != [] {
      hide Apply, Enabled, Tallied;
      FreeStep(steps[0]);
      StepKept(r, steps[0], n, FREE);
      RunTallies(Apply(r, steps[0]), steps[1..], n);
    }
  }

  /** The Armed edges of an object are numbered 1, 2, 3 if and only if no arming of it
      with a real entry ever starts between another such arming's advance of the
      generation and its report. */
  lemma NumberedIffNeverCrossed(canDefer: bool, steps: seq<Step>, n: Name)
    requires Run(Initial(canDefer), steps)
    ensures Numbered(End(Initial(canDefer), steps).edges, n) <==> n !in End(Initial(canDefer), steps).crossed
  {
    RunTallies(Initial(canDefer), steps, n);
  }

  /** Between two generations of an object its handle changed if and only if the earlier
      one's handle was given back in between: lost, replaced or dropped by a reconnect,
      while the object was at that generation or a later one. */
  lemma GenerationsApartIffGivenBack(canDefer: bool, steps: seq<Step>, n: Name, g: nat, later: nat)
    requires Run(Initial(canDefer), steps) && 1 <= g < later <= Gen(End(Initial(canDefer), steps), n)
    ensures var r := End(Initial(canDefer), steps); var s := Line(r, n);
            && |s| == Gen(r, n)
            && (s[g - 1] != s[later - 1] <==> s[g - 1] in r.ended && r.ended[s[g - 1]].generation < later)
            && (s[g - 1] in r.ended ==> g <= r.ended[s[g - 1]].generation && !r.ended[s[g - 1]].cause.Duplicate?)
  {
    InitialInv(canDefer);
    RunKeepsInv(Initial(canDefer), steps);
    var r := End(Initial(canDefer), steps);
    hide Counted, EndingsOk, EntriesOk, Watched;
    assert LineOk(r, n);
    var s := Line(r, n);
    assert s[g - 1] != s[later - 1] <==> EndedBefore(r, s[g - 1], later - 1 + 1);
  }

  /** So every advance of a generation is the object's first arming, or one more arming on
      the handle of the generation before it, or follows the giving back of that handle. */
  lemma EveryAdvanceExplained(canDefer: bool, steps: seq<Step>, n: Name, g: nat)
    requires Run(Initial(canDefer), steps) && 1 < g <= Gen(End(Initial(canDefer), steps), n)
    ensures var r := End(Initial(canDefer), steps); var s := Line(r, n);
            && |s| == Gen(r, n)
            && if s[g - 2] == s[g - 1] then !EndedBefore(r, s[g - 2], g)
               else s[g - 2] in r.ended && r.ended[s[g - 2]].generation == g - 1 && !r.ended[s[g - 2]].cause.Duplicate?
  {
    GenerationsApartIffGivenBack(canDefer, steps, n, g - 1, g);
  }

  /** An arming with a real entry makes the next generation.  That is on the handle held
      before if and only if it was the one handed over or is still live; and nothing but
      armings is reported meanwhile, whatever callbacks do. */
  lemma ArmingStaysIff(r: Registry, n: Name, obj: Handle, scripts: seq<Script>)
    requires |Line(r, n)| == Gen(r, n) && AnyReal(Named(Adopt(r, n, obj).entries, n))
    ensures var r', g := ArmAgainst(r, n, obj, scripts), Gen(r, n);
            && g < |Line(r', n)| && Line(r, n) <= Line(r', n) && OnlyArmed(r, r')
            && (n in r.handles ==>
                  (Line(r', n)[g] == r.handles[n] <==> obj == r.handles[n] || r.handles[n] in r.valid))
  {
    FreeScripts(scripts);
    ArmKept(r, n, obj, scripts, n, FREE);
    hide *;
    OnlyArmings(r, ArmAgainst(r, n, obj, scripts), n);
    ArmingLines(r, n, obj, scripts);
    AdoptedHandle(r, n, obj);
    NextIs(Line(r, n), Adopt(r, n, obj).handles[n], Line(ArmAgainst(r, n, obj, scripts), n));
  }

  /** When no callback asks for anything, an arming advances its object's generation, with
      the handle kept and no loss reported, if and only if it puts a real entry on the handle
      already held: one still live, or the very one handed over. */
  lemma AdvancesInPlaceIff(r: Registry, n: Name, obj: Handle)
    requires |Line(r, n)| == Gen(r, n)
    ensures var r', g := ArmAgainst(r, n, obj, []), Gen(r, n);
            && OnlyArmed(r, r')
            && (n in r.handles && Gen(r', n) == g + 1 && Line(r', n) == Line(r, n) + [r.handles[n]] <==>
                  && n in r.handles && (obj == r.handles[n] || r.handles[n] in r.valid)
                  && AnyReal(Named(Adopt(r, n, obj).entries, n)))
  {
    hide *;
    PlainArmed(r, n, obj);
    ArmPlainLine(r, n, obj);
    AdoptedHandle(r, n, obj);
    assert (Line(r, n) + [Adopt(r, n, obj).handles[n]])[|Line(r, n)|] == Adopt(r, n, obj).handles[n];
    assert n in r.handles ==> (Line(r, n) + [r.handles[n]])[|Line(r, n)|] == r.handles[n];
  }

  lemma PlainArmed(r: Registry, n: Name, obj: Handle)
    ensures OnlyArmed(r, ArmAgainst(r, n, obj, []))
  {
    hide *;
    FreeScripts([]);
    ArmKept(r, n, obj, [], n, FREE);
    OnlyArmings(r, ArmAgainst(r, n, obj, []), n);
  }

  lemma ArmPlainLine(r: Registry, n: Name, obj: Handle)
    ensures var a, r' := Adopt(r, n, obj), ArmAgainst(r, n, obj, []);
            if AnyReal(Named(a.entries, n)) then Gen(r', n) == Gen(r, n) + 1 && Line(r', n) == Line(r, n) + [a.handles[n]]
            else Gen(r', n) == Gen(r, n) && Line(r', n) == Line(r, n)
  {
    hide Adopt, TakeMatching, AttachAll, Announce, Named, AnyReal, RealIds;
    AdoptFields(r, n, obj);
    var a := Adopt(r, n, obj);
    var h, matched := a.handles[n], Named(a.entries, n);
    TakeFields(a, n);
    var r2 := TakeForArming(a, n, h);
    AttachPlain(r2, h, matched, [], PLAIN);
    AnnounceLines(AttachAll(r2, h, matched, []), n, Rest([], |matched|));
  }

  lemma AnnounceLines(r: Registry, n: Name, scripts: seq<Script>)
    requires scripts == []
    ensures Gen(Announce(r, n, scripts), n) == Gen(r, n) && Line(Announce(r, n, scripts), n) == Line(r, n)
  {
    NothingToRun(Report(r, n, ArmedEdge), scripts);
    hide Callback;
  }

  lemma NextIs(s: seq<Handle>, h: Handle, t: seq<Handle>)
    requires s + [h] <= t
    ensures |s| < |t| && s <= t && t[|s|] == h
  {
    assert t[|s|] == (s + [h])[|s|];
  }

  lemma OnlyArmings(r: Registry, r': Registry, n: Name)
    requires Nested(r, r', n, FREE)
    ensures OnlyArmed(r, r') && Line(r, n) <= Line(r', n)
  {
    hide Tallied;
  }

  lemma AdoptedHandle(r: Registry, n: Name, obj: Handle)
    ensures n in r.handles ==>
              (Adopt(r, n, obj).handles[n] == r.handles[n] <==> obj == r.handles[n] || r.handles[n] in r.valid)
  {
    hide Named, NotNamed, Revived;
    if n in r.handles && StaleFor(r, n, obj) { ReplaceHandles(r, n, obj); }
  }

  lemma ArmingLines(r: Registry, n: Name, obj: Handle, scripts: seq<Script>)
    requires AnyReal(Named(Adopt(r, n, obj).entries, n))
    ensures Line(r, n) + [Adopt(r, n, obj).handles[n]] <= Line(ArmAgainst(r, n, obj, scripts), n)
  {
    hide Adopt, AttachAll, Announce, Named, AnyReal, Kept, TakeMatching;
    AdoptFields(r, n, obj);
    var r1 := Adopt(r, n, obj);
    var h, matched := r1.handles[n], Named(r1.entries, n);
    TakeFields(r1, n);
    var r2 := TakeForArming(r1, n, h);
    FreeScripts(scripts);
    AttachKept(r2, h, matched, scripts, n, FREE);
    var r3 := AttachAll(r2, h, matched, scripts);
    var said := Report(r3, n, ArmedEdge);
    FreeScripts(Rest(scripts, |matched|));
    CallbackKept(said, Rest(scripts, |matched|), n, FREE);
    var r4 := Announce(r3, n, Rest(scripts, |matched|));
    LinesGrow(r2, r3, n);
    assert r4 == Callback(said, Rest(scripts, |matched|)) by { hide *; AnnounceIs(r3, n, Rest(scripts, |matched|)); }
    LinesGrow(said, r4, n);
  }

  lemma AnnounceIs(r: Registry, n: Name, scripts: seq<Script>)
    ensures Announce(r, n, scripts) == Callback(Report(r, n, ArmedEdge), scripts)
  {
  }

  lemma LinesGrow(r: Registry, r': Registry, n: Name)
    requires Kept(r, r', n, FREE)
    ensures Line(r, n) <= Line(r', n)
  {
  }

  lemma {:induction false} PlainRunsNeverCross(r: Registry, steps: seq<Step>, n: Name)
    requires Run(r, steps) && r.open[n] == 0 && n !in r.crossed && forall st :: st in steps ==> PlainStep(st)
    ensures n !in End(r, steps).crossed
    decreases |steps|
  {
    if steps != [] {
      hide Apply, Enabled, Tallied, StepSpares;
      assert PlainStep(steps[0]);
      StepKept(r, steps[0], n, PLAIN);
      PlainRunsNeverCross(Apply(r, steps[0]), steps[1..], n);
    }
  }

  /** While no callback re-enters no two armings of an object cross: Armed edges numbered
      1, 2, 3 stay so, and there are as many as generations. */
  lemma PlainRunsNumberTheirArmings(canDefer: bool, before: seq<Step>, steps: seq<Step>, n: Name)
    requires Run(Initial(canDefer), before) && Run(End(Initial(canDefer), before), steps)
    requires Numbered(End(Initial(canDefer), before).edges, n) && forall st :: st in steps ==> PlainStep(st)
    ensures var r := End(End(Initial(canDefer), before), steps); n !in r.crossed && Orderly(r, n)
  {
    var r := End(Initial(canDefer), before);
    RunTallies(Initial(canDefer), before, n);
    NumberedIffNeverCrossed(canDefer, before, n);
    RunTallies(r, steps, n);
    PlainRunsNeverCross(r, steps, n);
    hide Run, End, Numbered, StepSpares;
  }

  // ------------------------------------------------------- where the promise stops

  // An arming of exactly one real entry, with what its callback does in the middle.
  lemma ArmSingle(r: Registry, n: Name, obj: Handle, e: Entry, scripts: seq<Script>)
    requires |scripts| <= 1 && Adopt(r, n, obj).entries == [e] && e.name == n && !e.readinessOnly
    ensures var r1 := Adopt(r, n, obj);
            var h := r1.handles[n];
            ArmAgainst(r, n, obj, scripts) == EnsureTimer(Report(PutDown(Callback(Midway(r1, n, h, e), scripts), e, h), n, ArmedEdge))
  {
    var r1 := Adopt(r, n, obj);
    var h := r1.handles[n];
    hide Adopt, TakeMatching, InHand, Advance, Tell, Callback, PutDown, Report, EnsureTimer;
    assert [e][1..] == [];
    assert Named(r1.entries, n) == [e] by { assert [e] + [] == [e]; }
    assert e in [e] && RealIds([e]) == {e.id};
    var r2 := TakeForArming(r1, n, h);
    assert AttachAll(r2, h, [e], scripts) == AttachOne(r2, h, e, scripts) by {
      assert AttachAll(AttachOne(r2, h, e, scripts), h, [], Rest(scripts, 1)) == AttachOne(r2, h, e, scripts);
    }
    NothingToRun(Report(AttachOne(r2, h, e, scripts), n, ArmedEdge), Rest(scripts, 1));
  }

  lemma NothingToRun(r: Registry, scripts: seq<Script>)
    requires scripts == []
    ensures Callback(r, scripts) == r
  {
  }

  // What an arming of a single entry has done when the entry's callback is called.
  function Midway(r: Registry, n: Name, h: Handle, e: Entry): Registry {
    Tell(Advance(InHand(TakeMatching(r, n), {e.id}, h), n, h), e.id, true)
  }

  lemma MidwayFields(r: Registry, n: Name, h: Handle, e: Entry)
    requires r.entries == [e] && e.name == n
    ensures var m := Midway(r, n, h, e);
            && m.entries == [] && Gen(m, n) == Gen(r, n) + 1 && Line(m, n) == Line(r, n) + [h]
            && m.edges == r.edges && m.handles == r.handles && m.valid == r.valid && m.released == r.released
            && m.canDefer == r.canDefer && m.acquiring == r.acquiring && m.nextHandle == r.nextHandle && m.ended == r.ended
            && e.id in m.inHand && m.inHand[e.id] == h
  {
    TakenEmpty(r, n, e);
    TakeFrame(r, n);
    hide TakeMatching;
  }

  /** A second subscription to an object that is already live makes the next generation on
      the same handle and reports nothing but armings, although nothing was lost: whatever
      else is pending and whatever callbacks do. */
  lemma SecondSubscriptionLooksLikeARestart(r: Registry, n: Name, event: string, a: Answer, scripts: seq<Script>)
    requires LiveHandle(r, n).Some? && |Line(r, n)| == Gen(r, n)
    ensures var r' := Add(r, n, event, false, a, scripts);
            && Line(r, n) + [r.handles[n]] <= Line(r', n) && OnlyArmed(r, r')
  {
    var r1, h := NewEntry(r, n, event, false), r.handles[n];
    AddOnLive(r, n, event, a, scripts);
    MembersByName(r1.entries, n);
    assert AnyReal(Named(r1.entries, n)) by { assert r1.entries[|r.entries|] in Named(r1.entries, n); }
    hide ArmAgainst, Named, AnyReal, Adopt, Add;
    ArmingStaysIff(r1, n, h, scripts);
    ArmingLines(r1, n, h, scripts);
  }

  // With a live handle, adding is arming at once on that handle.
  lemma AddOnLive(r: Registry, n: Name, event: string, a: Answer, scripts: seq<Script>)
    requires LiveHandle(r, n).Some?
    ensures var r1 := NewEntry(r, n, event, false);
            && Adopt(r1, n, r.handles[n]) == r1
            && Add(r, n, event, false, a, scripts) == ArmAgainst(r1, n, r.handles[n], scripts)
  {
    hide ArmAgainst;
    assert LiveHandle(NewEntry(r, n, event, false), n) == LiveHandle(r, n);
  }

  // The same with nothing else pending and a callback that asks for nothing: one edge.
  lemma SecondSubscriptionAlone(r: Registry, n: Name, event: string, a: Answer)
    requires LiveHandle(r, n).Some? && r.entries == []
    ensures var r' := Add(r, n, event, false, a, []);
            && r'.handles == r.handles && r'.released == r.released && Gen(r', n) == Gen(r, n) + 1
            && r'.edges == r.edges + [Edge(n, ArmedEdge, Gen(r, n) + 1)]
  {
    hide *;
    var e, r1 := Entry(r.nextId, n, event, false, false, 0, None), NewEntry(r, n, event, false);
    AddOnLive(r, n, event, a, []);
    NewAlone(r, n, event);
    OneEdge(r1, n, r.handles[n], e);
  }

  lemma NewAlone(r: Registry, n: Name, event: string)
    requires LiveHandle(r, n).Some? && r.entries == []
    ensures var r1 := NewEntry(r, n, event, false);
            && r1.entries == [Entry(r.nextId, n, event, false, false, 0, None)] && n in r.handles
            && r1.handles == r.handles && r1.released == r.released && Gen(r1, n) == Gen(r, n) && r1.edges == r.edges
  {
  }

  lemma OneEdge(r: Registry, n: Name, h: Handle, e: Entry)
    requires Adopt(r, n, h) == r && r.handles[n] == h && r.entries == [e] && e.name == n && !e.readinessOnly
    ensures var r' := ArmAgainst(r, n, h, []);
            && r'.handles == r.handles && r'.released == r.released && Gen(r', n) == Gen(r, n) + 1
            && r'.edges == r.edges + [Edge(n, ArmedEdge, Gen(r, n) + 1)]
  {
    hide *;
    ArmSingle(r, n, h, e, []);
    var m := Midway(r, n, h, e);
    NothingToRun(m, []);
    MidwayFields(r, n, h, e);
    LastFields(m, n, h, e);
  }

  // How an arming of a single entry ends.
  lemma LastFields(m: Registry, n: Name, h: Handle, e: Entry)
    ensures var r' := EnsureTimer(Report(PutDown(m, e, h), n, ArmedEdge));
            && r'.handles == m.handles && r'.released == m.released && Gen(r', n) == Gen(m, n)
            && r'.edges == m.edges + [Edge(n, ArmedEdge, Gen(m, n))]
  {
  }

  lemma TakenEmpty(r: Registry, n: Name, e: Entry)
    requires r.entries == [e] && e.name == n
    ensures TakeMatching(r, n).entries == []
  {
    assert r.entries[1..] == [];
    assert NotNamed(r.entries, n) == NotNamed(r.entries[1..], n) == [];
  }

  // Subscribing once more, with what the transport would hand over at once.
  function Again(n: Name, event: string, now: Offer): Request {
    AddRequest(n, event, false, Answer(now, false, NoHandle), [])
  }

  lemma AgainFromCallback(r: Registry, q: Request)
    requires q.AddRequest? && !q.readinessOnly
    ensures Callback(r, [Script([q])]) == Add(r, q.name, q.event, false, q.answer, q.scripts)
  {
    hide Add;
    assert RunScript(r, [q]) == RunScript(Perform(r, q), []);
  }

  /** When a subscriber subscribes again from its own callback, the inner arming is
      reported first and both reports carry the later generation: the earlier one is
      never reported. */
  lemma NestedArmingIsNeverTold(r: Registry, n: Name, obj: Handle, e: Entry, event: string)
    requires Adopt(r, n, obj).entries == [e] && e.name == n && !e.readinessOnly
    requires Adopt(r, n, obj).handles[n] in Adopt(r, n, obj).valid
    ensures var g, r' := Gen(r, n), ArmAgainst(r, n, obj, [Script([Again(n, event, NoHandle)])]);
            && Gen(r', n) == g + 2
            && r'.edges == r.edges + [Edge(n, ArmedEdge, g + 2), Edge(n, ArmedEdge, g + 2)]
  {
    hide ArmAgainst, Callback, Add, Adopt, TakeMatching, Advance, InHand;
    var r1 := Adopt(r, n, obj);
    var h := r1.handles[n];
    ArmSingle(r, n, obj, e, [Script([Again(n, event, NoHandle)])]);
    AdoptFields(r, n, obj);
    MidwayFields(r1, n, h, e);
    var told := Midway(r1, n, h, e);
    SecondSubscriptionAlone(told, n, event, Answer(NoHandle, false, NoHandle));
    AgainFromCallback(told, Again(n, event, NoHandle));
  }

  // A first subscription that the transport serves at once.
  lemma FirstAdd(n: Name, ok: bool, scripts: seq<Script>)
    ensures var q := AddRequest(n, "e", false, Answer(NewHandle(ok), false, NoHandle), scripts);
            var r2 := Receive(NewEntry(Initial(true), n, "e", false), n, NewHandle(ok)).0;
            && Run(Initial(true), [Ask(q)]) && End(Initial(true), [Ask(q)]) == ArmAgainst(r2, n, 0, scripts)
            && r2.entries == [Entry(1, n, "e", false, false, 0, None)]
  {
    var q := AddRequest(n, "e", false, Answer(NewHandle(ok), false, NoHandle), scripts);
    var r1 := NewEntry(Initial(true), n, "e", false);
    var r2 := Receive(r1, n, NewHandle(ok)).0;
    hide ArmAgainst;
    assert LiveHandle(r1, n) == None && Receive(r1, n, q.answer.now) == (r2, Some(0));
    assert Chase(r1, n, q.answer, q.scripts) == BeginAcquire(r1, n, q.answer, q.scripts) == (ArmAgainst(r2, n, 0, q.scripts), true);
    assert Perform(Initial(true), q) == Add(Initial(true), n, "e", false, q.answer, q.scripts) == ArmAgainst(r2, n, 0, q.scripts);
    hide Add, Perform;
    assert End(Initial(true), [Ask(q)]) == End(Apply(Initial(true), Ask(q)), []) == Perform(Initial(true), q);
    assert Run(Apply(Initial(true), Ask(q)), []);
  }

  /** Reachable at once: from construction, the first subscriber to do so is told
      generation 2, twice, and its edges are not numbered. */
  lemma FirstArmingCanGoUntold(n: Name)
    ensures var q := AddRequest(n, "e", false, Answer(NewHandle(true), false, NoHandle), [Script([Again(n, "f", NoHandle)])]);
            && Run(Initial(true), [Ask(q)])
            && End(Initial(true), [Ask(q)]).edges == [Edge(n, ArmedEdge, 2), Edge(n, ArmedEdge, 2)]
            && !Numbered(End(Initial(true), [Ask(q)]).edges, n)
  {
    FirstAdd(n, true, [Script([Again(n, "f", NoHandle)])]);
    var r2 := Receive(NewEntry(Initial(true), n, "e", false), n, NewHandle(true)).0;
    NestedArmingIsNeverTold(r2, n, 0, Entry(1, n, "e", false, false, 0, None), "f");
    hide ArmAgainst, Run, End, Numbered;
    TwiceTwo(n);
  }

  lemma TwiceTwo(n: Name)
    ensures !Numbered([Edge(n, ArmedEdge, 2), Edge(n, ArmedEdge, 2)], n)
  {
    var s := [Edge(n, ArmedEdge, 2), Edge(n, ArmedEdge, 2)];
    assert s[..0 + 1] == [s[0]] && s[..1][..0] == [];
    assert ArmedEdges(s[..0 + 1], n) == 1;
  }

  // Subscribing to an object whose handle is stale replaces and releases that handle.
  lemma ReplacedUnder(r: Registry, n: Name, obj: Handle, event: string)
    requires r.canDefer && r.acquiring == {} && n in r.handles && r.handles[n] == obj && obj !in r.valid && obj < r.nextHandle
    ensures var r' := Add(r, n, event, false, Answer(NewHandle(true), false, NoHandle), []);
            n in r'.handles && r'.handles[n] != obj && r'.released[(n, obj)] == r.released[(n, obj)] + 1
  {
    var r1 := NewEntry(r, n, event, false);
    var (r2, h) := Receive(r1, n, NewHandle(true));
    hide ArmAgainst;
    assert Add(r, n, event, false, Answer(NewHandle(true), false, NoHandle), []) == ArmAgainst(r2, n, h.value, []);
    ArmPlainHandles(r2, n, h.value);
    hide Adopt, Revived, Named, NotNamed;
    ReplaceHandles(r2, n, h.value);
  }

  lemma ReplaceHandles(r: Registry, n: Name, obj: Handle)
    requires StaleFor(r, n, obj)
    ensures Adopt(r, n, obj).handles[n] == obj
    ensures Adopt(r, n, obj).released == r.released + multiset{(n, r.handles[n])}
  {
    hide Revived, Named, NotNamed;
  }

  lemma ArmPlainHandles(r: Registry, n: Name, obj: Handle)
    ensures var a, r' := Adopt(r, n, obj), ArmAgainst(r, n, obj, []); r'.handles == a.handles && r'.released == a.released
  {
    hide Adopt, TakeForArming, AttachAll, Announce, Named, AnyReal;
    var a := Adopt(r, n, obj);
    var h, matched := a.handles[n], Named(a.entries, n);
    TakeMoves(a, n, h);
    AttachPlainHandles(TakeForArming(a, n, h), h, matched);
    AnnounceHandles(AttachAll(TakeForArming(a, n, h), h, matched, []), n, Rest([], |matched|));
  }

  lemma AnnounceHandles(r: Registry, n: Name, scripts: seq<Script>)
    requires scripts == []
    ensures Announce(r, n, scripts).handles == r.handles && Announce(r, n, scripts).released == r.released
  {
    NothingToRun(Report(r, n, ArmedEdge), scripts);
    hide Callback;
  }

  lemma AttachOneHandles(r: Registry, h: Handle, e: Entry)
    ensures AttachOne(r, h, e, []).handles == r.handles && AttachOne(r, h, e, []).released == r.released
  {
    hide Callback;
    NothingToRun(Tell(r, e.id, true), []);
    NothingToRun(Depart(Tell(r, e.id, true), e.id, ReadinessAnswered), []);
  }

  lemma {:induction false} AttachPlainHandles(r: Registry, h: Handle, matched: seq<Entry>)
    ensures AttachAll(r, h, matched, []).handles == r.handles && AttachAll(r, h, matched, []).released == r.released
    decreases |matched|
  {
    if matched != [] {
      hide AttachOne;
      AttachOneHandles(r, h, matched[0]);
      AttachPlainHandles(AttachOne(r, h, matched[0], []), h, matched[1..]);
    }
  }

  // An arming on a handle that is already stale, whose callback subscribes again.
  lemma StaleReentry(r: Registry, n: Name, obj: Handle, e: Entry)
    requires r.canDefer && r.acquiring == {} && n !in r.handles && obj !in r.valid && obj < r.nextHandle
    requires r.entries == [e] && e.name == n && !e.readinessOnly
    ensures var r' := ArmAgainst(r, n, obj, [Script([Again(n, "f", NewHandle(true))])]);
            && e.(everArmed := true, at := Some(obj)) in r'.armed
            && n in r'.handles && r'.handles[n] != obj && r'.released[(n, obj)] == r.released[(n, obj)] + 1
  {
    var q := Again(n, "f", NewHandle(true));
    var r1 := Adopt(r, n, obj);
    assert r1 == r.(handles := r.handles[n := obj]);
    ArmSingle(r, n, obj, e, [Script([q])]);
    hide ArmAgainst, Callback, Add, TakeMatching, Advance, InHand;
    MidwayFields(r1, n, obj, e);
    var told := Midway(r1, n, obj, e);
    AgainFromCallback(told, q);
    ReplacedUnder(told, n, obj, "f");
    assert e.(everArmed := true, at := Some(obj)) in PutDown(Callback(told, [Script([q])]), e, obj).armed;
  }

  /** The condition is needed: from construction, a subscriber served with a handle that is
      not valid, which subscribes again from its callback, is left on that handle after it
      was released. */
  lemma StaleReentryDetaches(n: Name)
    ensures var q := AddRequest(n, "e", false, Answer(NewHandle(false), false, NoHandle), [Script([Again(n, "f", NewHandle(true))])]);
            var r := End(Initial(true), [Ask(q)]);
            && Run(Initial(true), [Ask(q)])
            && (exists e :: e in r.armed && e.name == n && e.id in r.undercut && e.at == Some(0))
            && n in r.handles && r.handles[n] != 0 && r.released[(n, 0)] == 1
  {
    var scripts := [Script([Again(n, "f", NewHandle(true))])];
    var q := AddRequest(n, "e", false, Answer(NewHandle(false), false, NoHandle), scripts);
    FirstAdd(n, false, scripts);
    var e := Entry(1, n, "e", false, false, 0, None);
    var r2 := Receive(NewEntry(Initial(true), n, "e", false), n, NewHandle(false)).0;
    StaleReentry(r2, n, 0, e);
    hide ArmAgainst, Run, End;
    HandlesHeldOrReleasedOnce(true, [Ask(q)]);
    assert e.(everArmed := true, at := Some(0)) in End(Initial(true), [Ask(q)]).armed;
  }
}
