/** Whole operations of the deferred-subscription registry: filing a handle, arming an
    object, acquiring, adding, rearming and cancelling, and a script of such requests made
    from inside a callback.  Each keeps the invariants of DeferredSafety although any
    callback it makes may call the registry again, and never takes away from what the
    enclosing operation still relies on. */
module DeferredRuns {
  import opened DeferredSubscriptions
  import opened DeferredSafety
  import opened Wrappers

  // -------------------------------------------------------- operations, nested or not

  // A handle about to be filed: the one held, or one just received.
  ghost predicate Holding(r: Registry, n: Name, obj: Handle, limbo: seq<Entry>) {
    && EntriesOk(r, limbo) && AskedOk(r)
    && ((HandlesOk(r, None) && n in r.handles && r.handles[n] == obj) ||
        (HandlesOk(r, Some(obj)) && obj in r.home && r.home[obj] == n))
  }

  lemma KeptEntries(r: Registry, n: Name, obj: Handle, limbo: seq<Entry>)
    requires EntriesOk(r, limbo) && n !in r.handles
    ensures EntriesOk(r.(handles := r.handles[n := obj]), limbo)
  {
    hide Conserved;
    SameLists(r, r.(handles := r.handles[n := obj]), limbo);
  }

  lemma FileEntries(r: Registry, n: Name, obj: Handle, limbo: seq<Entry>)
    requires EntriesOk(r, limbo)
    ensures EntriesOk(File(r, n, obj), limbo) && n in File(r, n, obj).handles
  {
    hide EntriesOk;
    if n !in r.handles {
      KeptEntries(r, n, obj, limbo);
    } else if r.handles[n] != obj {
      FrameKeeps(r, Release(r, n, obj, Duplicate), limbo);
    }
  }

  lemma StaleKeeps(r: Registry, n: Name, obj: Handle, limbo: seq<Entry>)
    requires Holding(r, n, obj, limbo) && StaleFor(r, n, obj)
    ensures Holding(Forget(ReviveArmed(r, n), n, Replaced), n, obj, limbo)
  {
    hide HandlesOk, EntriesOk;
    var r1 := ReviveArmed(r, n);
    ReviveKeeps(r, n, limbo);
    HandlesFrame(r, r1, Some(obj));
    ForgetKeeps(r1, n, Replaced, limbo);
    ForgetHandles(r1, n, Replaced, Some(obj));
  }

  lemma ReleaseFrame(r: Registry, n: Name, h: Handle, why: Cause)
    ensures var r' := Release(r, n, h, why); r' == r.(released := r'.released, ended := r'.ended)
  {
  }

  lemma FileFrame(r: Registry, n: Name, obj: Handle)
    ensures var r' := File(r, n, obj); r' == r.(handles := r'.handles, released := r'.released, ended := r'.ended)
    ensures forall k :: k in r.handles ==> k in File(r, n, obj).handles && File(r, n, obj).handles[k] == r.handles[k]
  {
    hide Release;
    if n !in r.handles {
      assert File(r, n, obj) == r.(handles := r.handles[n := obj]);
    } else {
      ReleaseFrame(r, n, obj, Duplicate);
    }
  }

  lemma FileKept(r: Registry, n: Name, obj: Handle)
    requires n in r.handles && r.handles[n] == obj
    ensures File(r, n, obj) == r
  {
  }

  lemma FileKeeps(r: Registry, n: Name, obj: Handle, limbo: seq<Entry>)
    requires Holding(r, n, obj, limbo)
    ensures Mid(File(r, n, obj), limbo) && n in File(r, n, obj).handles
  {
    hide HandlesOk, EntriesOk, File;
    FileFrame(r, n, obj);
    FileEntries(r, n, obj, limbo);
    if HandlesOk(r, None) && n in r.handles && r.handles[n] == obj { FileKept(r, n, obj); } else { FileHandles(r, n, obj); }
  }

  // Steps that answer nobody and put nothing down touch nothing in hand.
  lemma Untouched(r: Registry, r': Registry, limbo: seq<Entry>)
    requires r'.told == r.told && r'.inHand == r.inHand && forall k :: k in r.handles ==> k in r'.handles
    ensures SameAnswers(r, r', limbo)
  {
  }

  lemma FileAfter(r0: Registry, r: Registry, n: Name, obj: Handle, limbo: seq<Entry>, pins: map<Name, Handle>)
    requires Holding(r, n, obj, limbo) && Pinned(r, pins) && r.told == r0.told && r.inHand == r0.inHand && Grows(r0, r)
    requires forall k :: k in r0.handles ==> k == n || k in r.handles
    requires forall e :: e in r.armed ==> e in r0.armed
    ensures After(r0, File(r, n, obj), limbo, pins)
  {
    hide Holding, Mid, File;
    FileKeeps(r, n, obj, limbo);
    FileFrame(r, n, obj);
    Untouched(r0, File(r, n, obj), limbo);
    hide SameAnswers;
  }

  lemma AdoptKeeps(r: Registry, n: Name, obj: Handle, limbo: seq<Entry>, pins: map<Name, Handle>)
    requires Holding(r, n, obj, limbo) && Pinned(r, pins)
    ensures After(r, Adopt(r, n, obj), limbo, pins)
  {
    MembersByName(r.armed, n);
    hide EntriesOk, HandlesOk, Holding, Mid, After, File, Named, NotNamed, Revived;
    if StaleFor(r, n, obj) {
      StaleKeeps(r, n, obj, limbo);
      FileAfter(r, Forget(ReviveArmed(r, n), n, Replaced), n, obj, limbo, pins);
    } else {
      FileAfter(r, r, n, obj, limbo, pins);
    }
  }

  lemma ReceiveFrame(r: Registry, n: Name, o: Offer)
    ensures var r' := Receive(r, n, o).0;
            && r' == r.(nextHandle := r'.nextHandle, home := r'.home, valid := r'.valid) && r.valid <= r'.valid
            && (Receive(r, n, o).1.None? ==> r' == r)
  {
  }

  lemma ReceivedHolding(r: Registry, n: Name, o: Offer)
    requires HandlesOk(r, None) && Receive(r, n, o).1.Some?
    ensures var (r', h) := Receive(r, n, o);
            && Grows(r, r')
            && ((HandlesOk(r', None) && n in r'.handles && r'.handles[n] == h.value)
                || (HandlesOk(r', h) && h.value in r'.home && r'.home[h.value] == n))
  {
    hide HandlesOk;
    if o.NewHandle? { ReceivedHandles(r, n, o.isValid); }
  }

  lemma SelfGrows(r: Registry)
    ensures Grows(r, r)
  {
  }

  lemma GrownHome(r: Registry, r': Registry)
    requires Grows(r, r')
    ensures forall h :: h in r.home ==> h in r'.home && r'.home[h] == r.home[h]
  {
  }

  lemma ReceiveKeeps(r: Registry, n: Name, o: Offer, limbo: seq<Entry>, pins: map<Name, Handle>)
    requires Mid(r, limbo) && Pinned(r, pins)
    ensures var (r', h) := Receive(r, n, o);
            && Pinned(r', pins) && SameAnswers(r, r', limbo) && r'.told == r.told && Grows(r, r') && Placed(r, r', pins)
            && (h.None? ==> r' == r) && (h.Some? ==> Holding(r', n, h.value, limbo))
  {
    hide EntriesOk, HandlesOk, Receive, Grows;
    ReceiveFrame(r, n, o);
    if Receive(r, n, o).1.None? { SelfGrows(r); } else { ReceivedHolding(r, n, o); }
    var r' := Receive(r, n, o).0;
    GrownHome(r, r');
    FrameKeeps(r, r', limbo);
    Untouched(r, r', limbo);
    hide SameAnswers;
  }

  // Steps that move no handle and answer nobody.
  lemma Unfelt(r: Registry, r': Registry, limbo: seq<Entry>, limbo': seq<Entry>, pins: map<Name, Handle>)
    requires Mid(r, limbo) && Pinned(r, pins) && EntriesOk(r', limbo')
    requires r'.handles == r.handles && r'.valid == r.valid && SameAnswers(r, r', limbo') && Grows(r, r')
    requires r'.home == r.home && r'.released == r.released && r'.nextHandle == r.nextHandle
    requires r'.ended == r.ended && r'.armedOn == r.armedOn && r'.acquiring == r.acquiring && r'.asked == r.asked
    requires Placed(r, r', pins)
    requires forall n: Name :: TargetOf(r', n).generation == TargetOf(r, n).generation
    ensures After(r, r', limbo', pins)
  {
    HandlesFrame(r, r', None);
    hide EntriesOk, HandlesOk;
  }

  lemma FrameAfter(r: Registry, r': Registry, limbo: seq<Entry>, pins: map<Name, Handle>)
    requires Mid(r, limbo) && Pinned(r, pins) && AskedOk(r')
    requires r' == r.(timerOn := r'.timerOn, interval := r'.interval, acquiring := r'.acquiring, asked := r'.asked,
                      targets := r'.targets, edges := r'.edges, open := r'.open)
    requires forall n: Name :: TargetOf(r', n).generation == TargetOf(r, n).generation
    ensures After(r, r', limbo, pins)
  {
    hide EntriesOk, HandlesOk, SameAnswers;
    FrameKeeps(r, r', limbo);
    HandlesFrame(r, r', None);
    Untouched(r, r', limbo);
  }

  lemma TakeFrame(r: Registry, n: Name)
    ensures var r' := TakeMatching(r, n); r' == r.(entries := r'.entries, timerOn := r'.timerOn)
  {
    hide NotNamed, Named;
  }

  /** An entry of an arming of `n` on `h`: a probe nobody has answered, or a subscription
      in hand on that handle. */
  ghost predicate Fit(r: Registry, n: Name, h: Handle, e: Entry) {
    && e.name == n
    && if e.readinessOnly then e.id !in r.told && e.id !in r.inHand
       else e.id in r.inHand && r.inHand[e.id] == h && n in r.handles
  }

  // What an arming takes out is its own, and nobody else's.
  lemma TakenKeeps(r: Registry, n: Name, h: Handle, limbo: seq<Entry>)
    requires EntriesOk(r, limbo) && Held(r, h)
    ensures EntriesOk(InHand(TakeMatching(r, n), RealIds(Named(r.entries, n)), h), Named(r.entries, n) + limbo)
    ensures forall e :: e in Named(r.entries, n) ==> e.name == n && e.id !in r.inHand && (e.readinessOnly ==> e.id !in r.told)
  {
    hide EntriesOk, TakeMatching;
    TakeKeeps(r, n, limbo);
    TakeFrame(r, n);
    var ids, out := RealIds(Named(r.entries, n)), Named(r.entries, n) + limbo;
    forall id | id in ids ensures exists e :: e in out && e.id == id {
      var e :| e in Named(r.entries, n) && !e.readinessOnly && e.id == id;
      assert e in out;
    }
    InHandKeeps(TakeMatching(r, n), ids, h, out);
  }

  lemma AdvanceKeeps(r: Registry, n: Name, h: Handle, limbo: seq<Entry>)
    requires Mid(r, limbo) && n in r.handles && r.handles[n] == h
    ensures Mid(Advance(r, n, h), limbo)
  {
    AdvancedHandles(r, n, h);
    FrameKeeps(r, Advance(r, n, h), limbo);
  }

  lemma TakeAfter(r: Registry, n: Name, h: Handle, limbo: seq<Entry>, pins: map<Name, Handle>)
    requires Mid(r, limbo) && Pinned(r, pins) && n in r.handles && r.handles[n] == h
    ensures var r', matched := TakeForArming(r, n, h), Named(r.entries, n);
            && Mid(r', matched + limbo) && Pinned(r', pins) && SameAnswers(r, r', limbo) && Grows(r, r') && Placed(r, r', pins)
            && h in r'.home && r'.home[h] == n && forall e :: e in matched ==> Fit(r', n, h, e)
  {
    var matched := Named(r.entries, n);
    var r1, r' := InHand(TakeMatching(r, n), RealIds(matched), h), TakeForArming(r, n, h);
    assert r' == if AnyReal(matched) then Advance(r1, n, h) else r1 by {
      hide Mid, Pinned, InHand, TakeMatching, Advance, RealIds, Named, AnyReal;
    }
    hide *;
    HeldIsHome(r, n, h, limbo);
    TakenMid(r, n, h, limbo);
    TakenStays(r, n, h, pins);
    if AnyReal(matched) {
      AdvanceKeeps(r1, n, h, matched + limbo);
      AdvanceFrame(r, r1, n, h, matched, limbo);
    }
  }

  lemma TakenMid(r: Registry, n: Name, h: Handle, limbo: seq<Entry>)
    requires Mid(r, limbo) && Held(r, h) && n in r.handles && r.handles[n] == h
    ensures var matched := Named(r.entries, n); var r1 := InHand(TakeMatching(r, n), RealIds(matched), h);
            && Mid(r1, matched + limbo) && SameAnswers(r, r1, limbo) && Grows(r, r1) && n in r1.handles && r1.handles[n] == h
            && forall e :: e in matched ==> Fit(r1, n, h, e)
  {
    hide EntriesOk, HandlesOk, Held, Named, TakeMatching, RealIds, SameAnswers, Grows, Fit;
    TakenInHand(r, n, h, limbo);
    TakeFrame(r, n);
    HandlesFrame(r, InHand(TakeMatching(r, n), RealIds(Named(r.entries, n)), h), None);
  }

  // Taking entries out of the pending set moves no handle and puts nothing down.
  predicate SameArming(r: Registry, r': Registry) {
    r'.handles == r.handles && r'.valid == r.valid && r'.home == r.home && r'.released == r.released && r'.armed == r.armed
  }

  lemma AdvanceMoves(r: Registry, n: Name, h: Handle)
    ensures SameArming(r, Advance(r, n, h))
  {
  }

  lemma TakeMoves(r: Registry, n: Name, h: Handle)
    ensures SameArming(r, TakeForArming(r, n, h))
  {
    TakeFrame(r, n);
    AdvanceMoves(InHand(TakeMatching(r, n), RealIds(Named(r.entries, n)), h), n, h);
    hide TakeMatching, Advance, Named, AnyReal, RealIds;
  }

  lemma TakenStays(r: Registry, n: Name, h: Handle, pins: map<Name, Handle>)
    requires Pinned(r, pins) && (h in r.home && r.home[h] == n)
    ensures var r' := TakeForArming(r, n, h); Pinned(r', pins) && Placed(r, r', pins) && h in r'.home && r'.home[h] == n
  {
    TakeMoves(r, n, h);
    hide TakeForArming;
  }

  lemma TakenInHand(r: Registry, n: Name, h: Handle, limbo: seq<Entry>)
    requires EntriesOk(r, limbo) && Held(r, h) && n in r.handles
    ensures var matched := Named(r.entries, n); var r1 := InHand(TakeMatching(r, n), RealIds(matched), h);
            && EntriesOk(r1, matched + limbo) && SameAnswers(r, r1, limbo) && Grows(r, r1)
            && forall e :: e in matched ==> Fit(r1, n, h, e)
  {
    TakenKeeps(r, n, h, limbo);
    LimboIsInNobodysPending(r, n, limbo);
    ProbesAreNotReal(r, n, limbo);
    hide *;
    TakeFrame(r, n);
    TakenApart(r, TakeMatching(r, n), RealIds(Named(r.entries, n)), h, limbo);
    TakenFit(TakeMatching(r, n), n, h, Named(r.entries, n));
  }

  // Taking entries in hand touches nothing that was.
  lemma TakenApart(r: Registry, taken: Registry, ids: set<Id>, h: Handle, limbo: seq<Entry>)
    requires taken == r.(entries := taken.entries, timerOn := taken.timerOn) && forall e :: e in limbo ==> e.id !in ids
    ensures SameAnswers(r, InHand(taken, ids, h), limbo) && Grows(r, InHand(taken, ids, h))
  {
  }

  // Advancing a generation touches nothing in hand.
  lemma AdvanceFrame(r: Registry, r1: Registry, n: Name, h: Handle, matched: seq<Entry>, limbo: seq<Entry>)
    requires SameAnswers(r, r1, limbo) && Grows(r, r1) && forall e :: e in matched ==> Fit(r1, n, h, e)
    ensures var r2 := Advance(r1, n, h); SameAnswers(r, r2, limbo) && Grows(r, r2) && forall e :: e in matched ==> Fit(r2, n, h, e)
  {
  }

  lemma HeldIsHome(r: Registry, n: Name, h: Handle, limbo: seq<Entry>)
    requires Mid(r, limbo) && n in r.handles && r.handles[n] == h
    ensures Held(r, h) && h in r.home && r.home[h] == n
  {
    hide LinesOk, EndingsOk, EntriesOk;
  }

  lemma TakenFit(r: Registry, n: Name, h: Handle, matched: seq<Entry>)
    requires n in r.handles && forall e :: e in matched ==> e.name == n && e.id !in r.inHand && (e.readinessOnly ==> e.id !in r.told)
    requires forall e :: e in matched && e.readinessOnly ==> e.id !in RealIds(matched)
    ensures forall e :: e in matched ==> Fit(InHand(r, RealIds(matched), h), n, h, e)
  {
  }

  lemma ProbesAreNotReal(r: Registry, n: Name, limbo: seq<Entry>)
    requires EntriesOk(r, limbo)
    ensures forall e :: e in Named(r.entries, n) && e.readinessOnly ==> e.id !in RealIds(Named(r.entries, n))
  {
    MembersByName(r.entries, n);
    forall e | e in Named(r.entries, n) && e.readinessOnly ensures e.id !in RealIds(Named(r.entries, n)) {
      assert Places(r, e.id) <= 1;
      if x :| x in Named(r.entries, n) && !x.readinessOnly && x.id == e.id { CountTwo(r.entries, x, e); }
    }
  }

  lemma LimboIsInNobodysPending(r: Registry, n: Name, limbo: seq<Entry>)
    requires EntriesOk(r, limbo)
    ensures forall e :: e in limbo ==> e.id !in RealIds(Named(r.entries, n))
  {
    hide ArmedOk, HeldOk, ToldOk, AnswersOk, InHandOk;
    MembersByName(r.entries, n);
    forall e | e in limbo { LimboIsApart(r, limbo, e); }
  }

  // The entry's own answer is the only one given.
  lemma TellAfter(r: Registry, e: Entry, limbo: seq<Entry>, pins: map<Name, Handle>)
    requires Mid(r, [e] + limbo) && Pinned(r, pins) && !e.readinessOnly
    ensures Mid(Tell(r, e.id, true), [e] + limbo) && Pinned(Tell(r, e.id, true), pins)
    ensures SameAnswers(r, Tell(r, e.id, true), limbo) && Grows(r, Tell(r, e.id, true)) && Placed(r, Tell(r, e.id, true), pins)
  {
    TellKeeps(r, e, [e] + limbo);
    HandlesFrame(r, Tell(r, e.id, true), None);
    LimboApart(r, e, limbo);
  }

  lemma LimboApart(r: Registry, e: Entry, limbo: seq<Entry>)
    requires Conserved(r, [e] + limbo)
    ensures forall x :: x in limbo ==> x.id != e.id
  {
    LimboIsApart(r, [e] + limbo, e);
    CountAppend([e], limbo, e.id);
    forall x | x in limbo ensures x.id != e.id { CountIn(limbo, x); }
  }

  lemma {:induction false} CallbackAfter(r: Registry, scripts: seq<Script>, limbo: seq<Entry>, pins: map<Name, Handle>)
    requires Mid(r, limbo) && Pinned(r, pins)
    ensures After(r, Callback(r, scripts), limbo, pins)
    decreases scripts, 1
  {
    if scripts != [] { ScriptAfter(r, scripts[0].requests, limbo, pins); }
  }

  lemma {:induction false} AttachOneAfter(r: Registry, n: Name, h: Handle, e: Entry, scripts: seq<Script>,
                                          limbo: seq<Entry>, pins: map<Name, Handle>)
    requires Mid(r, [e] + limbo) && Pinned(r, pins) && Fit(r, n, h, e) && h in r.home && r.home[h] == n
    requires n in pins ==> pins[n] == h
    ensures After(r, AttachOne(r, h, e, scripts), limbo, pins)
    decreases scripts, 2
  {
    hide EntriesOk, HandlesOk, Mid, Pinned, SameAnswers, Placed;
    if e.readinessOnly {
      var gone := Depart(Tell(r, e.id, true), e.id, ReadinessAnswered);
      AnsweredAfter(r, e, limbo, pins);
      CallbackAfter(gone, scripts, limbo, pins);
      Onward(r, gone, Callback(gone, scripts), limbo, limbo, pins);
    } else {
      var told := Tell(r, e.id, true);
      TellAfter(r, e, limbo, pins);
      CallbackAfter(told, scripts, [e] + limbo, pins);
      var back := Callback(told, scripts);
      StillFit(told, back, n, h, e, limbo);
      PutDownAfter(back, n, e, h, limbo, pins);
      ChainAnswers(r, told, back, e, limbo);
      PlacedOn(r, told, back, pins);
      Inherit(r, back, PutDown(back, e, h), limbo, pins);
    }
  }

  lemma StillFit(r: Registry, r': Registry, n: Name, h: Handle, e: Entry, limbo: seq<Entry>)
    requires Fit(r, n, h, e) && SameAnswers(r, r', [e] + limbo)
    ensures Fit(r', n, h, e)
  {
    assert e in [e] + limbo;
  }

  lemma AnsweredAfter(r: Registry, e: Entry, limbo: seq<Entry>, pins: map<Name, Handle>)
    requires Mid(r, [e] + limbo) && Pinned(r, pins) && e.id !in r.told && e.id !in r.inHand
    ensures After(r, Depart(Tell(r, e.id, true), e.id, ReadinessAnswered), limbo, pins)
  {
    hide Conserved, ArmedOk, HeldOk, ToldOk, AnswersOk, InHandOk, HandlesOk;
    LimboApart(r, e, limbo);
    assert e.id !in r.gone by { LimboIsApart(r, [e] + limbo, e); }
    AnsweredKeeps(r, e, limbo);
    HandlesFrame(r, Depart(Tell(r, e.id, true), e.id, ReadinessAnswered), None);
  }

  lemma Inherit(r: Registry, r1: Registry, r2: Registry, limbo: seq<Entry>, pins: map<Name, Handle>)
    requires SameAnswers(r, r1, limbo) && Grows(r, r1) && Placed(r, r1, pins) && After(r1, r2, limbo, pins)
    ensures After(r, r2, limbo, pins)
  {
    hide Mid, Pinned;
    PlacedOn(r, r1, r2, pins);
    hide Placed;
  }

  lemma PutDownAfter(r: Registry, n: Name, e: Entry, h: Handle, limbo: seq<Entry>, pins: map<Name, Handle>)
    requires Mid(r, [e] + limbo) && Pinned(r, pins) && !e.readinessOnly && Fit(r, n, h, e) && h in r.home && r.home[h] == n
    requires n in pins ==> pins[n] == h
    ensures After(r, PutDown(r, e, h), limbo, pins)
  {
    hide EntriesOk, HandlesOk, SameAnswers, Pinned, Placed;
    PutDownApart(r, e, h, limbo);
    PutDownPlaced(r, e, h, pins);
    PutDownKeeps(r, e, h, limbo);
    Unfelt(r, PutDown(r, e, h), [e] + limbo, limbo, pins);
  }

  lemma PutDownPlaced(r: Registry, e: Entry, h: Handle, pins: map<Name, Handle>)
    requires e.name in pins ==> pins[e.name] == h
    ensures Placed(r, PutDown(r, e, h), pins)
  {
  }

  lemma PutDownApart(r: Registry, e: Entry, h: Handle, limbo: seq<Entry>)
    requires EntriesOk(r, [e] + limbo)
    ensures SameAnswers(r, PutDown(r, e, h), limbo)
  {
    hide ArmedOk, HeldOk, ToldOk, AnswersOk, InHandOk;
    LimboApart(r, e, limbo);
    hide Conserved;
  }

  lemma ChainAnswers(r: Registry, r1: Registry, r2: Registry, e: Entry, limbo: seq<Entry>)
    requires SameAnswers(r, r1, limbo) && SameAnswers(r1, r2, [e] + limbo)
    ensures SameAnswers(r, r2, limbo)
  {
  }

  lemma {:induction false} AttachAfter(r: Registry, n: Name, h: Handle, matched: seq<Entry>, scripts: seq<Script>,
                                       limbo: seq<Entry>, pins: map<Name, Handle>)
    requires Mid(r, matched + limbo) && Pinned(r, pins) && h in r.home && r.home[h] == n
    requires (n in pins ==> pins[n] == h) && forall e :: e in matched ==> Fit(r, n, h, e)
    ensures After(r, AttachAll(r, h, matched, scripts), limbo, pins)
    decreases scripts, 3, |matched|
  {
    hide Mid, Pinned, After, Fit, AttachOne;
    if matched == [] {
      assert matched + limbo == limbo;
      SelfAfter(r, limbo, pins);
    } else {
      var e, more := matched[0], matched[1..];
      assert matched + limbo == [e] + (more + limbo);
      var r1, r2 := AttachOne(r, h, e, scripts), AttachAll(r, h, matched, scripts);
      assert r2 == AttachAll(r1, h, more, Rest(scripts, 1));
      hide *;
      AttachOneAfter(r, n, h, e, scripts, more + limbo, pins);
      StepsOn(r, r1, n, h, more, limbo, pins);
      AttachAfter(r1, n, h, more, Rest(scripts, 1), limbo, pins);
      Onward(r, r1, r2, more + limbo, limbo, pins);
    }
  }

  lemma SelfAfter(r: Registry, limbo: seq<Entry>, pins: map<Name, Handle>)
    requires Mid(r, limbo) && Pinned(r, pins)
    ensures After(r, r, limbo, pins)
  {
    hide Mid, Pinned;
  }

  lemma StepsOn(r: Registry, r': Registry, n: Name, h: Handle, more: seq<Entry>, limbo: seq<Entry>, pins: map<Name, Handle>)
    requires After(r, r', more + limbo, pins) && h in r.home && r.home[h] == n
    requires forall e :: e in more ==> Fit(r, n, h, e)
    ensures Mid(r', more + limbo) && Pinned(r', pins) && h in r'.home && r'.home[h] == n
    ensures forall e :: e in more ==> Fit(r', n, h, e)
  {
    hide Mid, Pinned;
    AllStillFit(r, r', n, h, more, limbo);
  }

  lemma AllStillFit(r: Registry, r': Registry, n: Name, h: Handle, more: seq<Entry>, limbo: seq<Entry>)
    requires SameAnswers(r, r', more + limbo) && forall e :: e in more ==> Fit(r, n, h, e)
    ensures forall e :: e in more ==> Fit(r', n, h, e)
  {
    forall e | e in more ensures Fit(r', n, h, e) { assert e in more + limbo; }
  }

  lemma FiledShape(r: Registry, n: Name, obj: Handle, scripts: seq<Script>)
    ensures var r1 := Adopt(r, n, obj);
            var h, matched := r1.handles[n], Named(r1.entries, n);
            var r3 := AttachAll(TakeForArming(r1, n, h), h, matched, scripts);
            ArmAgainst(r, n, obj, scripts)
            == EnsureTimer(if AnyReal(matched) then Callback(Report(r3, n, ArmedEdge), Rest(scripts, |matched|)) else r3)
  {
    hide Adopt, TakeForArming, AttachAll, Report, Callback, Named, AnyReal, EnsureTimer;
  }

  lemma PinnedIs(r: Registry, n: Name, pins: map<Name, Handle>)
    requires Pinned(r, pins)
    ensures n in pins ==> n in r.handles && pins[n] == r.handles[n]
  {
  }

  // An arming once its handle is filed: everything taken is put down,
  lemma {:induction false} AllPlacedAfter(r: Registry, n: Name, h: Handle, scripts: seq<Script>,
                                          limbo: seq<Entry>, pins: map<Name, Handle>)
    requires Mid(r, limbo) && Pinned(r, pins) && n in r.handles && r.handles[n] == h
    ensures After(r, AttachAll(TakeForArming(r, n, h), h, Named(r.entries, n), scripts), limbo, pins)
    decreases scripts, 4
  {
    hide *;
    PinnedIs(r, n, pins);
    TakeAfter(r, n, h, limbo, pins);
    var r2, matched := TakeForArming(r, n, h), Named(r.entries, n);
    AttachAfter(r2, n, h, matched, scripts, limbo, pins);
    Inherit(r, r2, AttachAll(r2, h, matched, scripts), limbo, pins);
  }

  // and then told.
  lemma {:induction false} ToldAfter(r: Registry, r1: Registry, n: Name, scripts: seq<Script>,
                                     limbo: seq<Entry>, pins: map<Name, Handle>)
    requires After(r, r1, limbo, pins)
    ensures After(r, Callback(Report(r1, n, ArmedEdge), scripts), limbo, pins)
    decreases scripts, 4
  {
    hide *;
    var said := Report(r1, n, ArmedEdge);
    var r2 := Callback(said, scripts);
    OnAgain(r, r1, limbo, pins);
    ReportAfter(r1, n, ArmedEdge, limbo, pins);
    OnAgain(r1, said, limbo, pins);
    CallbackAfter(said, scripts, limbo, pins);
    Onward(r1, said, r2, limbo, limbo, pins);
    Onward(r, r1, r2, limbo, limbo, pins);
  }

  lemma {:induction false} FiledAfter(r: Registry, r1: Registry, n: Name, obj: Handle, scripts: seq<Script>,
                                      limbo: seq<Entry>, pins: map<Name, Handle>)
    requires r1 == Adopt(r, n, obj) && Mid(r1, limbo) && Pinned(r1, pins)
    ensures After(r1, ArmAgainst(r, n, obj, scripts), limbo, pins)
    decreases scripts, 5
  {
    FiledShape(r, n, obj, scripts);
    hide Mid, Pinned, After, Adopt, TakeForArming, AttachAll, Report, Callback, AnyReal, EnsureTimer, Named, ArmAgainst;
    var h, matched := r1.handles[n], Named(r1.entries, n);
    var r3 := AttachAll(TakeForArming(r1, n, h), h, matched, scripts);
    AllPlacedAfter(r1, n, h, scripts, limbo, pins);
    ToldAfter(r1, r3, n, Rest(scripts, |matched|), limbo, pins);
    var r4 := if AnyReal(matched) then Callback(Report(r3, n, ArmedEdge), Rest(scripts, |matched|)) else r3;
    OnAgain(r1, r4, limbo, pins);
    TimerAfter(r4, limbo, pins);
    Onward(r1, r4, EnsureTimer(r4), limbo, limbo, pins);
  }

  lemma OnAgain(r: Registry, r': Registry, limbo: seq<Entry>, pins: map<Name, Handle>)
    requires After(r, r', limbo, pins)
    ensures Mid(r', limbo) && Pinned(r', pins)
  {
    hide Mid, Pinned;
  }

  lemma ReportAfter(r: Registry, n: Name, kind: EdgeKind, limbo: seq<Entry>, pins: map<Name, Handle>)
    requires Mid(r, limbo) && Pinned(r, pins)
    ensures After(r, Report(r, n, kind), limbo, pins)
  {
    hide EntriesOk, HandlesOk, Pinned, After;
    FrameAfter(r, Report(r, n, kind), limbo, pins);
  }

  lemma TimerAfter(r: Registry, limbo: seq<Entry>, pins: map<Name, Handle>)
    requires Mid(r, limbo) && Pinned(r, pins)
    ensures After(r, EnsureTimer(r), limbo, pins) && After(r, RescheduleOrStop(r), limbo, pins)
  {
    hide EntriesOk, HandlesOk, Pinned, After, NextTimer;
    FrameAfter(r, EnsureTimer(r), limbo, pins);
    FrameAfter(r, RescheduleOrStop(r), limbo, pins);
  }

  lemma {:induction false} ArmAfter(r: Registry, n: Name, obj: Handle, scripts: seq<Script>,
                                    limbo: seq<Entry>, pins: map<Name, Handle>)
    requires Holding(r, n, obj, limbo) && Pinned(r, pins)
    ensures After(r, ArmAgainst(r, n, obj, scripts), limbo, pins)
    decreases scripts, 6
  {
    hide *;
    AdoptKeeps(r, n, obj, limbo, pins);
    OnAgain(r, Adopt(r, n, obj), limbo, pins);
    FiledAfter(r, Adopt(r, n, obj), n, obj, scripts, limbo, pins);
    Onward(r, Adopt(r, n, obj), ArmAgainst(r, n, obj, scripts), limbo, limbo, pins);
  }

  // An acquisition arms with a handle received, or asks for one at most.
  lemma AcquireShape(r: Registry, n: Name, a: Answer, scripts: seq<Script>) returns (o: Offer)
    ensures var (r1, h), r' := Receive(r, n, o), BeginAcquire(r, n, a, scripts).0;
            if h.Some? then r' == ArmAgainst(r1, n, h.value, scripts) else r' == r || r' == AskFor(r, n)
  {
    hide Receive, ArmAgainst, AskFor;
    var first := if r.canDefer && n !in r.acquiring then a.now else NoHandle;
    o := if Receive(r, n, first).1.Some? || r.canDefer then first else a.lookup;
  }

  lemma {:induction false} AcquireAfter(r: Registry, n: Name, a: Answer, scripts: seq<Script>,
                                        limbo: seq<Entry>, pins: map<Name, Handle>)
    requires Mid(r, limbo) && Pinned(r, pins)
    ensures After(r, BeginAcquire(r, n, a, scripts).0, limbo, pins)
    decreases scripts, 7
  {
    var o := AcquireShape(r, n, a, scripts);
    hide *;
    ReceiveKeeps(r, n, o, limbo, pins);
    var (r1, h) := Receive(r, n, o);
    if h.Some? {
      ArmAfter(r1, n, h.value, scripts, limbo, pins);
      Inherit(r, r1, ArmAgainst(r1, n, h.value, scripts), limbo, pins);
    } else {
      SelfAfter(r, limbo, pins);
      AskAfter(r, n, limbo, pins);
    }
  }

  lemma AskAfter(r: Registry, n: Name, limbo: seq<Entry>, pins: map<Name, Handle>)
    requires Mid(r, limbo) && Pinned(r, pins)
    ensures After(r, AskFor(r, n), limbo, pins)
  {
    hide EntriesOk, HandlesOk, Pinned, After;
    FrameAfter(r, AskFor(r, n), limbo, pins);
  }

  lemma {:induction false} ChaseAfter(r: Registry, n: Name, a: Answer, scripts: seq<Script>,
                                      limbo: seq<Entry>, pins: map<Name, Handle>)
    requires Mid(r, limbo) && Pinned(r, pins)
    ensures After(r, Chase(r, n, a, scripts).0, limbo, pins)
    decreases scripts, 8
  {
    hide EntriesOk, HandlesOk, Pinned, After;
    var live := LiveHandle(r, n);
    if live.Some? {
      ArmAfter(r, n, live.value, scripts, limbo, pins);
    } else {
      AcquireAfter(r, n, a, scripts, limbo, pins);
    }
  }

  lemma CancelGrows(r: Registry, id: Id, limbo: seq<Entry>)
    requires EntriesOk(r, limbo)
    ensures Grows(r, Cancel(r, id))
  {
    hide Conserved, ArmedOk, HeldOk, ToldOk, AnswersOk, InHandOk, Has, DropPending, DropArmed, DropHeld;
    PresentIsNotGone(r, id, limbo);
    DropFrame(r, id);
  }

  lemma CancelArmed(r: Registry, id: Id)
    ensures forall e :: e in Cancel(r, id).armed ==> e in r.armed
  {
    WithoutMembers(r.armed, id);
    DropFrame(r, id);
    hide Has, Without, DropPending, DropHeld;
  }

  lemma CancelAfter(r: Registry, id: Id, limbo: seq<Entry>, pins: map<Name, Handle>)
    requires Mid(r, limbo) && Pinned(r, pins)
    ensures After(r, Cancel(r, id), limbo, pins)
  {
    hide EntriesOk, HandlesOk, Pinned, SameAnswers, Cancel;
    CancelKeeps(r, id, limbo);
    CancelFrame(r, id);
    CancelArmed(r, id);
    Untouched(r, Cancel(r, id), limbo);
    CancelGrows(r, id, limbo);
    Unfelt(r, Cancel(r, id), limbo, limbo, pins);
  }

  lemma PolicyAfter(r: Registry, n: Name, p: Policy, limbo: seq<Entry>, pins: map<Name, Handle>)
    requires Mid(r, limbo) && Pinned(r, pins)
    ensures After(r, SetPolicy(r, n, p), limbo, pins)
  {
    hide EntriesOk, HandlesOk, Pinned, After;
    FrameAfter(r, SetPolicy(r, n, p), limbo, pins);
  }

  lemma {:induction false} PerformAfter(r: Registry, q: Request, limbo: seq<Entry>, pins: map<Name, Handle>)
    requires Mid(r, limbo) && Pinned(r, pins)
    ensures After(r, Perform(r, q), limbo, pins)
    decreases q, 0
  {
    hide Mid, Pinned, After, Add, Cancel, Rearm, SetPolicy;
    match q
    case AddRequest(n, event, ready, a, scripts) => AddAfter(r, n, event, ready, a, scripts, limbo, pins);
    case CancelRequest(id) => CancelAfter(r, id, limbo, pins);
    case RearmRequest(n, a, scripts) => RearmAfter(r, n, a, scripts, limbo, pins);
    case PolicyRequest(n, p) => PolicyAfter(r, n, p, limbo, pins);
  }

  lemma NewAfter(r: Registry, n: Name, event: string, ready: bool, limbo: seq<Entry>, pins: map<Name, Handle>)
    requires Mid(r, limbo) && Pinned(r, pins)
    ensures After(r, NewEntry(r, n, event, ready), limbo, pins)
  {
    hide EntriesOk, HandlesOk;
    NewKeeps(r, n, event, ready, limbo);
    Unfelt(r, NewEntry(r, n, event, ready), limbo, limbo, pins);
  }

  lemma UnholdAfter(r: Registry, n: Name, limbo: seq<Entry>, pins: map<Name, Handle>)
    requires Mid(r, limbo) && Pinned(r, pins)
    ensures After(r, Unhold(r, n), limbo, pins)
  {
    hide EntriesOk, HandlesOk, Named, NotNamed, Revived;
    UnholdKeeps(r, n, limbo);
    Unfelt(r, Unhold(r, n), limbo, limbo, pins);
  }

  lemma {:induction false} AddAfter(r: Registry, n: Name, event: string, ready: bool, a: Answer, scripts: seq<Script>,
                                    limbo: seq<Entry>, pins: map<Name, Handle>)
    requires Mid(r, limbo) && Pinned(r, pins)
    ensures After(r, Add(r, n, event, ready, a, scripts), limbo, pins)
    decreases scripts, 10
  {
    hide Mid, Pinned, After, NewEntry, Chase, EnsureTimer;
    NewAfter(r, n, event, ready, limbo, pins);
    ChaseThenTimer(r, NewEntry(r, n, event, ready), n, a, scripts, limbo, pins);
  }

  lemma {:induction false} RearmAfter(r: Registry, n: Name, a: Answer, scripts: seq<Script>,
                                      limbo: seq<Entry>, pins: map<Name, Handle>)
    requires Mid(r, limbo) && Pinned(r, pins)
    ensures After(r, Rearm(r, n, a, scripts), limbo, pins)
    decreases scripts, 10
  {
    hide Mid, Pinned, After, Unhold, Chase, EnsureTimer;
    if Named(r.held, n) != [] {
      UnholdAfter(r, n, limbo, pins);
      ChaseThenTimer(r, Unhold(r, n), n, a, scripts, limbo, pins);
    } else {
      SelfAfter(r, limbo, pins);
    }
  }

  lemma {:induction false} ChaseThenTimer(r: Registry, r1: Registry, n: Name, a: Answer, scripts: seq<Script>,
                                          limbo: seq<Entry>, pins: map<Name, Handle>)
    requires After(r, r1, limbo, pins)
    ensures After(r, Chase(r1, n, a, scripts).0, limbo, pins)
    ensures After(r, EnsureTimer(Chase(r1, n, a, scripts).0), limbo, pins)
    decreases scripts, 9
  {
    hide *;
    var r2 := Chase(r1, n, a, scripts).0;
    OnAgain(r, r1, limbo, pins);
    ChaseAfter(r1, n, a, scripts, limbo, pins);
    Onward(r, r1, r2, limbo, limbo, pins);
    OnAgain(r, r2, limbo, pins);
    TimerAfter(r2, limbo, pins);
    Onward(r, r2, EnsureTimer(r2), limbo, limbo, pins);
  }

  lemma {:induction false} ScriptAfter(r: Registry, requests: seq<Request>, limbo: seq<Entry>, pins: map<Name, Handle>)
    requires Mid(r, limbo) && Pinned(r, pins)
    ensures After(r, RunScript(r, requests), limbo, pins)
    decreases requests, 0
  {
    if requests == [] {
      SelfAfter(r, limbo, pins);
    } else {
      var r1, r2 := Perform(r, requests[0]), RunScript(r, requests);
      assert r2 == RunScript(r1, requests[1..]);
      hide *;
      PerformAfter(r, requests[0], limbo, pins);
      OnAgain(r, r1, limbo, pins);
      ScriptAfter(r1, requests[1..], limbo, pins);
      Onward(r, r1, r2, limbo, limbo, pins);
    }
  }
}
