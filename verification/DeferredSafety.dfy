/** What every operation of the deferred-subscription registry keeps, through every
    re-entrant callback: ids are conserved, armed entries hang on the handle held for
    their object, and each handle is either held or released once.

    The invariants are stated here, with how each vector and each map they speak of
    changes under the small updates the operations are made of; DeferredRuns puts the
    updates together. */
module DeferredSafety {
  import opened DeferredSubscriptions
  import opened Wrappers

  // --------------------------------------------------------------- entry vectors

  function Count(s: seq<Entry>, id: Id): nat {
    if s == [] then 0 else (if s[0].id == id then 1 else 0) + Count(s[1..], id)
  }

  lemma {:induction false} CountAppend(a: seq<Entry>, b: seq<Entry>, id: Id)
    ensures Count(a + b, id) == Count(a, id) + Count(b, id)
  {
    if a == [] {
      assert a + b == b;
    } else {
      assert (a + b)[1..] == a[1..] + b;
      CountAppend(a[1..], b, id);
    }
  }

  lemma {:induction false} CountIn(s: seq<Entry>, e: Entry)
    requires e in s
    ensures Count(s, e.id) >= 1
  {
    if e != s[0] { CountIn(s[1..], e); }
  }

  lemma {:induction false} CountHas(s: seq<Entry>, id: Id)
    ensures Has(s, id) <==> Count(s, id) >= 1
  {
    if s != [] {
      CountHas(s[1..], id);
      assert s == [s[0]] + s[1..];
    }
  }

  lemma {:induction false} CountTwo(s: seq<Entry>, x: Entry, y: Entry)
    requires x in s && y in s && x != y && x.id == y.id
    ensures Count(s, x.id) >= 2
  {
    assert s == [s[0]] + s[1..];
    if s[0] == x {
      CountIn(s[1..], y);
    } else if s[0] == y {
      CountIn(s[1..], x);
    } else {
      CountTwo(s[1..], x, y);
    }
  }

  lemma {:induction false} SplitCount(s: seq<Entry>, n: Name, id: Id)
    ensures Count(Named(s, n), id) + Count(NotNamed(s, n), id) == Count(s, id)
  {
    if s != [] {
      SplitCount(s[1..], n, id);
      CountAppend([s[0]], Named(s[1..], n), id);
      CountAppend([s[0]], NotNamed(s[1..], n), id);
    }
  }

  lemma {:induction false} PolicyCount(r: Registry, s: seq<Entry>, id: Id)
    ensures Count(OfPolicy(r, s, true), id) + Count(OfPolicy(r, s, false), id) == Count(s, id)
  {
    if s != [] {
      PolicyCount(r, s[1..], id);
      CountAppend([s[0]], OfPolicy(r, s[1..], true), id);
      CountAppend([s[0]], OfPolicy(r, s[1..], false), id);
    }
  }

  lemma {:induction false} RevivedCount(s: seq<Entry>, restart: bool, id: Id)
    ensures Count(Revived(s, restart), id) == Count(s, id)
  {
    if s != [] {
      RevivedCount(s[1..], restart, id);
      CountAppend([if restart then s[0].(warn := 0) else s[0]], Revived(s[1..], restart), id);
    }
  }

  lemma {:induction false} WarnedCount(s: seq<Entry>, age: map<Id, nat>, id: Id)
    ensures Count(Warned(s, age), id) == Count(s, id)
  {
    if s != [] {
      WarnedCount(s[1..], age, id);
      assert Warned(s, age)[1..] == Warned(s[1..], age);
    }
  }

  lemma {:induction false} WithoutCount(s: seq<Entry>, id: Id, x: Id)
    ensures Count(s, x) == Count(Without(s, id), x) + if Has(s, id) && x == id then 1 else 0
  {
    if s != [] {
      assert s == [s[0]] + s[1..];
      if s[0].id != id {
        WithoutCount(s[1..], id, x);
        assert Has(s, id) <==> Has(s[1..], id);
        CountAppend([s[0]], Without(s[1..], id), x);
      }
    }
  }

  lemma {:induction false} MembersByName(s: seq<Entry>, n: Name)
    ensures forall e :: e in Named(s, n) <==> e in s && e.name == n
    ensures forall e :: e in NotNamed(s, n) <==> e in s && e.name != n
  {
    if s != [] {
      MembersByName(s[1..], n);
      assert s == [s[0]] + s[1..];
    }
  }

  lemma {:induction false} MembersByPolicy(r: Registry, s: seq<Entry>, m: bool)
    ensures forall e :: e in OfPolicy(r, s, m) <==> e in s && IsManual(r, e.name) == m
  {
    if s != [] {
      MembersByPolicy(r, s[1..], m);
      assert s == [s[0]] + s[1..];
    }
  }

  lemma {:induction false} RevivedReal(s: seq<Entry>, restart: bool)
    requires forall o :: o in s ==> !o.readinessOnly
    ensures forall e :: e in Revived(s, restart) ==> !e.readinessOnly
  {
    if s != [] { RevivedReal(s[1..], restart); }
  }

  lemma {:induction false} WarnedSame(s: seq<Entry>, age: map<Id, nat>)
    ensures |Warned(s, age)| == |s|
    ensures forall i :: 0 <= i < |s| ==> Warned(s, age)[i] == s[i].(warn := Warned(s, age)[i].warn) && Warned(s, age)[i].warn >= s[i].warn
  {
    if s != [] {
      WarnedSame(s[1..], age);
      assert Warned(s, age)[1..] == Warned(s[1..], age);
      forall i | 0 <= i < |s|
        ensures Warned(s, age)[i] == s[i].(warn := Warned(s, age)[i].warn) && Warned(s, age)[i].warn >= s[i].warn
      {
        if i > 0 { assert Warned(s, age)[i] == Warned(s[1..], age)[i - 1] && s[i] == s[1..][i - 1]; }
      }
    }
  }

  lemma {:induction false} WithoutMembers(s: seq<Entry>, id: Id)
    ensures |Without(s, id)| <= |s|
    ensures forall e :: e in Without(s, id) ==> e in s
    ensures forall e :: e in s && e.id != id ==> e in Without(s, id)
  {
    if s != [] {
      assert s == [s[0]] + s[1..];
      if s[0].id != id { WithoutMembers(s[1..], id); }
    }
  }

  // ------------------------------------------------------------------- invariants

  function Places(r: Registry, id: Id): nat {
    Count(r.entries, id) + Count(r.armed, id) + Count(r.held, id) + if id in r.gone then 1 else 0
  }

  /** Every id ever issued is in exactly one place; `limbo` holds the entries an
      operation in progress has taken out and not yet put down. */
  ghost predicate Conserved(r: Registry, limbo: seq<Entry>) {
    && r.nextId >= 1
    && forall id: Id :: Places(r, id) + Count(limbo, id) == if 1 <= id < r.nextId then 1 else 0
  }

  /** An armed entry is on the handle held for its object, but for one whose handle was
      given back while its arming still had it in hand. */
  ghost predicate ArmedOk(r: Registry) {
    forall e :: e in r.armed ==>
      && !e.readinessOnly && e.everArmed && e.at.Some? && e.name in r.handles
      && (e.at == Some(r.handles[e.name]) <==> e.id !in r.undercut)
  }

  ghost predicate Held(r: Registry, h: Handle) {
    h in r.home && r.home[h] in r.handles && r.handles[r.home[h]] == h
  }

  /** What is in hand belongs to an arming in progress; its handle is the one held, or
      was given back and the entry is undercut. */
  ghost predicate InHandOk(r: Registry, limbo: seq<Entry>) {
    forall id :: id in r.inHand ==>
      && (exists e :: e in limbo && e.id == id)
      && (if id in r.undercut then r.inHand[id] in r.ended else Held(r, r.inHand[id]))
  }

  ghost predicate HeldOk(r: Registry) {
    forall e :: e in r.held ==> !e.readinessOnly && e.everArmed
  }

  ghost predicate ToldOk(r: Registry) {
    && (forall e :: e in r.entries && e.readinessOnly ==> e.id !in r.told)
    && (forall id :: id in r.told ==> id < r.nextId)
    && (forall id :: id in r.gone && r.gone[id].ReadinessAnswered? ==> id in r.told && r.told[id] == [true])
  }

  // "No" is said once, last, and exactly to the abandoned.
  ghost predicate AnswersOk(r: Registry) {
    && (forall id :: id in r.gone && r.gone[id].Abandoned? ==> id in r.told && r.told[id] != [] && !r.told[id][|r.told[id]| - 1])
    && (forall id, i :: id in r.told && 0 <= i < |r.told[id]| && !r.told[id][i] ==>
          i == |r.told[id]| - 1 && id in r.gone && r.gone[id].Abandoned?)
  }

  function HeldNow(r: Registry, n: Name, h: Handle): nat {
    if n in r.handles && r.handles[n] == h then 1 else 0
  }

  // Whether a handle had been given back before its object reached generation `g`.
  predicate EndedBefore(r: Registry, h: Handle, g: nat) {
    h in r.ended && r.ended[h].generation < g
  }

  /** The handles of an object's generations: two generations are on different handles
      exactly when the earlier one's was given back in between. */
  ghost predicate LineOk(r: Registry, n: Name) {
    var s := Line(r, n);
    && TargetOf(r, n).generation == |s|
    && (forall i :: 0 <= i < |s| ==>
          && s[i] in r.home && r.home[s[i]] == n
          && (s[i] in r.ended ==> i < r.ended[s[i]].generation <= |s| && !r.ended[s[i]].cause.Duplicate?))
    && (forall i, j :: 0 <= i < j < |s| ==> (s[i] != s[j] <==> EndedBefore(r, s[i], j + 1)))
  }

  /** A handle received is the one held for its object or has been released once;
      `hand` is one just received and not yet filed. */
  ghost predicate Counted(r: Registry, hand: Option<Handle>) {
    && (forall n :: n in r.handles ==> r.handles[n] in r.home && r.home[r.handles[n]] == n)
    && (forall h :: h in r.home ==> h < r.nextHandle)
    && (forall h :: h in r.home ==>
          HeldNow(r, r.home[h], h) + r.released[(r.home[h], h)] == if hand == Some(h) then 0 else 1)
    && (forall p :: p in r.released ==> p.1 in r.home && r.home[p.1] == p.0)
  }

  ghost predicate EndingsOk(r: Registry) {
    forall h :: h in r.ended <==> h in r.home && (r.home[h], h) in r.released
  }

  // No generation is on a handle that has not been filed yet.
  ghost predicate LinesOk(r: Registry, hand: Option<Handle>) {
    forall n: Name :: LineOk(r, n) && (hand.Some? ==> hand.value !in Line(r, n))
  }

  ghost predicate HandlesOk(r: Registry, hand: Option<Handle>) {
    Counted(r, hand) && EndingsOk(r) && LinesOk(r, hand)
  }

  ghost predicate EntriesOk(r: Registry, limbo: seq<Entry>) {
    Conserved(r, limbo) && ArmedOk(r) && HeldOk(r) && ToldOk(r) && AnswersOk(r) && InHandOk(r, limbo)
  }

  // What is marked as being acquired has an acquire the transport may still answer.
  ghost predicate AskedOk(r: Registry) {
    forall n :: n in r.acquiring ==> n in r.asked
  }

  ghost predicate Mid(r: Registry, limbo: seq<Entry>) {
    EntriesOk(r, limbo) && HandlesOk(r, None) && AskedOk(r)
  }

  // Handles that operations in progress further out rely on.
  ghost predicate Pinned(r: Registry, pins: map<Name, Handle>) {
    forall n :: n in pins ==> n in r.handles && r.handles[n] == pins[n] && pins[n] in r.valid
  }

  /** What others have in hand: not answered, on the same handle, and for an object some
      handle is still held for. */
  ghost predicate SameAnswers(r: Registry, r': Registry, limbo: seq<Entry>) {
    forall e :: e in limbo ==>
      && (e.id in r.told <==> e.id in r'.told) && (e.id in r.told ==> r'.told[e.id] == r.told[e.id])
      && (e.id in r.inHand <==> e.id in r'.inHand)
      && (e.id in r.inHand ==>
            && r'.inHand[e.id] == r.inHand[e.id]
            && (e.name in r.handles ==> e.name in r'.handles))
  }

  /** Ids are only ever issued, an id that left stays gone for the same reason, and a
      handle is always the same object's. */
  ghost predicate Grows(r: Registry, r': Registry) {
    && r.nextId <= r'.nextId
    && (forall id :: id in r.gone ==> id in r'.gone && r'.gone[id] == r.gone[id])
    && (forall h :: h in r.home ==> h in r'.home && r'.home[h] == r.home[h])
  }

  // What a pinned object's arming puts down meanwhile goes on the pinned handle.
  ghost predicate Placed(r: Registry, r': Registry, pins: map<Name, Handle>) {
    forall e :: e in r'.armed && e.name in pins ==> e in r.armed || e.at == Some(pins[e.name])
  }

  // What a step leaves behind for whoever it was nested in.
  ghost predicate After(r: Registry, r': Registry, limbo: seq<Entry>, pins: map<Name, Handle>) {
    Mid(r', limbo) && Pinned(r', pins) && SameAnswers(r, r', limbo) && Grows(r, r') && Placed(r, r', pins)
  }

  lemma Onward(r: Registry, r1: Registry, r2: Registry, limbo1: seq<Entry>, limbo: seq<Entry>, pins: map<Name, Handle>)
    requires After(r, r1, limbo1, pins) && After(r1, r2, limbo, pins) && forall e :: e in limbo ==> e in limbo1
    ensures After(r, r2, limbo, pins)
  {
    hide Mid, Pinned;
    PlacedOn(r, r1, r2, pins);
    hide Placed;
  }

  lemma PlacedOn(r: Registry, r1: Registry, r2: Registry, pins: map<Name, Handle>)
    requires Placed(r, r1, pins) && Placed(r1, r2, pins)
    ensures Placed(r, r2, pins)
  {
  }

  lemma LimboIsApart(r: Registry, limbo: seq<Entry>, e: Entry)
    requires Conserved(r, limbo) && e in limbo
    ensures Count(limbo, e.id) == 1 && 1 <= e.id < r.nextId && e.id !in r.gone
    ensures forall x :: x in r.entries || x in r.armed || x in r.held ==> x.id != e.id
  {
    CountIn(limbo, e);
    assert Places(r, e.id) + Count(limbo, e.id) == 1;
    forall x | x in r.entries || x in r.armed || x in r.held ensures x.id != e.id {
      if x in r.entries { CountIn(r.entries, x); }
      if x in r.armed { CountIn(r.armed, x); }
      if x in r.held { CountIn(r.held, x); }
    }
  }

  // --------------------------------------------------------------------- handles

  lemma LineFrame(r: Registry, r': Registry, n: Name)
    requires LineOk(r, n) && Line(r', n) == Line(r, n) && TargetOf(r', n).generation == TargetOf(r, n).generation
    requires forall h :: h in r.home && r.home[h] == n ==> h in r'.home && r'.home[h] == n
    requires forall h :: h in r.home && r.home[h] == n ==> (h in r'.ended <==> h in r.ended) && (h in r.ended ==> r'.ended[h] == r.ended[h])
    ensures LineOk(r', n)
  {
    var s := Line(r, n);
    forall i, j | 0 <= i < j < |s| ensures s[i] != s[j] <==> EndedBefore(r', s[i], j + 1) {
      assert s[i] in r.home && r.home[s[i]] == n;
      assert s[i] != s[j] <==> EndedBefore(r, s[i], j + 1);
    }
  }

  lemma LinesFrame(r: Registry, r': Registry, hand: Option<Handle>, hand': Option<Handle>)
    requires LinesOk(r, hand) && r'.ended == r.ended && r'.armedOn == r.armedOn
    requires forall n: Name :: TargetOf(r', n).generation == TargetOf(r, n).generation
    requires forall h :: h in r.home ==> h in r'.home && r'.home[h] == r.home[h]
    requires hand'.Some? ==> hand' == hand || hand'.value !in r.home
    ensures LinesOk(r', hand')
  {
    forall n: Name ensures LineOk(r', n) && (hand'.Some? ==> hand'.value !in Line(r', n)) {
      assert LineOk(r, n) && Line(r', n) == Line(r, n);
      LineFrame(r, r', n);
    }
  }

  lemma HandlesFrame(r: Registry, r': Registry, hand: Option<Handle>)
    requires HandlesOk(r, hand)
    requires r'.handles == r.handles && r'.home == r.home && r'.released == r.released && r'.nextHandle == r.nextHandle
    requires r'.ended == r.ended && r'.armedOn == r.armedOn
    requires forall n: Name :: TargetOf(r', n).generation == TargetOf(r, n).generation
    ensures HandlesOk(r', hand)
  {
    CountedFrame(r, r', hand);
    hide Counted;
    LinesFrame(r, r', hand, hand);
    hide LinesOk;
  }

  lemma CountedFrame(r: Registry, r': Registry, hand: Option<Handle>)
    requires Counted(r, hand)
    requires r'.handles == r.handles && r'.home == r.home && r'.released == r.released && r'.nextHandle == r.nextHandle
    ensures Counted(r', hand)
  {
    forall h | h in r'.home ensures HeldNow(r', r'.home[h], h) == HeldNow(r, r.home[h], h) {}
  }

  // A handle that was held, or never put to use, is given back.
  lemma LineEnds(r: Registry, r': Registry, n: Name, h: Handle, why: Cause)
    requires LineOk(r, n) && Line(r', n) == Line(r, n) && TargetOf(r', n) == TargetOf(r, n)
    requires r'.home == r.home && h !in r.ended && r'.ended == r.ended[h := Ending(why, TargetOf(r, n).generation)]
    requires why.Duplicate? ==> h !in Line(r, n)
    ensures LineOk(r', n)
  {
    var s := Line(r, n);
    forall i, j | 0 <= i < j < |s| ensures s[i] != s[j] <==> EndedBefore(r', s[i], j + 1) {
      assert s[i] != s[j] <==> EndedBefore(r, s[i], j + 1);
    }
  }

  lemma LinesEnd(r: Registry, r': Registry, n: Name, h: Handle, why: Cause, hand: Option<Handle>, hand': Option<Handle>)
    requires LinesOk(r, hand) && h in r.home && r.home[h] == n && h !in r.ended
    requires r'.home == r.home && r'.armedOn == r.armedOn && r'.targets == r.targets
    requires r'.ended == r.ended[h := Ending(why, TargetOf(r, n).generation)]
    requires hand' == (if hand == Some(h) then None else hand) && (why.Duplicate? ==> hand == Some(h))
    ensures LinesOk(r', hand')
  {
    forall k: Name ensures LineOk(r', k) && (hand'.Some? ==> hand'.value !in Line(r', k)) {
      assert LineOk(r, k) && Line(r', k) == Line(r, k);
      if k == n { LineEnds(r, r', n, h, why); } else { LineFrame(r, r', k); }
    }
  }

  // Once filed, a handle is held until it is given back.
  lemma GivenBack(r: Registry, h: Handle)
    requires HandlesOk(r, None) && h in r.home
    ensures h in r.ended <==> !Held(r, h)
  {
    assert HeldNow(r, r.home[h], h) + r.released[(r.home[h], h)] == 1;
    hide LinesOk;
  }

  // The next generation, on the handle held.
  lemma LineAdvances(r: Registry, n: Name, h: Handle)
    requires HandlesOk(r, None) && n in r.handles && r.handles[n] == h && h in r.home && r.home[h] == n
    ensures LineOk(Advance(r, n, h), n)
  {
    var r', s := Advance(r, n, h), Line(r, n);
    assert LineOk(r, n);
    GivenBack(r, h);
    forall i | 0 <= i < |s| ensures s[i] in r.ended <==> s[i] != h { GivenBack(r, s[i]); }
    hide HandlesOk;
    forall i, j | 0 <= i < j < |s| + 1 ensures Line(r', n)[i] != Line(r', n)[j] <==> EndedBefore(r', Line(r', n)[i], j + 1) {
      if j < |s| { assert s[i] != s[j] <==> EndedBefore(r, s[i], j + 1); }
    }
  }

  lemma AdvancedHandles(r: Registry, n: Name, h: Handle)
    requires HandlesOk(r, None) && n in r.handles && r.handles[n] == h
    ensures HandlesOk(Advance(r, n, h), None)
  {
    var r' := Advance(r, n, h);
    CountedFrame(r, r', None);
    LineAdvances(r, n, h);
    hide Counted;
    forall k: Name ensures LineOk(r', k) {
      assert LineOk(r, k);
      if k != n { LineFrame(r, r', k); }
    }
  }

  lemma NewHandleCounted(r: Registry, r': Registry, n: Name, h: Handle)
    requires Counted(r, None) && h == r.nextHandle && r'.handles == r.handles && r'.released == r.released
    requires r'.home == r.home[h := n] && r'.nextHandle == h + 1
    ensures Counted(r', Some(h)) && h !in r.home && (n, h) !in r.released
  {
    assert h !in r.home && (n, h) !in r.released;
    assert HeldNow(r', n, h) == 0;
    forall x | x in r'.home
      ensures HeldNow(r', r'.home[x], x) + r'.released[(r'.home[x], x)] == if x == h then 0 else 1
    {
      if x != h { assert HeldNow(r, r.home[x], x) + r.released[(r.home[x], x)] == 1; }
    }
  }

  lemma ReceivedCounted(r: Registry, n: Name, ok: bool)
    requires Counted(r, None)
    ensures var (r', h) := Receive(r, n, NewHandle(ok)); Counted(r', h)
    ensures r.nextHandle !in r.home && (n, r.nextHandle) !in r.released
  {
    hide Counted;
    NewHandleCounted(r, Receive(r, n, NewHandle(ok)).0, n, r.nextHandle);
  }

  lemma ReceivedHandles(r: Registry, n: Name, ok: bool)
    requires HandlesOk(r, None)
    ensures var (r', h) := Receive(r, n, NewHandle(ok)); HandlesOk(r', h) && h == Some(r.nextHandle)
    ensures r.nextHandle !in r.home
  {
    hide Counted, EndingsOk, LinesOk;
    ReceivedCounted(r, n, ok);
    ReceivedEndings(r, n, ok);
    LinesFrame(r, Receive(r, n, NewHandle(ok)).0, None, Some(r.nextHandle));
  }

  lemma ReceivedEndings(r: Registry, n: Name, ok: bool)
    requires EndingsOk(r) && r.nextHandle !in r.home && (n, r.nextHandle) !in r.released
    ensures EndingsOk(Receive(r, n, NewHandle(ok)).0)
  {
  }

  // A handle in circulation and not given back yet can be, once.
  lemma ReleasedCounted(r: Registry, r': Registry, n: Name, h: Handle, hand: Option<Handle>, hand': Option<Handle>)
    requires Counted(r, hand) && h in r.home && r.home[h] == n && r.released[(n, h)] == 0
    requires r'.home == r.home && r'.nextHandle == r.nextHandle && r'.released == r.released + multiset{(n, h)}
    requires forall k :: k in r'.handles ==> k in r.handles && r'.handles[k] == r.handles[k] != h
    requires forall k :: k in r.handles && r.handles[k] != h ==> k in r'.handles
    requires hand' == if hand == Some(h) then None else hand
    ensures Counted(r', hand')
  {
    forall x | x in r'.home
      ensures HeldNow(r', r'.home[x], x) + r'.released[(r'.home[x], x)] == if hand' == Some(x) then 0 else 1
    {
      assert HeldNow(r, r.home[x], x) + r.released[(r.home[x], x)] == if hand == Some(x) then 0 else 1;
      if x != h { assert HeldNow(r', r'.home[x], x) == HeldNow(r, r.home[x], x); }
    }
  }

  lemma ReleasedHandles(r: Registry, r': Registry, n: Name, h: Handle, why: Cause, hand: Option<Handle>, hand': Option<Handle>)
    requires HandlesOk(r, hand) && h in r.home && r.home[h] == n && r.released[(n, h)] == 0
    requires r' == Release(r, n, h, why).(handles := r'.handles, undercut := r'.undercut)
    requires forall k :: k in r'.handles ==> k in r.handles && r'.handles[k] == r.handles[k] != h
    requires forall k :: k in r.handles && r.handles[k] != h ==> k in r'.handles
    requires hand' == (if hand == Some(h) then None else hand) && (why.Duplicate? ==> hand == Some(h))
    ensures HandlesOk(r', hand')
  {
    ReleasedCounted(r, r', n, h, hand, hand');
    hide Counted;
    LinesEnd(r, r', n, h, why, hand, hand');
    hide LinesOk;
  }

  lemma ForgetHandles(r: Registry, n: Name, why: Cause, hand: Option<Handle>)
    requires HandlesOk(r, hand) && (n in r.handles ==> hand != Some(r.handles[n])) && !why.Duplicate?
    ensures HandlesOk(Forget(r, n, why), hand)
  {
    if n in r.handles {
      var h := r.handles[n];
      assert HeldNow(r, r.home[h], h) + r.released[(r.home[h], h)] == 1;
      hide LinesOk;
      ReleasedHandles(r, Forget(r, n, why), n, h, why, hand, hand);
    }
  }

  lemma FileHandles(r: Registry, n: Name, obj: Handle)
    requires HandlesOk(r, Some(obj)) && obj in r.home && r.home[obj] == n
    ensures HandlesOk(File(r, n, obj), None)
  {
    assert HeldNow(r, r.home[obj], obj) + r.released[(r.home[obj], obj)] == 0;
    hide LinesOk;
    if n in r.handles {
      ReleasedHandles(r, File(r, n, obj), n, obj, Duplicate, Some(obj), None);
    } else {
      KeepHandle(r, n, obj);
    }
  }

  lemma KeptCounted(r: Registry, n: Name, obj: Handle)
    requires Counted(r, Some(obj)) && obj in r.home && r.home[obj] == n && n !in r.handles
    ensures Counted(r.(handles := r.handles[n := obj]), None)
  {
    var r' := r.(handles := r.handles[n := obj]);
    forall h | h in r'.home ensures HeldNow(r', r'.home[h], h) + r'.released[(r'.home[h], h)] == 1 {
      assert HeldNow(r, r.home[h], h) + r.released[(r.home[h], h)] == if Some(obj) == Some(h) then 0 else 1;
    }
  }

  lemma KeepHandle(r: Registry, n: Name, obj: Handle)
    requires HandlesOk(r, Some(obj)) && obj in r.home && r.home[obj] == n && n !in r.handles
    ensures HandlesOk(r.(handles := r.handles[n := obj]), None)
  {
    KeptCounted(r, n, obj);
    hide Counted;
    LinesFrame(r, r.(handles := r.handles[n := obj]), Some(obj), None);
    hide LinesOk;
  }

  lemma DetachedCounted(r: Registry)
    requires Counted(r, None)
    ensures Counted(Detached(r), None)
  {
    var r' := Detached(r);
    var all := HandlePairs(r.handles);
    forall h | h in r'.home ensures HeldNow(r', r'.home[h], h) + r'.released[(r'.home[h], h)] == 1 {
      assert HeldNow(r, r.home[h], h) + r.released[(r.home[h], h)] == 1;
      assert (r.home[h], h) in all <==> HeldNow(r, r.home[h], h) == 1;
      assert r'.released[(r'.home[h], h)] == r.released[(r.home[h], h)] + multiset(all)[(r.home[h], h)];
    }
    forall p | p in r'.released ensures p.1 in r'.home && r'.home[p.1] == p.0 {
      assert p in r.released || p in all;
    }
  }

  lemma EndingsAreHeld(r: Registry, h: Handle)
    requires Counted(r, None)
    ensures h in Endings(r) <==> Held(r, h)
    ensures h in r.home ==> ((r.home[h], h) in HandlePairs(r.handles) <==> Held(r, h))
  {
    if Held(r, h) { assert r.handles[r.home[h]] in r.handles.Values; }
  }

  lemma DetachedEndings(r: Registry)
    requires Counted(r, None) && EndingsOk(r)
    ensures EndingsOk(Detached(r))
  {
    var r', all := Detached(r), HandlePairs(r.handles);
    forall h ensures h in r'.ended <==> h in r'.home && (r'.home[h], h) in r'.released {
      EndingsAreHeld(r, h);
      hide Counted, HandlePairs, Endings;
      if h in r.home { assert (r.home[h], h) in r'.released <==> (r.home[h], h) in r.released || (r.home[h], h) in all; }
    }
  }

  lemma DetachedEnding(r: Registry, h: Handle)
    requires HandlesOk(r, None) && h in r.home
    ensures h in Detached(r).ended
    ensures Detached(r).ended[h] == if h in r.ended then r.ended[h] else Ending(Reconnect, TargetOf(r, r.home[h]).generation)
  {
    GivenBack(r, h);
    EndingsAreHeld(r, h);
    hide HandlesOk;
  }

  lemma DetachedLine(r: Registry, n: Name)
    requires HandlesOk(r, None)
    ensures LineOk(Detached(r), n)
  {
    var s := Line(r, n);
    assert LineOk(r, n);
    forall i | 0 <= i < |s| { DetachedEnding(r, s[i]); }
    hide HandlesOk, OfPolicy, Revived, Endings, HandlePairs;
    LineAllEnded(r, Detached(r), n);
  }

  // Every handle is given back at the generation its object is on, if it was not before.
  lemma LineAllEnded(r: Registry, r': Registry, n: Name)
    requires LineOk(r, n) && r'.home == r.home && r'.armedOn == r.armedOn && r'.targets == r.targets
    requires forall i :: 0 <= i < |Line(r, n)| ==>
               var h := Line(r, n)[i];
               h in r'.ended && r'.ended[h] == if h in r.ended then r.ended[h] else Ending(Reconnect, |Line(r, n)|)
    ensures LineOk(r', n)
  {
    var s := Line(r, n);
    forall i, j | 0 <= i < j < |s| ensures s[i] != s[j] <==> EndedBefore(r', s[i], j + 1) {
      assert s[i] != s[j] <==> EndedBefore(r, s[i], j + 1);
    }
  }

  lemma DetachedHandles(r: Registry)
    requires HandlesOk(r, None)
    ensures HandlesOk(Detached(r), None)
  {
    DetachedCounted(r);
    DetachedEndings(r);
    hide Counted, EndingsOk;
    forall n: Name ensures LineOk(Detached(r), n) { DetachedLine(r, n); }
  }

  // ----------------------------------------------------------- conservation of ids

  lemma SamePlaces(r: Registry, r': Registry, limbo: seq<Entry>)
    requires Conserved(r, limbo) && r'.nextId == r.nextId && forall x: Id :: Places(r', x) == Places(r, x)
    ensures Conserved(r', limbo)
  {
  }

  lemma SameLists(r: Registry, r': Registry, limbo: seq<Entry>)
    requires Conserved(r, limbo) && r'.nextId == r.nextId && r'.gone == r.gone
    requires r'.entries == r.entries && r'.armed == r.armed && r'.held == r.held
    ensures Conserved(r', limbo)
  {
    forall x: Id ensures Places(r', x) == Places(r, x) {}
  }

  lemma TakeConserves(r: Registry, n: Name, limbo: seq<Entry>)
    requires Conserved(r, limbo)
    ensures Conserved(TakeMatching(r, n), Named(r.entries, n) + limbo)
  {
    var r', out := TakeMatching(r, n), Named(r.entries, n) + limbo;
    forall x: Id ensures Places(r', x) + Count(out, x) == Places(r, x) + Count(limbo, x) {
      SplitCount(r.entries, n, x);
      CountAppend(Named(r.entries, n), limbo, x);
    }
  }

  lemma MovesConserve(r: Registry, n: Name, x: Id)
    ensures Places(ReviveArmed(r, n), x) == Places(HoldArmed(r, n), x) == Places(Unhold(r, n), x) == Places(r, x)
  {
    SplitCount(r.armed, n, x);
    SplitCount(r.held, n, x);
    RevivedCount(Named(r.armed, n), false, x);
    RevivedCount(Named(r.held, n), true, x);
    CountAppend(r.entries, Revived(Named(r.armed, n), false), x);
    CountAppend(r.entries, Revived(Named(r.held, n), true), x);
    CountAppend(r.held, Named(r.armed, n), x);
  }

  lemma DetachedConserves(r: Registry, x: Id)
    ensures Places(Detached(r), x) == Places(r, x)
  {
    PolicyCount(r, r.armed, x);
    RevivedCount(OfPolicy(r, r.armed, false), true, x);
    CountAppend(r.entries, Revived(OfPolicy(r, r.armed, false), true), x);
    CountAppend(r.held, OfPolicy(r, r.armed, true), x);
  }

  lemma PresentIsNotGone(r: Registry, id: Id, limbo: seq<Entry>)
    requires Conserved(r, limbo)
    ensures Has(r.entries, id) || Has(r.armed, id) || Has(r.held, id) ==> id !in r.gone
  {
    assert Places(r, id) <= 1;
    if e :| e in r.entries && e.id == id { CountIn(r.entries, e); }
    if e :| e in r.armed && e.id == id { CountIn(r.armed, e); }
    if e :| e in r.held && e.id == id { CountIn(r.held, e); }
  }

  lemma DropPendingPlaces(r: Registry, id: Id, x: Id)
    requires Has(r.entries, id) && id !in r.gone
    ensures Places(DropPending(r, id), x) == Places(r, x)
  {
    WithoutCount(r.entries, id, x);
    hide Has, Without, Count;
  }

  lemma DropArmedPlaces(r: Registry, id: Id, x: Id)
    requires Has(r.armed, id) && id !in r.gone
    ensures Places(DropArmed(r, id), x) == Places(r, x)
  {
    WithoutCount(r.armed, id, x);
    hide Has, Without, Count;
  }

  lemma DropHeldPlaces(r: Registry, id: Id, x: Id)
    requires Has(r.held, id) && id !in r.gone
    ensures Places(DropHeld(r, id), x) == Places(r, x)
  {
    WithoutCount(r.held, id, x);
    hide Has, Without, Count;
  }

  lemma CancelPlaces(r: Registry, id: Id, x: Id)
    requires Has(r.entries, id) || Has(r.armed, id) || Has(r.held, id) ==> id !in r.gone
    ensures Places(Cancel(r, id), x) == Places(r, x)
  {
    hide Places, Has, DropPending, DropArmed, DropHeld;
    if Has(r.entries, id) {
      DropPendingPlaces(r, id, x);
    } else if Has(r.armed, id) {
      DropArmedPlaces(r, id, x);
    } else if Has(r.held, id) {
      DropHeldPlaces(r, id, x);
    }
  }

  lemma CancelConserves(r: Registry, id: Id, limbo: seq<Entry>)
    requires Conserved(r, limbo)
    ensures Conserved(Cancel(r, id), limbo)
  {
    hide Places, Has, Conserved, Without, Cancel;
    PresentIsNotGone(r, id, limbo);
    forall x: Id { CancelPlaces(r, id, x); }
    CancelFrame(r, id);
    SamePlaces(r, Cancel(r, id), limbo);
  }

  lemma CancelFrame(r: Registry, id: Id)
    ensures var r' := Cancel(r, id);
            r' == r.(entries := r'.entries, armed := r'.armed, held := r'.held, timerOn := r'.timerOn, gone := r'.gone)
  {
    hide Has, Without, DropPending, DropArmed, DropHeld;
    DropFrame(r, id);
  }

  lemma DropFrame(r: Registry, id: Id)
    ensures var r' := DropPending(r, id); r' == r.(entries := r'.entries, timerOn := r'.timerOn, gone := r.gone[id := Cancelled])
    ensures var r' := DropArmed(r, id); r' == r.(armed := r'.armed, gone := r.gone[id := Cancelled])
    ensures var r' := DropHeld(r, id); r' == r.(held := r'.held, gone := r.gone[id := Cancelled])
  {
    hide Without;
  }

  lemma DepartConserves(r: Registry, e: Entry, why: Exit, limbo: seq<Entry>)
    requires Conserved(r, [e] + limbo)
    ensures Conserved(Depart(r, e.id, why), limbo)
  {
    LimboIsApart(r, [e] + limbo, e);
    var r' := Depart(r, e.id, why);
    forall x: Id ensures Places(r', x) + Count(limbo, x) == Places(r, x) + Count([e] + limbo, x) {
      CountAppend([e], limbo, x);
    }
  }

  lemma PutDownConserves(r: Registry, e: Entry, h: Handle, limbo: seq<Entry>)
    requires Conserved(r, [e] + limbo)
    ensures Conserved(PutDown(r, e, h), limbo)
  {
    var r', e' := PutDown(r, e, h), e.(everArmed := true, at := Some(h));
    forall x: Id ensures Places(r', x) + Count(limbo, x) == Places(r, x) + Count([e] + limbo, x) {
      CountAppend([e], limbo, x);
      CountAppend(r.armed, [e'], x);
    }
  }

  lemma NewConserves(r: Registry, n: Name, event: string, ready: bool, limbo: seq<Entry>)
    requires Conserved(r, limbo)
    ensures Conserved(NewEntry(r, n, event, ready), limbo)
  {
    var r' := NewEntry(r, n, event, ready);
    forall x: Id ensures Places(r', x) == Places(r, x) + if x == r.nextId then 1 else 0 {
      CountAppend(r.entries, [Entry(r.nextId, n, event, ready, false, 0, None)], x);
    }
  }

  // ------------------------------------------------- what single steps leave intact

  // Saying yes to an entry that is not pending, or no to one that then leaves.
  lemma ToldYes(r: Registry, e: Entry)
    requires ToldOk(r) && AnswersOk(r) && e.id !in r.gone && e.id < r.nextId && forall x :: x in r.entries ==> x.id != e.id
    ensures ToldOk(Tell(r, e.id, true)) && AnswersOk(Tell(r, e.id, true))
  {
  }

  // Answers are told, and an id leaves, without touching what is armed, held or in hand.
  lemma ToldElsewhere(r: Registry, r': Registry, limbo: seq<Entry>)
    requires r' == r.(told := r'.told, gone := r'.gone)
    ensures ArmedOk(r) ==> ArmedOk(r')
    ensures HeldOk(r) ==> HeldOk(r')
    ensures InHandOk(r, limbo) ==> InHandOk(r', limbo)
  {
  }

  lemma TellKeeps(r: Registry, e: Entry, limbo: seq<Entry>)
    requires EntriesOk(r, limbo) && e in limbo
    ensures EntriesOk(Tell(r, e.id, true), limbo)
  {
    hide Conserved, ArmedOk, HeldOk, ToldOk, AnswersOk, InHandOk;
    LimboIsApart(r, limbo, e);
    SameLists(r, Tell(r, e.id, true), limbo);
    ToldYes(r, e);
    ToldElsewhere(r, Tell(r, e.id, true), limbo);
  }

  // What is in hand does not need an entry that is not.
  lemma NotInHand(r: Registry, e: Entry, limbo: seq<Entry>)
    requires InHandOk(r, [e] + limbo) && e.id !in r.inHand
    ensures InHandOk(r, limbo)
  {
    forall id | id in r.inHand ensures exists x :: x in limbo && x.id == id {
      var x :| x in [e] + limbo && x.id == id;
      assert x in limbo;
    }
  }

  lemma DepartsTold(r: Registry, id: Id)
    requires ToldOk(r) && AnswersOk(r) && id in r.told && r.told[id] == [true]
    ensures ToldOk(Depart(r, id, ReadinessAnswered)) && AnswersOk(Depart(r, id, ReadinessAnswered))
  {
  }

  lemma AnsweredKeeps(r: Registry, e: Entry, limbo: seq<Entry>)
    requires EntriesOk(r, [e] + limbo) && e.id !in r.told && e.id !in r.inHand
    ensures EntriesOk(Depart(Tell(r, e.id, true), e.id, ReadinessAnswered), limbo)
  {
    hide Conserved, ArmedOk, HeldOk, ToldOk, AnswersOk, InHandOk;
    var told := Tell(r, e.id, true);
    TellKeeps(r, e, [e] + limbo);
    DepartConserves(told, e, ReadinessAnswered, limbo);
    DepartsTold(told, e.id);
    NotInHand(told, e, limbo);
    ToldElsewhere(told, Depart(told, e.id, ReadinessAnswered), limbo);
  }

  lemma AbandonedConserves(r: Registry, e: Entry, limbo: seq<Entry>)
    requires Conserved(r, [e] + limbo)
    ensures Conserved(Depart(Tell(r, e.id, false), e.id, Abandoned), limbo)
  {
    SameLists(r, Tell(r, e.id, false), [e] + limbo);
    DepartConserves(Tell(r, e.id, false), e, Abandoned, limbo);
  }

  lemma ToldNo(r: Registry, e: Entry)
    requires ToldOk(r) && AnswersOk(r) && e.id !in r.gone && e.id < r.nextId && forall x :: x in r.entries ==> x.id != e.id
    ensures ToldOk(Depart(Tell(r, e.id, false), e.id, Abandoned)) && AnswersOk(Depart(Tell(r, e.id, false), e.id, Abandoned))
  {
  }

  lemma AbandonedKeeps(r: Registry, e: Entry, limbo: seq<Entry>)
    requires EntriesOk(r, [e] + limbo) && e.id !in r.inHand
    ensures EntriesOk(Depart(Tell(r, e.id, false), e.id, Abandoned), limbo)
  {
    hide Conserved, ArmedOk, HeldOk, ToldOk, AnswersOk, InHandOk;
    LimboIsApart(r, [e] + limbo, e);
    AbandonedConserves(r, e, limbo);
    ToldNo(r, e);
    NotInHand(r, e, limbo);
    ToldElsewhere(r, Depart(Tell(r, e.id, false), e.id, Abandoned), limbo);
  }

  // On the handle held, or undercut.
  lemma PutDownArms(r: Registry, e: Entry, h: Handle)
    requires ArmedOk(r) && !e.readinessOnly && e.name in r.handles
    requires r.handles[e.name] == h <==> e.id !in r.undercut
    ensures ArmedOk(PutDown(r, e, h))
  {
    var put := e.(everArmed := true, at := Some(h));
    assert forall x :: x in PutDown(r, e, h).armed ==> x in r.armed || x == put;
  }

  lemma PutDownLeaves(r: Registry, e: Entry, h: Handle, limbo: seq<Entry>)
    requires InHandOk(r, [e] + limbo)
    ensures InHandOk(PutDown(r, e, h), limbo)
  {
    var r' := PutDown(r, e, h);
    forall id | id in r'.inHand ensures exists x :: x in limbo && x.id == id {
      var x :| x in [e] + limbo && x.id == id;
      assert x in limbo;
    }
  }

  lemma PutDownOnHeld(r: Registry, e: Entry, h: Handle, limbo: seq<Entry>)
    requires InHandOk(r, limbo) && HandlesOk(r, None) && e.name in r.handles
    requires e.id in r.inHand && r.inHand[e.id] == h && h in r.home && r.home[h] == e.name
    ensures r.handles[e.name] == h <==> e.id !in r.undercut
  {
    GivenBack(r, h);
    hide HandlesOk;
  }

  lemma PutDownKeeps(r: Registry, e: Entry, h: Handle, limbo: seq<Entry>)
    requires EntriesOk(r, [e] + limbo) && HandlesOk(r, None) && !e.readinessOnly && e.name in r.handles
    requires e.id in r.inHand && r.inHand[e.id] == h && h in r.home && r.home[h] == e.name
    ensures EntriesOk(PutDown(r, e, h), limbo)
  {
    hide HandlesOk, Conserved, ArmedOk, InHandOk;
    PutDownOnHeld(r, e, h, [e] + limbo);
    PutDownConserves(r, e, h, limbo);
    PutDownArms(r, e, h);
    PutDownLeaves(r, e, h, limbo);
  }

  lemma NewKeeps(r: Registry, n: Name, event: string, ready: bool, limbo: seq<Entry>)
    requires EntriesOk(r, limbo)
    ensures EntriesOk(NewEntry(r, n, event, ready), limbo)
  {
    NewConserves(r, n, event, ready, limbo);
    hide Conserved;
  }

  lemma TakeKeeps(r: Registry, n: Name, limbo: seq<Entry>)
    requires EntriesOk(r, limbo)
    ensures EntriesOk(TakeMatching(r, n), Named(r.entries, n) + limbo)
    ensures forall e :: e in Named(r.entries, n) ==> e.name == n && e.id !in r.inHand && (e.readinessOnly ==> e.id !in r.told)
  {
    hide Conserved, ArmedOk, HeldOk, AnswersOk, InHandOk, TakeMatching, Named;
    TakeConserves(r, n, limbo);
    TakeLeaves(r, n, limbo);
    MembersByName(r.entries, n);
    forall e | e in Named(r.entries, n) ensures e.id !in r.inHand { PendingIsNotInHand(r, e, limbo); }
  }

  lemma TakeLeaves(r: Registry, n: Name, limbo: seq<Entry>)
    ensures var r' := TakeMatching(r, n);
            && (ArmedOk(r) ==> ArmedOk(r')) && (HeldOk(r) ==> HeldOk(r')) && (ToldOk(r) ==> ToldOk(r')) && (AnswersOk(r) ==> AnswersOk(r'))
            && (InHandOk(r, limbo) ==> InHandOk(r', Named(r.entries, n) + limbo))
  {
    MembersByName(r.entries, n);
    hide NotNamed, Named;
    if InHandOk(r, limbo) { MoreInLimbo(r, TakeMatching(r, n), limbo, Named(r.entries, n) + limbo); }
  }

  lemma MoreInLimbo(r: Registry, r': Registry, limbo: seq<Entry>, limbo': seq<Entry>)
    requires InHandOk(r, limbo) && (forall e :: e in limbo ==> e in limbo')
    requires r'.inHand == r.inHand && r'.undercut == r.undercut && r'.ended == r.ended && r'.home == r.home && r'.handles == r.handles
    ensures InHandOk(r', limbo')
  {
    forall id | id in r'.inHand ensures exists e :: e in limbo' && e.id == id {
      var e :| e in limbo && e.id == id;
      assert e in limbo';
    }
  }

  lemma PendingIsNotInHand(r: Registry, e: Entry, limbo: seq<Entry>)
    requires Conserved(r, limbo) && InHandOk(r, limbo) && e in r.entries
    ensures e.id !in r.inHand
  {
    if e.id in r.inHand {
      var x :| x in limbo && x.id == e.id;
      LimboIsApart(r, limbo, x);
    }
  }

  lemma InHandKeeps(r: Registry, ids: set<Id>, h: Handle, limbo: seq<Entry>)
    requires EntriesOk(r, limbo) && Held(r, h) && ids !! r.inHand.Keys
    requires forall id :: id in ids ==> exists e :: e in limbo && e.id == id
    ensures EntriesOk(InHand(r, ids, h), limbo)
  {
    hide Conserved, ArmedOk, HeldOk, ToldOk, AnswersOk, InHandOk, Held;
    SameLists(r, InHand(r, ids, h), limbo);
    NobodyArmed(r, ids, limbo);
    TakenInHandOk(r, ids, h, limbo);
    TakenElsewhere(r, ids, h);
  }

  lemma NobodyArmed(r: Registry, ids: set<Id>, limbo: seq<Entry>)
    requires Conserved(r, limbo) && forall id :: id in ids ==> exists e :: e in limbo && e.id == id
    ensures forall e :: e in r.armed ==> e.id !in ids
  {
    forall e | e in r.armed && e.id in ids ensures false {
      var x :| x in limbo && x.id == e.id;
      LimboIsApart(r, limbo, x);
    }
  }

  lemma TakenElsewhere(r: Registry, ids: set<Id>, h: Handle)
    requires forall e :: e in r.armed ==> e.id !in ids
    ensures var r' := InHand(r, ids, h);
            (ArmedOk(r) ==> ArmedOk(r')) && (HeldOk(r) ==> HeldOk(r')) && (ToldOk(r) ==> ToldOk(r')) && (AnswersOk(r) ==> AnswersOk(r'))
  {
  }

  lemma TakenInHandOk(r: Registry, ids: set<Id>, h: Handle, limbo: seq<Entry>)
    requires InHandOk(r, limbo) && Held(r, h) && ids !! r.inHand.Keys
    requires forall id :: id in ids ==> exists e :: e in limbo && e.id == id
    ensures InHandOk(InHand(r, ids, h), limbo)
  {
  }

  // Timers, edges, targets, acquires and validity are free to change, and handles to come and be returned.
  lemma FrameKeeps(r: Registry, r': Registry, limbo: seq<Entry>)
    requires EntriesOk(r, limbo)
    requires r'.entries == r.entries && r'.armed == r.armed && r'.held == r.held && r'.handles == r.handles
    requires r'.nextId == r.nextId && r'.gone == r.gone && r'.told == r.told
    requires r'.inHand == r.inHand && r'.undercut == r.undercut
    requires forall h :: h in r.home ==> h in r'.home && r'.home[h] == r.home[h]
    requires forall h :: h in r.ended ==> h in r'.ended
    ensures EntriesOk(r', limbo)
  {
    SameLists(r, r', limbo);
    hide Conserved;
  }

  lemma ReviveKeeps(r: Registry, n: Name, limbo: seq<Entry>)
    requires EntriesOk(r, limbo)
    ensures EntriesOk(ReviveArmed(r, n), limbo)
    ensures forall e :: e in ReviveArmed(r, n).armed ==> e.name != n
  {
    forall x: Id { MovesConserve(r, n, x); }
    SamePlaces(r, ReviveArmed(r, n), limbo);
    MembersByName(r.armed, n);
    RevivedReal(Named(r.armed, n), false);
    hide Conserved, Named, NotNamed, Revived;
  }

  lemma HoldKeeps(r: Registry, n: Name, limbo: seq<Entry>)
    requires EntriesOk(r, limbo)
    ensures EntriesOk(HoldArmed(r, n), limbo)
    ensures forall e :: e in HoldArmed(r, n).armed ==> e.name != n
  {
    forall x: Id { MovesConserve(r, n, x); }
    SamePlaces(r, HoldArmed(r, n), limbo);
    MembersByName(r.armed, n);
    hide Conserved, Named, NotNamed;
  }

  lemma UnholdKeeps(r: Registry, n: Name, limbo: seq<Entry>)
    requires EntriesOk(r, limbo)
    ensures EntriesOk(Unhold(r, n), limbo)
  {
    forall x: Id { MovesConserve(r, n, x); }
    SamePlaces(r, Unhold(r, n), limbo);
    MembersByName(r.held, n);
    RevivedReal(Named(r.held, n), true);
    hide Conserved, Named, NotNamed, Revived;
  }

  // Whoever was in hand on the handle is undercut.
  lemma ForgetInHand(r: Registry, n: Name, why: Cause, limbo: seq<Entry>)
    requires InHandOk(r, limbo)
    ensures InHandOk(Forget(r, n, why), limbo)
  {
    var r' := Forget(r, n, why);
    forall id | id in r'.inHand
      ensures if id in r'.undercut then r'.inHand[id] in r'.ended else Held(r', r'.inHand[id])
    {
      if n in r.handles { assert id in Riding(r, r.handles[n]) <==> r.inHand[id] == r.handles[n]; }
    }
  }

  lemma ForgetArmed(r: Registry, n: Name, why: Cause)
    requires ArmedOk(r) && forall e :: e in r.armed ==> e.name != n && e.id !in r.inHand
    ensures ArmedOk(Forget(r, n, why))
  {
  }

  lemma ArmedIsNotInHand(r: Registry, limbo: seq<Entry>)
    requires Conserved(r, limbo) && InHandOk(r, limbo)
    ensures forall e :: e in r.armed ==> e.id !in r.inHand
  {
    forall e | e in r.armed && e.id in r.inHand ensures false {
      var x :| x in limbo && x.id == e.id;
      LimboIsApart(r, limbo, x);
    }
  }

  lemma ForgetElsewhere(r: Registry, n: Name, why: Cause)
    ensures var r' := Forget(r, n, why);
            && r'.entries == r.entries && r'.armed == r.armed && r'.held == r.held && r'.nextId == r.nextId && r'.gone == r.gone
            && (HeldOk(r) ==> HeldOk(r')) && (ToldOk(r) ==> ToldOk(r')) && (AnswersOk(r) ==> AnswersOk(r'))
  {
    hide Riding;
  }

  lemma ForgetKeeps(r: Registry, n: Name, why: Cause, limbo: seq<Entry>)
    requires EntriesOk(r, limbo) && forall e :: e in r.armed ==> e.name != n
    ensures EntriesOk(Forget(r, n, why), limbo)
  {
    hide Conserved, ArmedOk, HeldOk, ToldOk, AnswersOk, InHandOk, Forget;
    ForgetElsewhere(r, n, why);
    SameLists(r, Forget(r, n, why), limbo);
    ArmedIsNotInHand(r, limbo);
    ForgetArmed(r, n, why);
    ForgetInHand(r, n, why, limbo);
  }

  lemma DropKeeps(r: Registry, r': Registry, id: Id, limbo: seq<Entry>)
    requires EntriesOk(r, limbo) && Conserved(Depart(r', id, Cancelled), limbo) && id !in r.gone
    requires r' == r.(entries := r'.entries, armed := r'.armed, held := r'.held, timerOn := r'.timerOn)
    requires forall e :: e in r'.entries ==> e in r.entries
    requires forall e :: e in r'.armed ==> e in r.armed
    requires forall e :: e in r'.held ==> e in r.held
    ensures EntriesOk(Depart(r', id, Cancelled), limbo)
  {
    hide Conserved;
  }

  lemma CancelKeeps(r: Registry, id: Id, limbo: seq<Entry>)
    requires EntriesOk(r, limbo)
    ensures EntriesOk(Cancel(r, id), limbo)
  {
    hide ArmedOk, HeldOk, ToldOk, AnswersOk, Conserved, Has, Without;
    CancelConserves(r, id, limbo);
    PresentIsNotGone(r, id, limbo);
    WithoutMembers(r.entries, id);
    WithoutMembers(r.armed, id);
    WithoutMembers(r.held, id);
    if Has(r.entries, id) {
      DropKeeps(r, StopIfIdle(r.(entries := Without(r.entries, id))), id, limbo);
    } else if Has(r.armed, id) {
      DropKeeps(r, r.(armed := Without(r.armed, id)), id, limbo);
    } else if Has(r.held, id) {
      DropKeeps(r, r.(held := Without(r.held, id)), id, limbo);
    }
  }

  lemma DetachedKeeps(r: Registry)
    requires EntriesOk(r, [])
    ensures EntriesOk(Detached(r), [])
  {
    forall x: Id { DetachedConserves(r, x); }
    SamePlaces(r, Detached(r), []);
    MembersByPolicy(r, r.armed, true);
    MembersByPolicy(r, r.armed, false);
    RevivedReal(OfPolicy(r, r.armed, false), true);
    hide Conserved, OfPolicy, Revived;
  }

  lemma WarnedKeeps(r: Registry, age: map<Id, nat>)
    requires EntriesOk(r, [])
    ensures EntriesOk(r.(entries := Warned(r.entries, age)), [])
  {
    hide Conserved, ArmedOk, HeldOk, AnswersOk, InHandOk, ToldOk;
    WarnedConserves(r, age);
    WarnedElsewhere(r, age);
  }

  lemma WarnedElsewhere(r: Registry, age: map<Id, nat>)
    ensures var r' := r.(entries := Warned(r.entries, age));
            && (ArmedOk(r) ==> ArmedOk(r')) && (HeldOk(r) ==> HeldOk(r')) && (ToldOk(r) ==> ToldOk(r')) && (AnswersOk(r) ==> AnswersOk(r'))
            && (InHandOk(r, []) ==> InHandOk(r', []))
  {
    WarnedSame(r.entries, age);
    hide Warned;
  }

  lemma WarnedConserves(r: Registry, age: map<Id, nat>)
    requires Conserved(r, [])
    ensures Conserved(r.(entries := Warned(r.entries, age)), [])
  {
    var r' := r.(entries := Warned(r.entries, age));
    forall x: Id ensures Places(r', x) == Places(r, x) { WarnedCount(r.entries, age, x); }
    SamePlaces(r, r', []);
  }
}
