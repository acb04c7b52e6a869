/** What single requests and ticks of the deferred-subscription registry come to: where an
    added, a rearmed, a cancelled or an abandoned subscription is afterwards, how long the
    timer waits and when a subscriber is warned. */
module DeferredOutcomes {
  import opened DeferredSubscriptions
  import opened DeferredSafety
  import opened DeferredRuns
  import opened DeferredTheorems
  import opened DeferredGenerations
  import opened DeferredArming
  import opened DeferredPolicy
  import opened Wrappers

  // ------------------------------------------------------------------------ rearming

  lemma RearmShrinks(r: Registry, n: Name, a: Answer, scripts: seq<Script>)
    ensures forall x :: x in Rearm(r, n, a, scripts).held ==> x in r.held && x.name != n
  {
    MembersByName(r.held, n);
    FreeScripts(scripts);
    if Named(r.held, n) != [] {
      ChaseKept(Unhold(r, n), n, a, scripts, n, FREE);
      hide Kept, OnlyArmed, Chase, EnsureTimer, SparesAll, Named, NotNamed, Revived;
    } else {
      hide Chase;
    }
  }

  /** A rearm leaves nothing of its object held, whatever its callbacks ask for: each
      subscription that was is pending, armed, or gone if a callback cancelled it. */
  lemma RearmEmptiesHeld(r: Registry, n: Name, a: Answer, scripts: seq<Script>, e: Entry)
    requires Mid(r, []) && e in r.held && e.name == n
    ensures var r' := Rearm(r, n, a, scripts);
            && (forall x :: x in r'.held ==> x in r.held && x.name != n)
            && (Has(r'.entries, e.id) || Has(r'.armed, e.id) || e.id in r'.gone)
  {
    var r' := Rearm(r, n, a, scripts);
    RearmShrinks(r, n, a, scripts);
    PerformAfter(r, RearmRequest(n, a, scripts), [], map[]);
    HeldOnce(r, r', e);
    hide Rearm, HandlesOk, ArmedOk, HeldOk, ToldOk, AnswersOk, InHandOk, AskedOk, Has;
    SomewhereElse(r', e.id);
  }

  lemma HeldOnce(r: Registry, r': Registry, e: Entry)
    requires Conserved(r, []) && e in r.held && r.nextId <= r'.nextId
    requires forall x :: x in r'.held ==> x in r.held && x.name != e.name
    ensures 1 <= e.id < r'.nextId && !Has(r'.held, e.id)
  {
    CountIn(r.held, e);
    assert Places(r, e.id) + Count([], e.id) == if 1 <= e.id < r.nextId then 1 else 0;
    if x :| x in r'.held && x.id == e.id { CountTwo(r.held, x, e); }
  }

  lemma SomewhereElse(r: Registry, id: Id)
    requires Conserved(r, []) && 1 <= id < r.nextId && !Has(r.held, id)
    ensures Has(r.entries, id) || Has(r.armed, id) || id in r.gone
  {
    assert Places(r, id) + Count([], id) == 1;
    CountHas(r.entries, id);
    CountHas(r.armed, id);
    CountHas(r.held, id);
  }

  lemma ChaseServes(r: Registry, n: Name, a: Answer, scripts: seq<Script>, m: Name)
    requires AskNothing(scripts)
    ensures Serves(r, Chase(r, n, a, scripts).0, m)
  {
    if LiveHandle(r, n).Some? {
      ArmServes(r, n, LiveHandle(r, n).value, scripts, m);
    } else {
      AcquireServes(r, n, a, scripts, m);
    }
    hide Serves, ArmAgainst, BeginAcquire, AskNothing;
  }

  lemma TimerServes(r: Registry, m: Name)
    ensures Serves(r, EnsureTimer(r), m)
  {
    SameServes(r, EnsureTimer(r), m);
  }

  /** And when they ask for nothing it waits or is armed, warnings restarted. */
  lemma RearmRevives(r: Registry, n: Name, a: Answer, scripts: seq<Script>, e: Entry)
    requires Mid(r, []) && e in r.held && e.name == n && AskNothing(scripts)
    ensures Alive(Rearm(r, n, a, scripts), e)
  {
    assert !e.readinessOnly;
    MembersByName(r.held, n);
    UnheldAlive(r, n, e);
    var r1 := Unhold(r, n);
    var r2 := Chase(r1, n, a, scripts).0;
    ChaseServes(r1, n, a, scripts, n);
    TimerServes(r2, n);
    assert Rearm(r, n, a, scripts) == EnsureTimer(r2) by { hide Chase, Unhold, EnsureTimer, Mid; }
    hide Mid, Rearm, Unhold, Chase, EnsureTimer, Named, Alive, EdgesOf, OnlyArmedSince, AskNothing;
  }

  lemma UnheldAlive(r: Registry, n: Name, e: Entry)
    requires e in r.held && e.name == n && !e.readinessOnly
    ensures Alive(Unhold(r, n), e) && e.(warn := 0) in Unhold(r, n).entries
  {
    MembersByName(r.held, n);
    RevivedKeeps(Named(r.held, n), true, e);
    hide Named, NotNamed, Revived;
    assert e.(warn := 0) in Unhold(r, n).entries && Same(e.(warn := 0), e);
  }

  // -------------------------------------------------------------------------- adding

  /** A subscription added is pending or armed under the next id, for the object and event
      asked for, and everybody else still is. */
  lemma AddLands(r: Registry, n: Name, event: string, a: Answer, scripts: seq<Script>, x: Entry)
    requires AskNothing(scripts)
    ensures var r' := Add(r, n, event, false, a, scripts);
            && Alive(r', Entry(r.nextId, n, event, false, false, 0, None))
            && r'.held == r.held && (Alive(r, x) ==> Alive(r', x))
  {
    var r1 := NewEntry(r, n, event, false);
    var r2 := Chase(r1, n, a, scripts).0;
    NewAlive(r, n, event, false, x);
    ChaseServes(r1, n, a, scripts, n);
    TimerServes(r2, n);
    hide NewEntry, Chase, EnsureTimer, Alive, EdgesOf, OnlyArmedSince, AskNothing;
  }

  lemma NewAlive(r: Registry, n: Name, event: string, ready: bool, x: Entry)
    ensures var r' := NewEntry(r, n, event, ready);
            && (!ready ==> Alive(r', Entry(r.nextId, n, event, false, false, 0, None)))
            && (Alive(r, x) ==> Alive(r', x)) && r'.held == r.held
  {
    var r', e := NewEntry(r, n, event, ready), Entry(r.nextId, n, event, ready, false, 0, None);
    assert e in r'.entries && Same(e, e);
    if Alive(r, x) {
      var y :| (y in r.entries || y in r.armed) && Same(y, x);
      assert (y in r'.entries || y in r'.armed) && Same(y, x);
    }
  }

  lemma ProbeTaken(r: Registry, n: Name, event: string)
    requires Mid(r, [])
    ensures var r1, e := NewEntry(r, n, event, true), Entry(r.nextId, n, event, true, false, 0, None);
            && Count(Named(r1.entries, n), e.id) == 1 && e in Named(r1.entries, n) && ToldSo(r1, e.id) == []
  {
    var r1, e := NewEntry(r, n, event, true), Entry(r.nextId, n, event, true, false, 0, None);
    assert Places(r, e.id) + Count([], e.id) == 0;
    SplitCount(r.entries, n, e.id);
    NamedAppend(r.entries, [e], n);
    CountAppend(Named(r.entries, n), [e], e.id);
    assert [e][1..] == [] && Named([e], n) == [e];
    hide HandlesOk, ArmedOk, HeldOk, AnswersOk, InHandOk, AskedOk, Conserved;
  }

  /** A readiness probe on an object with a live handle is answered yes at once and gone. */
  lemma ProbeAnswered(r: Registry, n: Name, event: string, a: Answer, scripts: seq<Script>)
    requires Mid(r, []) && LiveHandle(r, n).Some? && AskNothing(scripts)
    ensures var r' := Add(r, n, event, true, a, scripts);
            r.nextId in r'.gone && r'.gone[r.nextId] == ReadinessAnswered && ToldSo(r', r.nextId) == [true]
  {
    var r1, h, id := NewEntry(r, n, event, true), r.handles[n], r.nextId;
    var e := Entry(id, n, event, true, false, 0, None);
    assert LiveHandle(r1, n) == Some(h) && Adopt(r1, n, h) == r1;
    assert Add(r, n, event, true, a, scripts) == ArmAgainst(r1, n, h, scripts) by { hide ArmAgainst; }
    ProbeTaken(r, n, event);
    ArmTells(r1, n, h, scripts, id);
    hide Add, ArmAgainst, Named, AskNothing, EntriesOk, HandlesOk, Adopt;
  }

  // ---------------------------------------------------------- cancelling and abandoning

  lemma {:induction false} WithoutOne(s: seq<Entry>, id: Id)
    requires Count(s, id) <= 1
    ensures AllBut(s, Without(s, id), id)
  {
    if s != [] {
      assert s == [s[0]] + s[1..];
      if s[0].id == id { forall x | x in s[1..] && x.id == id ensures false { CountIn(s[1..], x); } } else { WithoutOne(s[1..], id); }
    }
  }

  lemma OneOfEach(r: Registry, id: Id)
    requires Conserved(r, [])
    ensures Count(r.entries, id) + Count(r.armed, id) + Count(r.held, id) <= 1
    ensures Count(r.entries, id) + Count(r.armed, id) + Count(r.held, id) == 1 ==> id !in r.gone
  {
    assert Places(r, id) + Count([], id) <= 1;
  }

  lemma NotThere(s: seq<Entry>, id: Id)
    requires Count(s, id) == 0
    ensures AllBut(s, s, id)
  {
    forall x | x in s && x.id == id ensures false { CountIn(s, x); }
  }

  // The same entries, without the one of this id.
  ghost predicate AllBut(s: seq<Entry>, t: seq<Entry>, id: Id) {
    forall x :: x in t <==> x in s && x.id != id
  }

  // `id` is out of every vector; the others are where they were, and nothing else moved.
  ghost predicate Removed(r: Registry, r': Registry, id: Id) {
    && AllBut(r.entries, r'.entries, id) && AllBut(r.armed, r'.armed, id) && AllBut(r.held, r'.held, id)
    && r'.handles == r.handles && r'.told == r.told && r'.edges == r.edges && r'.targets == r.targets
  }

  // Not in any vector but the one it is dropped from.
  lemma DropsOne(r: Registry, id: Id)
    requires Conserved(r, [])
    ensures Has(r.entries, id) ==> Removed(r, DropPending(r, id), id)
    ensures Has(r.armed, id) ==> Removed(r, DropArmed(r, id), id)
    ensures Has(r.held, id) ==> Removed(r, DropHeld(r, id), id)
    ensures !Has(r.entries, id) && !Has(r.armed, id) && !Has(r.held, id) ==> Removed(r, r, id)
  {
    hide Has, Without, Count, Conserved, DropPending, DropArmed, DropHeld, AllBut;
    OneOfEach(r, id);
    CountHas(r.entries, id);
    CountHas(r.armed, id);
    CountHas(r.held, id);
    DropFrame(r, id);
    DropsFrom(r, id);
    WithoutOne(r.entries, id);
    WithoutOne(r.armed, id);
    WithoutOne(r.held, id);
    if !Has(r.entries, id) { NotThere(r.entries, id); }
    if !Has(r.armed, id) { NotThere(r.armed, id); }
    if !Has(r.held, id) { NotThere(r.held, id); }
  }

  /** A cancel takes that subscription out of wherever it is, for good, leaves every other
      one where it was, and touches no handle; with an id that is nowhere it does nothing. */
  lemma CancelRemoves(r: Registry, id: Id)
    requires Conserved(r, [])
    ensures var r' := Cancel(r, id);
            && AllBut(r.entries, r'.entries, id) && AllBut(r.armed, r'.armed, id) && AllBut(r.held, r'.held, id)
            && r'.handles == r.handles && r'.told == r.told && r'.edges == r.edges && r'.targets == r.targets
    ensures if Has(r.entries, id) || Has(r.armed, id) || Has(r.held, id) then Cancel(r, id).gone == r.gone[id := Cancelled]
            else Cancel(r, id) == r
  {
    hide Has, Without, Conserved, DropPending, DropArmed, DropHeld, AllBut;
    DropsOne(r, id);
    DropFrame(r, id);
  }

  lemma DropsFrom(r: Registry, id: Id)
    ensures DropPending(r, id).entries == Without(r.entries, id)
    ensures DropArmed(r, id).armed == Without(r.armed, id) && DropHeld(r, id).held == Without(r.held, id)
  {
    hide Without;
  }

  // What abandoning tells one entry's callback, and nobody else's.
  function No(k: nat): seq<bool> {
    if k == 0 then [] else [false] + No(k - 1)
  }

  lemma AbandonOneExactly(r: Registry, e: Entry, scripts: seq<Script>)
    requires AskNothing(scripts)
    ensures AbandonOne(r, e, scripts) == r.(told := r.told[e.id := ToldSo(r, e.id) + [false]], gone := r.gone[e.id := Abandoned])
  {
    if scripts != [] { assert scripts[0] in scripts; }
  }

  lemma AbandonOneTells(r: Registry, e: Entry, scripts: seq<Script>, id: Id)
    requires AskNothing(scripts)
    ensures ToldSo(AbandonOne(r, e, scripts), id) == ToldSo(r, id) + if e.id == id then [false] else []
  {
    AbandonOneExactly(r, e, scripts);
    hide AbandonOne;
  }

  lemma NoOnce(matched: seq<Entry>, id: Id)
    ensures matched != [] ==> Count(matched, id) == (if matched[0].id == id then 1 else 0) + Count(matched[1..], id)
    ensures No(Count(matched, id)) ==
              if matched == [] then [] else (if matched[0].id == id then [false] else []) + No(Count(matched[1..], id))
  {
  }

  lemma AbandonShape(r: Registry, matched: seq<Entry>, scripts: seq<Script>)
    requires AskNothing(scripts)
    ensures AbandonAll(r, matched, scripts) ==
              if matched == [] then r else AbandonAll(AbandonOne(r, matched[0], scripts), matched[1..], Rest(scripts, 1))
    ensures AskNothing(Rest(scripts, 1))
    ensures matched != [] ==> OnlyAttaches(r, AbandonOne(r, matched[0], scripts)) && AbandonOne(r, matched[0], scripts).armed == r.armed
  {
    SilentRest(scripts, 1);
    if matched != [] { AbandonOneExactly(r, matched[0], scripts); }
    hide AbandonOne, AskNothing;
  }

  lemma {:induction false} AbandonAllTells(r: Registry, matched: seq<Entry>, scripts: seq<Script>, id: Id)
    requires AskNothing(scripts)
    ensures ToldSo(AbandonAll(r, matched, scripts), id) == ToldSo(r, id) + No(Count(matched, id))
    decreases |matched|
  {
    hide *;
    AbandonShape(r, matched, scripts);
    NoOnce(matched, id);
    if matched != [] {
      AbandonOneTells(r, matched[0], scripts, id);
      AbandonAllTells(AbandonOne(r, matched[0], scripts), matched[1..], Rest(scripts, 1), id);
    }
  }

  lemma {:induction false} AbandonAllMoves(r: Registry, matched: seq<Entry>, scripts: seq<Script>)
    requires AskNothing(scripts)
    ensures OnlyAttaches(r, AbandonAll(r, matched, scripts)) && AbandonAll(r, matched, scripts).armed == r.armed
    decreases |matched|
  {
    hide *;
    AbandonShape(r, matched, scripts);
    NothingAttached(r);
    if matched != [] {
      var r1 := AbandonOne(r, matched[0], scripts);
      AbandonAllMoves(r1, matched[1..], Rest(scripts, 1));
      OnlyAttachesTwice(r, r1, AbandonAll(r1, matched[1..], Rest(scripts, 1)));
    }
  }

  lemma NothingAttached(r: Registry)
    ensures OnlyAttaches(r, r)
  {
  }

  lemma {:induction false} AbandonAllRetires(r: Registry, matched: seq<Entry>, scripts: seq<Script>, id: Id)
    requires AskNothing(scripts)
    ensures var r' := AbandonAll(r, matched, scripts);
            if Count(matched, id) > 0 then id in r'.gone && r'.gone[id] == Abandoned
            else (id in r'.gone <==> id in r.gone) && (id in r.gone ==> r'.gone[id] == r.gone[id])
    decreases |matched|
  {
    AbandonShape(r, matched, scripts);
    if matched != [] {
      AbandonOneExactly(r, matched[0], scripts);
      NoOnce(matched, id);
      hide AbandonAll, AbandonOne, AskNothing, No, Count;
      AbandonAllRetires(AbandonOne(r, matched[0], scripts), matched[1..], Rest(scripts, 1), id);
    }
  }

  /** Abandoning an object takes its pending entries out, tells each no and nobody else
      anything, and reports one edge if there was one; what is armed or held stays. */
  lemma AbandonTellsNo(r: Registry, n: Name, scripts: seq<Script>, watcher: Script, id: Id)
    requires AskNothing(scripts) && AsksNothing(watcher)
    ensures var r', matched := Abandon(r, n, scripts, watcher), Named(r.entries, n);
            && r'.entries == NotNamed(r.entries, n) && r'.armed == r.armed && r'.held == r.held && r'.handles == r.handles
            && r'.edges == r.edges + (if matched == [] then [] else [Edge(n, AbandonedEdge, Gen(r, n))])
            && ToldSo(r', id) == ToldSo(r, id) + No(Count(matched, id))
            && (Count(matched, id) > 0 ==> id in r'.gone && r'.gone[id] == Abandoned)
            && (Count(matched, id) == 0 ==> (id in r'.gone <==> id in r.gone))
  {
    var taken, matched := TakeMatching(r, n), Named(r.entries, n);
    var r1 := AbandonAll(taken, matched, scripts);
    TakeFrame(r, n);
    TakenPending(r, n);
    AbandonAllMoves(taken, matched, scripts);
    AbandonAllTells(taken, matched, scripts, id);
    AbandonAllRetires(taken, matched, scripts, id);
    SilentWatcher(r1, n, AbandonedEdge, watcher);
    hide TakeMatching, AbandonAll, Notify, Named, NotNamed, Count, No, AskNothing;
  }

  // ----------------------------------------------------------------- the timer's pace

  /** Making sure of the timer never stops it; taking the last that is pending, or dropping
      it, does if nothing is armed. */
  lemma TimerStartsAndStops(r: Registry, n: Name, id: Id)
    ensures var needed := r.entries != [] || r.armed != [];
            EnsureTimer(r) == if needed then r.(timerOn := true, interval := 250) else r
    ensures var r' := TakeMatching(r, n); r'.timerOn == (r.timerOn && (r'.entries != [] || r'.armed != [])) && r'.interval == r.interval
    ensures var r' := DropPending(r, id); r'.timerOn == (r.timerOn && (r'.entries != [] || r'.armed != [])) && r'.interval == r.interval
  {
    hide Without, NotNamed;
  }

  function Rescheduled(r: Registry, k: nat): Registry {
    if k == 0 then EnsureTimer(r) else RescheduleOrStop(Rescheduled(r, k - 1))
  }

  function Power(k: nat): nat {
    if k == 0 then 1 else 2 * Power(k - 1)
  }

  lemma {:induction false} PowerGrows(k: nat)
    ensures Power(k) >= 1 && (k >= 5 ==> Power(k) >= 32)
  {
    if k > 0 { PowerGrows(k - 1); }
  }

  /** While something pending is still being worked on, the timer runs and its interval
      doubles from 250 ms up to 5 s. */
  lemma {:induction false} BackoffDoubles(r: Registry, k: nat, e: Entry)
    requires e in r.entries && !(e.name in r.acquiring && e.warn >= 2)
    ensures var r' := Rescheduled(r, k);
            && r' == r.(timerOn := true, interval := r'.interval)
            && r'.interval == if 250 * Power(k) < 5000 then 250 * Power(k) else 5000
  {
    PowerGrows(k);
    if k > 0 {
      BackoffDoubles(r, k - 1, e);
      assert !Quiet(Rescheduled(r, k - 1), e);
    }
  }

  /** With nothing pending it runs once a second while anything is armed, and not at all
      otherwise; nor when all that is pending has its acquire under way and has warned its
      last, unless something is armed. */
  lemma CadenceWhenQuiet(r: Registry)
    requires forall e :: e in r.entries ==> e.name in r.acquiring && e.warn >= 2
    ensures var r' := RescheduleOrStop(r);
            && r' == r.(timerOn := r'.timerOn, interval := r'.interval)
            && (r'.timerOn <==> r.armed != []) && (r.armed != [] ==> r'.interval == 1000)
  {
    forall e | e in r.entries ensures Quiet(r, e) {}
  }

  /** An entry warns after three seconds and once more after a minute, one warning a tick,
      and keeps its place. */
  lemma {:induction false} WarnsTwice(s: seq<Entry>, age: map<Id, nat>, i: nat)
    requires i < |s| && s[i].id in age
    ensures |Warned(s, age)| == |s|
    ensures Warned(s, age)[i] ==
              s[i].(warn := if s[i].warn == 0 then (if age[s[i].id] >= 3000 then 1 else 0)
                            else if s[i].warn == 1 then (if age[s[i].id] >= 60000 then 2 else 1) else s[i].warn)
  {
    WarnedSame(s, age);
    WarnedSame(s[1..], age);
    if i > 0 {
      WarnsTwice(s[1..], age, i - 1);
      assert Warned(s, age)[1..] == Warned(s[1..], age);
      assert Warned(s, age)[i] == Warned(s[1..], age)[i - 1];
    }
  }

  // ------------------------------------------------------ told first, and free to answer

  lemma {:induction false} EdgesGrow(s: seq<Edge>, t: seq<Edge>, n: Name)
    requires s <= t
    ensures EdgesOf(s, n) <= EdgesOf(t, n)
    decreases |t|
  {
    if s != t {
      assert s <= t[..|t| - 1];
      EdgesGrow(s, t[..|t| - 1], n);
    }
  }

  /** A watcher told that its subscriptions are held may rearm them there and then: they
      have been parked by that time, so none is left held, and it hears of the loss before
      anything its rearm brings about. */
  lemma HeldWatcherCanRearm(r: Registry, l: Loss, a: Answer, scripts: seq<Script>)
    requires SetToManual(r, l.name) && Named(r.armed, l.name) != []
    requires l.watcher == Script([RearmRequest(l.name, a, scripts)])
    ensures var r' := Lose(r, l);
            && (forall x :: x in r'.held ==> x.name != l.name)
            && EdgesOf(r.edges, l.name) + [Edge(l.name, HeldEdge, Gen(r, l.name))] <= EdgesOf(r'.edges, l.name)
  {
    var n, r1 := l.name, Dropped(r, l.name);
    var r2 := Report(r1, n, HeldEdge);
    var r3 := Rearm(r2, n, a, scripts);
    assert Notify(r1, n, HeldEdge, l.watcher) == r3 by { hide Report, Rearm; assert RunScript(r2, l.watcher.requests) == RunScript(r3, []); }
    var r4 := if Named(r3.entries, n) == [] then r3 else BeginAcquire(r3, n, l.answer, l.scripts).0;
    assert Lose(r, l) == r4 by { hide Dropped, Notify, BeginAcquire; }
    hide *;
    DroppedExactly(r, n);
    ReportedEdges(r1, n, HeldEdge, n);
    GenAs(r, r1, n);
    RearmShrinks(r2, n, a, scripts);
    RearmGrows(r2, n, a, scripts);
    AcquireGrows(r3, n, l.answer, l.scripts);
    EdgesGrow(r2.edges, r4.edges, n);
  }

  lemma RearmGrows(r: Registry, n: Name, a: Answer, scripts: seq<Script>)
    ensures r.edges <= Rearm(r, n, a, scripts).edges
  {
    FreeScripts(scripts);
    RearmKept(r, n, a, scripts, n, FREE);
    hide Rearm;
  }

  lemma AcquireGrows(r: Registry, n: Name, a: Answer, scripts: seq<Script>)
    ensures r.edges <= BeginAcquire(r, n, a, scripts).0.edges
    ensures forall x :: x in BeginAcquire(r, n, a, scripts).0.held ==> x in r.held
  {
    FreeScripts(scripts);
    AcquireKept(r, n, a, scripts, n, FREE);
    hide BeginAcquire;
  }
}
