/** What one arming of the deferred-subscription registry does when its callbacks ask for
    nothing: which handle it leaves, what it attaches and in which order, whom it answers
    and which edge it reports. */
module DeferredArming {
  import opened DeferredSubscriptions
  import opened DeferredSafety
  import opened DeferredRuns
  import opened DeferredTheorems
  import opened DeferredGenerations
  import opened Wrappers

  // ------------------------------------------------------- vectors, object by object

  lemma {:induction false} NamedAppend(a: seq<Entry>, b: seq<Entry>, n: Name)
    ensures Named(a + b, n) == Named(a, n) + Named(b, n)
  {
    if a == [] {
      assert a + b == b;
    } else {
      assert (a + b)[1..] == a[1..] + b;
      NamedAppend(a[1..], b, n);
    }
  }

  lemma {:induction false} AllNamed(s: seq<Entry>, m: Name, n: Name)
    requires forall e :: e in s ==> e.name == m
    ensures Named(s, n) == if m == n then s else []
  {
    if s != [] {
      assert s == [s[0]] + s[1..];
      AllNamed(s[1..], m, n);
    }
  }

  lemma {:induction false} NamedOthers(s: seq<Entry>, m: Name, n: Name)
    ensures Named(NotNamed(s, m), n) == if m == n then [] else Named(s, n)
  {
    if s != [] {
      NamedOthers(s[1..], m, n);
      if s[0].name != m { NamedAppend([s[0]], NotNamed(s[1..], m), n); }
    }
  }

  lemma {:induction false} NamedRevived(s: seq<Entry>, restart: bool, n: Name)
    ensures Named(Revived(s, restart), n) == Revived(Named(s, n), restart)
  {
    if s != [] {
      NamedRevived(s[1..], restart, n);
      NamedAppend([if restart then s[0].(warn := 0) else s[0]], Revived(s[1..], restart), n);
    }
  }

  // The edges an object's watcher was due, in order.
  function EdgesOf(s: seq<Edge>, n: Name): seq<Edge> {
    if s == [] then [] else EdgesOf(s[..|s| - 1], n) + if s[|s| - 1].name == n then [s[|s| - 1]] else []
  }

  lemma ReportedEdges(r: Registry, m: Name, kind: EdgeKind, n: Name)
    ensures EdgesOf(Report(r, m, kind).edges, n) == EdgesOf(r.edges, n) + if m == n then [Edge(n, kind, Gen(r, n))] else []
  {
    var t := Report(r, m, kind).edges;
    assert t[..|t| - 1] == r.edges;
  }

  // ------------------------------------------------------------ callbacks that ask nothing

  predicate AsksNothing(s: Script) {
    s.requests == []
  }

  predicate AskNothing(scripts: seq<Script>) {
    forall s :: s in scripts ==> AsksNothing(s)
  }

  lemma SilentCallback(r: Registry, scripts: seq<Script>)
    requires AskNothing(scripts)
    ensures Callback(r, scripts) == r
  {
    if scripts != [] { assert scripts[0] in scripts; }
  }

  lemma SilentWatcher(r: Registry, n: Name, kind: EdgeKind, watcher: Script)
    requires AsksNothing(watcher)
    ensures Notify(r, n, kind, watcher) == Report(r, n, kind)
  {
    hide Report;
  }

  lemma SilentRest(scripts: seq<Script>, k: nat)
    requires AskNothing(scripts)
    ensures AskNothing(Rest(scripts, k))
  {
  }

  // ------------------------------------------------------------------------ arming

  // The subscriptions an arming on `h` leaves armed, in the order they were waiting.
  function Attached(matched: seq<Entry>, h: Handle): seq<Entry> {
    if matched == [] then []
    else (if matched[0].readinessOnly then [] else [matched[0].(everArmed := true, at := Some(h))]) + Attached(matched[1..], h)
  }

  // What an entry's callback has been told.
  function ToldSo(r: Registry, id: Id): seq<bool> {
    if id in r.told then r.told[id] else []
  }

  // Everything but the lists and the answers of those being attached.
  predicate OnlyAttaches(r: Registry, r': Registry) {
    r' == r.(armed := r'.armed, told := r'.told, gone := r'.gone, inHand := r'.inHand)
  }

  lemma AttachOneExactly(r: Registry, h: Handle, e: Entry, scripts: seq<Script>)
    requires AskNothing(scripts)
    ensures var r' := AttachOne(r, h, e, scripts);
            && OnlyAttaches(r, r') && r'.armed == r.armed + Attached([e], h)
            && r'.told == r.told[e.id := ToldSo(r, e.id) + [true]]
            && r'.gone == if e.readinessOnly then r.gone[e.id := ReadinessAnswered] else r.gone
  {
    SilentCallback(Tell(r, e.id, true), scripts);
    SilentCallback(Depart(Tell(r, e.id, true), e.id, ReadinessAnswered), scripts);
    hide Callback;
    assert [e][1..] == [];
  }

  lemma AttachShape(r: Registry, h: Handle, matched: seq<Entry>, scripts: seq<Script>)
    ensures AttachAll(r, h, matched, scripts) ==
              if matched == [] then r else AttachAll(AttachOne(r, h, matched[0], scripts), h, matched[1..], Rest(scripts, 1))
  {
    hide AttachOne;
  }

  lemma OnlyAttachesTwice(a: Registry, b: Registry, c: Registry)
    requires OnlyAttaches(a, b) && OnlyAttaches(b, c)
    ensures OnlyAttaches(a, c)
  {
  }

  lemma AttachedSplit(matched: seq<Entry>, h: Handle)
    requires matched != []
    ensures Attached(matched, h) == Attached([matched[0]], h) + Attached(matched[1..], h)
  {
    assert [matched[0]][1..] == [];
  }

  lemma {:induction false} AttachExactly(r: Registry, h: Handle, matched: seq<Entry>, scripts: seq<Script>)
    requires AskNothing(scripts)
    ensures OnlyAttaches(r, AttachAll(r, h, matched, scripts))
    ensures AttachAll(r, h, matched, scripts).armed == r.armed + Attached(matched, h)
    decreases |matched|
  {
    AttachShape(r, h, matched, scripts);
    if matched == [] {
      hide AttachAll;
    } else {
      hide *;
      var r1 := AttachOne(r, h, matched[0], scripts);
      AttachOneExactly(r, h, matched[0], scripts);
      SilentRest(scripts, 1);
      AttachExactly(r1, h, matched[1..], Rest(scripts, 1));
      OnlyAttachesTwice(r, r1, AttachAll(r1, h, matched[1..], Rest(scripts, 1)));
      AttachedSplit(matched, h);
    }
  }

  function Yes(k: nat): seq<bool> {
    if k == 0 then [] else [true] + Yes(k - 1)
  }

  // Every entry taken is answered yes,
  lemma {:induction false} AttachTells(r: Registry, h: Handle, matched: seq<Entry>, scripts: seq<Script>, id: Id)
    requires AskNothing(scripts)
    ensures ToldSo(AttachAll(r, h, matched, scripts), id) == ToldSo(r, id) + Yes(Count(matched, id))
    decreases |matched|
  {
    AttachShape(r, h, matched, scripts);
    YesOnce(matched, id);
    hide *;
    if matched != [] {
      var r1 := AttachOne(r, h, matched[0], scripts);
      AttachOneTells(r, h, matched[0], scripts, id);
      SilentRest(scripts, 1);
      AttachTells(r1, h, matched[1..], Rest(scripts, 1), id);
    }
  }

  lemma AttachOneTells(r: Registry, h: Handle, e: Entry, scripts: seq<Script>, id: Id)
    requires AskNothing(scripts)
    ensures ToldSo(AttachOne(r, h, e, scripts), id) == ToldSo(r, id) + if e.id == id then [true] else []
  {
    AttachOneExactly(r, h, e, scripts);
    hide AttachOne;
  }

  lemma YesOnce(matched: seq<Entry>, id: Id)
    ensures Yes(Count(matched, id)) ==
              if matched == [] then [] else (if matched[0].id == id then [true] else []) + Yes(Count(matched[1..], id))
  {
  }

  // and a probe is then gone.
  lemma {:induction false} AttachRetires(r: Registry, h: Handle, matched: seq<Entry>, scripts: seq<Script>, id: Id)
    requires AskNothing(scripts)
    ensures id in AttachAll(r, h, matched, scripts).gone <==> id in r.gone || exists e :: e in matched && e.id == id && e.readinessOnly
    ensures (exists e :: e in matched && e.id == id && e.readinessOnly) ==> AttachAll(r, h, matched, scripts).gone[id] == ReadinessAnswered
    ensures !(exists e :: e in matched && e.id == id && e.readinessOnly) && id in r.gone ==>
              AttachAll(r, h, matched, scripts).gone[id] == r.gone[id]
    decreases |matched|
  {
    AttachShape(r, h, matched, scripts);
    if matched != [] {
      hide AttachAll, AttachOne, AskNothing, Attached, OnlyAttaches;
      var e, r1 := matched[0], AttachOne(r, h, matched[0], scripts);
      AttachOneExactly(r, h, e, scripts);
      SilentRest(scripts, 1);
      AttachRetires(r1, h, matched[1..], Rest(scripts, 1), id);
      assert matched == [e] + matched[1..];
    }
  }

  lemma FilesOrGivesBack(r: Registry, n: Name, obj: Handle)
    ensures var r' := File(r, n, obj);
            && OnlyFiles(r, r') && r'.entries == r.entries && r'.armed == r.armed
            && if n !in r.handles || r.handles[n] == obj then r'.handles == r.handles[n := obj] && r'.released == r.released
               else r'.handles == r.handles && r'.released == r.released + multiset{(n, obj)}
  {
    if n in r.handles && r.handles[n] == obj { assert r.handles[n := obj] == r.handles; }
  }

  lemma ForgetsAndRevives(r: Registry, n: Name)
    requires n in r.handles
    ensures var r' := Forget(ReviveArmed(r, n), n, Replaced);
            && OnlyFiles(r, r') && r'.handles == r.handles - {n} && r'.released == r.released + multiset{(n, r.handles[n])}
            && r'.entries == r.entries + Revived(Named(r.armed, n), false) && r'.armed == NotNamed(r.armed, n)
  {
    hide Revived, Named, NotNamed, Riding;
  }

  // Everything but the vectors, the handles and what is given back.
  predicate OnlyFiles(r: Registry, r': Registry) {
    r' == r.(entries := r'.entries, armed := r'.armed, handles := r'.handles, released := r'.released, ended := r'.ended, undercut := r'.undercut)
  }

  lemma OnlyFilesTwice(a: Registry, b: Registry, c: Registry)
    requires OnlyFiles(a, b) && OnlyFiles(b, c)
    ensures OnlyFiles(a, c)
  {
  }

  /** What a handle that arrives replaces: nothing, if none is held or this very one; itself
      is given back, if a live one is held; and a stale one is, with what was armed on it
      pending again. */
  lemma AdoptsTheLive(r: Registry, n: Name, obj: Handle)
    ensures var r' := Adopt(r, n, obj);
            && OnlyFiles(r, r')
            && if n !in r.handles || r.handles[n] == obj then
                 r'.entries == r.entries && r'.armed == r.armed && r'.handles == r.handles[n := obj] && r'.released == r.released
               else if r.handles[n] in r.valid then
                 r'.entries == r.entries && r'.armed == r.armed && r'.handles == r.handles && r'.released == r.released + multiset{(n, obj)}
               else
                 && r'.handles == r.handles[n := obj] && r'.released == r.released + multiset{(n, r.handles[n])}
                 && r'.entries == r.entries + Revived(Named(r.armed, n), false) && r'.armed == NotNamed(r.armed, n)
  {
    hide File, Forget, ReviveArmed, Revived, Named, NotNamed;
    if StaleFor(r, n, obj) {
      var r1 := Forget(ReviveArmed(r, n), n, Replaced);
      ForgetsAndRevives(r, n);
      FilesOrGivesBack(r1, n, obj);
      OnlyFilesTwice(r, r1, File(r1, n, obj));
      assert (r.handles - {n})[n := obj] == r.handles[n := obj];
    } else {
      FilesOrGivesBack(r, n, obj);
    }
    hide OnlyFiles;
  }

  // The lists an arming leaves.
  lemma ArmExactly(r: Registry, n: Name, obj: Handle, scripts: seq<Script>)
    requires AskNothing(scripts)
    ensures var a, r' := Adopt(r, n, obj), ArmAgainst(r, n, obj, scripts);
            && r'.entries == NotNamed(a.entries, n) && r'.held == a.held
            && r'.armed == a.armed + Attached(Named(a.entries, n), a.handles[n])
            && r'.handles == a.handles && r'.acquiring == a.acquiring && r'.canDefer == a.canDefer
            && r'.valid == a.valid && r'.nextHandle == a.nextHandle
  {
    var a := Adopt(r, n, obj);
    var h, matched := a.handles[n], Named(a.entries, n);
    FiledShape(r, n, obj, scripts);
    TakeExactly(a, n, h);
    AttachExactly(TakeForArming(a, n, h), h, matched, scripts);
    var r3 := AttachAll(TakeForArming(a, n, h), h, matched, scripts);
    SilentRest(scripts, |matched|);
    SilentCallback(Report(r3, n, ArmedEdge), Rest(scripts, |matched|));
    hide Adopt, TakeForArming, AttachAll, Callback, Named, NotNamed, AnyReal, ArmAgainst, Attached, Rest, AskNothing;
  }

  // Everything an arming takes leaves the rest where it is.
  lemma TakeExactly(r: Registry, n: Name, h: Handle)
    ensures var r' := TakeForArming(r, n, h);
            && r'.entries == NotNamed(r.entries, n) && r'.held == r.held && r'.acquiring == r.acquiring && r'.canDefer == r.canDefer
            && r'.edges == r.edges && r'.told == r.told && r'.gone == r.gone && r'.nextHandle == r.nextHandle
    ensures SameArming(r, TakeForArming(r, n, h))
  {
    TakeMoves(r, n, h);
    hide Named, NotNamed, AnyReal, RealIds, SameArming, TakeMatching, Advance;
    TakeFrame(r, n);
    TakenPending(r, n);
    AdvancesOnly(InHand(TakeMatching(r, n), RealIds(Named(r.entries, n)), h), n, h);
  }

  lemma TakenPending(r: Registry, n: Name)
    ensures TakeMatching(r, n).entries == NotNamed(r.entries, n)
  {
    hide NotNamed;
  }

  lemma AdvancesOnly(r: Registry, n: Name, h: Handle)
    ensures var r' := Advance(r, n, h); r' == r.(targets := r'.targets, armedOn := r'.armedOn, open := r'.open, crossed := r'.crossed)
  {
  }

  lemma AdvancedTargets(r: Registry, n: Name, h: Handle, m: Name)
    ensures TargetOf(Advance(r, n, h), m).restart == TargetOf(r, m).restart
    ensures Gen(Advance(r, n, h), m) == Gen(r, m) + if m == n then 1 else 0
  {
  }

  lemma TakenTargets(r: Registry, n: Name, h: Handle, m: Name)
    ensures var r' := TakeForArming(r, n, h);
            && TargetOf(r', m).restart == TargetOf(r, m).restart
            && Gen(r', m) == Gen(r, m) + (if m == n && AnyReal(Named(r.entries, n)) then 1 else 0)
  {
    var r1 := InHand(TakeMatching(r, n), RealIds(Named(r.entries, n)), h);
    assert r1.targets == r.targets by { TakeFrame(r, n); hide TakeMatching, Named, RealIds; }
    hide Named, AnyReal, TakeMatching, InHand, Advance;
    AdvancedTargets(r1, n, h, m);
  }

  lemma TakenQuietly(r: Registry, n: Name, obj: Handle, scripts: seq<Script>)
    requires AskNothing(scripts)
    ensures var a := Adopt(r, n, obj);
            var matched := Named(a.entries, n);
            var r2 := TakeForArming(a, n, a.handles[n]);
            var r3 := AttachAll(r2, a.handles[n], matched, scripts);
            && OnlyAttaches(r2, r3)
            && ArmAgainst(r, n, obj, scripts) == EnsureTimer(if AnyReal(matched) then Report(r3, n, ArmedEdge) else r3)
  {
    var a := Adopt(r, n, obj);
    var h, matched := a.handles[n], Named(a.entries, n);
    FiledShape(r, n, obj, scripts);
    AttachExactly(TakeForArming(a, n, h), h, matched, scripts);
    var r3 := AttachAll(TakeForArming(a, n, h), h, matched, scripts);
    SilentRest(scripts, |matched|);
    SilentCallback(Report(r3, n, ArmedEdge), Rest(scripts, |matched|));
    hide *;
  }

  /** One edge for an arming with a real entry, of the generation it makes, and none for any
      other object. */
  lemma ArmReports(r: Registry, n: Name, obj: Handle, scripts: seq<Script>, m: Name)
    requires AskNothing(scripts)
    ensures var r', due := ArmAgainst(r, n, obj, scripts), m == n && AnyReal(Named(Adopt(r, n, obj).entries, n));
            && EdgesOf(r'.edges, m) == EdgesOf(r.edges, m) + (if due then [Edge(n, ArmedEdge, Gen(r, n) + 1)] else [])
            && Gen(r', m) == Gen(r, m) + (if due then 1 else 0) && TargetOf(r', m).restart == TargetOf(r, m).restart
  {
    hide *;
    var a := Adopt(r, n, obj);
    var r2, matched := TakeForArming(a, n, a.handles[n]), Named(a.entries, n);
    var r3 := AttachAll(r2, a.handles[n], matched, scripts);
    var r4 := if AnyReal(matched) then Report(r3, n, ArmedEdge) else r3;
    TakenQuietly(r, n, obj, scripts);
    AdoptsTheLive(r, n, obj);
    TakeExactly(a, n, a.handles[n]);
    TakenTargets(a, n, a.handles[n], m);
    QuietFields(r, a, m);
    QuietFields(r2, r3, m);
    ReportedEdges(r3, n, ArmedEdge, m);
    ReportedTargets(r3, n, ArmedEdge, m);
    QuietFields(r4, EnsureTimer(r4), m);
  }

  lemma QuietFields(r: Registry, r': Registry, m: Name)
    requires OnlyFiles(r, r') || OnlyAttaches(r, r') || r' == EnsureTimer(r)
    ensures r'.edges == r.edges && Gen(r', m) == Gen(r, m) && TargetOf(r', m).restart == TargetOf(r, m).restart
  {
  }

  lemma ReportedTargets(r: Registry, n: Name, kind: EdgeKind, m: Name)
    ensures Gen(Report(r, n, kind), m) == Gen(r, m) && TargetOf(Report(r, n, kind), m).restart == TargetOf(r, m).restart
  {
  }

  // ----------------------------------------------------------- who is still waiting

  // The same subscription, wherever it has got to.
  predicate Same(x: Entry, e: Entry) {
    x.id == e.id && x.name == e.name && x.event == e.event && x.readinessOnly == e.readinessOnly
  }

  // A real subscription that is pending or armed.
  ghost predicate Alive(r: Registry, e: Entry) {
    !e.readinessOnly && exists x :: (x in r.entries || x in r.armed) && Same(x, e)
  }

  lemma {:induction false} AttachedKeeps(matched: seq<Entry>, h: Handle, x: Entry)
    requires x in matched && !x.readinessOnly
    ensures x.(everArmed := true, at := Some(h)) in Attached(matched, h)
  {
    if x != matched[0] { AttachedKeeps(matched[1..], h, x); }
  }

  lemma {:induction false} RevivedKeeps(s: seq<Entry>, restart: bool, x: Entry)
    requires x in s
    ensures (if restart then x.(warn := 0) else x) in Revived(s, restart)
  {
    if x != s[0] { RevivedKeeps(s[1..], restart, x); }
  }

  lemma AdoptKeepsAlive(r: Registry, n: Name, obj: Handle, e: Entry)
    requires Alive(r, e)
    ensures Alive(Adopt(r, n, obj), e)
  {
    var x :| (x in r.entries || x in r.armed) && Same(x, e);
    AdoptsTheLive(r, n, obj);
    MembersByName(r.armed, n);
    if x in Named(r.armed, n) { RevivedKeeps(Named(r.armed, n), false, x); }
    hide Adopt, Named, NotNamed, Revived, OnlyFiles;
    assert x in Adopt(r, n, obj).entries || x in Adopt(r, n, obj).armed;
  }

  lemma ArmKeepsAlive(r: Registry, n: Name, obj: Handle, scripts: seq<Script>, e: Entry)
    requires AskNothing(scripts) && Alive(r, e)
    ensures Alive(ArmAgainst(r, n, obj, scripts), e)
  {
    AdoptKeepsAlive(r, n, obj, e);
    var a, r' := Adopt(r, n, obj), ArmAgainst(r, n, obj, scripts);
    var x :| (x in a.entries || x in a.armed) && Same(x, e);
    ArmExactly(r, n, obj, scripts);
    MembersByName(a.entries, n);
    var y := if x in Named(a.entries, n) then x.(everArmed := true, at := Some(a.handles[n])) else x;
    if x in Named(a.entries, n) { AttachedKeeps(Named(a.entries, n), a.handles[n], x); }
    hide Adopt, ArmAgainst, Named, NotNamed, Attached, AskNothing;
    assert (y in r'.entries || y in r'.armed) && Same(y, e);
  }

  // What is armed for other objects stays, and so does what is held.
  lemma ArmElsewhere(r: Registry, n: Name, obj: Handle, scripts: seq<Script>)
    requires AskNothing(scripts)
    ensures var r' := ArmAgainst(r, n, obj, scripts);
            && r'.held == r.held && r'.acquiring == r.acquiring && r'.canDefer == r.canDefer
            && (forall e :: e in r.armed && e.name != n ==> e in r'.armed)
  {
    ArmExactly(r, n, obj, scripts);
    AdoptsTheLive(r, n, obj);
    MembersByName(r.armed, n);
    hide Adopt, ArmAgainst, Named, NotNamed, Attached, AskNothing, Revived;
  }

  /** Each entry an arming takes is answered yes, once, and nobody else is answered; a probe
      is then gone. */
  lemma ArmTells(r: Registry, n: Name, obj: Handle, scripts: seq<Script>, id: Id)
    requires AskNothing(scripts)
    ensures var matched, r' := Named(Adopt(r, n, obj).entries, n), ArmAgainst(r, n, obj, scripts);
            && ToldSo(r', id) == ToldSo(r, id) + Yes(Count(matched, id))
            && (id in r'.gone <==> id in r.gone || exists e :: e in matched && e.id == id && e.readinessOnly)
            && ((exists e :: e in matched && e.id == id && e.readinessOnly) ==> r'.gone[id] == ReadinessAnswered)
  {
    var a := Adopt(r, n, obj);
    TakenQuietly(r, n, obj, scripts);
    AdoptsTheLive(r, n, obj);
    TakeExactly(a, n, a.handles[n]);
    AttachTells(TakeForArming(a, n, a.handles[n]), a.handles[n], Named(a.entries, n), scripts, id);
    AttachRetires(TakeForArming(a, n, a.handles[n]), a.handles[n], Named(a.entries, n), scripts, id);
    hide Adopt, TakeForArming, AttachAll, ArmAgainst, Named, AnyReal, AskNothing, Yes, Count, OnlyAttaches;
  }
}
