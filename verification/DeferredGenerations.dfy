/** Generations, edges and held entries: each arming advances its object's generation
    once and is told once, and nothing but a rearm or a cancel moves what is held.  One relation
    between the registry before and after is followed through every operation, under
    limits on what its callbacks may ask for. */
module DeferredGenerations {
  import opened DeferredSubscriptions
  import opened DeferredSafety
  import opened DeferredRuns
  import opened DeferredTheorems
  import opened Wrappers

  // -------------------------------------------------------------------- the relation

  function Gen(r: Registry, n: Name): nat {
    TargetOf(r, n).generation
  }

  // How many Armed edges an object's watcher was due.
  function ArmedEdges(s: seq<Edge>, n: Name): nat {
    if s == [] then 0
    else ArmedEdges(s[..|s| - 1], n) + if s[|s| - 1].kind.ArmedEdge? && s[|s| - 1].name == n then 1 else 0
  }

  /** What the callbacks of an operation are known not to do: cancel `kept` or rearm its
      object; or, if `plain`, anything at all. */
  datatype Limits = Limits(kept: Option<Entry>, plain: bool)

  const FREE := Limits(None, false)
  const PLAIN := Limits(None, true)

  ghost predicate Spares(q: Request, e: Limits) {
    match q
    case AddRequest(_, _, _, _, scripts) => SparesAll(scripts, e)
    case CancelRequest(id) => e.kept.Some? ==> id != e.kept.value.id
    case RearmRequest(n, _, scripts) => (e.kept.Some? ==> n != e.kept.value.name) && SparesAll(scripts, e)
    case PolicyRequest(_, _) => true
  }

  ghost predicate SparesAll(scripts: seq<Script>, e: Limits) {
    forall s :: s in scripts ==> SparesEach(s.requests, e)
  }

  ghost predicate SparesEach(requests: seq<Request>, e: Limits) {
    (e.plain ==> requests == []) && forall q :: q in requests ==> Spares(q, e)
  }

  lemma {:induction false} FreeRequest(q: Request)
    ensures Spares(q, FREE)
    decreases q, 0
  {
    if q.AddRequest? || q.RearmRequest? { FreeScripts(q.scripts); }
  }

  lemma {:induction false} FreeScripts(scripts: seq<Script>)
    ensures SparesAll(scripts, FREE)
    decreases scripts, 1
  {
    forall s | s in scripts ensures SparesEach(s.requests, FREE) { FreeRequests(s.requests); }
  }

  lemma {:induction false} FreeRequests(requests: seq<Request>)
    ensures SparesEach(requests, FREE)
    decreases requests, 0
  {
    forall q | q in requests ensures Spares(q, FREE) { FreeRequest(q); }
  }

  // Every Armed edge of `n` carries its own ordinal: 1, 2, 3 and so on.
  ghost predicate Numbered(s: seq<Edge>, n: Name) {
    forall i :: 0 <= i < |s| && s[i].kind.ArmedEdge? && s[i].name == n ==> s[i].generation == ArmedEdges(s[..i + 1], n)
  }

  /** An object's generation counts the Armed edges it was told and the armings still to
      be told; and its edges are numbered unless two of its armings have overlapped, or
      while the second of such two is still to be told. */
  ghost predicate Tallied(r: Registry, n: Name) {
    && Gen(r, n) == ArmedEdges(r.edges, n) + r.open[n]
    && (n !in r.crossed ==> r.open[n] <= 1 && Numbered(r.edges, n))
    && (n in r.crossed ==> r.open[n] >= 2 || !Numbered(r.edges, n))
  }

  /** From `r` to `r'`: for `n`, as many generations as Armed edges; edges and the handles
      of generations are only added; the entry to keep stays held if it was; and where no
      callback asks for anything no two armings cross. */
  ghost predicate Kept(r: Registry, r': Registry, n: Name, e: Limits) {
    && Gen(r', n) - ArmedEdges(r'.edges, n) == Gen(r, n) - ArmedEdges(r.edges, n)
    && Gen(r, n) <= Gen(r', n) && r.edges <= r'.edges && Line(r, n) <= Line(r', n)
    && r'.open[n] == r.open[n] && (Tallied(r, n) ==> Tallied(r', n))
    && (e.kept.Some? && e.kept.value in r.held ==> e.kept.value in r'.held)
    && (e.plain && r.open[n] == 0 && n in r'.crossed ==> n in r.crossed)
  }

  // Inside an arming nothing is reported but armings.
  ghost predicate OnlyArmed(r: Registry, r': Registry) {
    r.edges <= r'.edges && forall i :: |r.edges| <= i < |r'.edges| ==> r'.edges[i].kind.ArmedEdge?
  }

  // Nothing is newly held.
  ghost predicate HeldShrinks(r: Registry, r': Registry) {
    forall x :: x in r'.held ==> x in r.held
  }

  ghost predicate Nested(r: Registry, r': Registry, n: Name, e: Limits) {
    Kept(r, r', n, e) && OnlyArmed(r, r') && HeldShrinks(r, r')
  }

  // The same record of generations and edges.
  ghost predicate SameRecord(r: Registry, r': Registry) {
    r'.targets == r.targets && r'.edges == r.edges && r'.armedOn == r.armedOn && r'.open == r.open && r'.crossed == r.crossed
  }

  lemma Keeping(r: Registry, r1: Registry, r2: Registry, n: Name, e: Limits)
    requires Kept(r, r1, n, e) && Kept(r1, r2, n, e)
    ensures Kept(r, r2, n, e)
  {
    hide Tallied;
  }

  lemma Nesting(r: Registry, r1: Registry, r2: Registry, n: Name, e: Limits)
    requires Nested(r, r1, n, e) && Nested(r1, r2, n, e)
    ensures Nested(r, r2, n, e)
  {
    Keeping(r, r1, r2, n, e);
    hide Kept;
    forall i | |r.edges| <= i < |r2.edges| ensures r2.edges[i].kind.ArmedEdge? {
      if i < |r1.edges| { assert r2.edges[i] == r1.edges[i]; }
    }
  }

  lemma SameTally(r: Registry, r': Registry, n: Name)
    requires Tallied(r, n) && r'.edges == r.edges && r'.open == r.open && r'.crossed == r.crossed && Gen(r', n) == Gen(r, n)
    ensures Tallied(r', n)
  {
  }

  lemma KeptSame(r: Registry, r': Registry, n: Name, e: Limits)
    requires SameRecord(r, r') && r.held <= r'.held
    ensures Kept(r, r', n, e) && (r'.held == r.held ==> Nested(r, r', n, e))
  {
    if Tallied(r, n) { SameTally(r, r', n); }
    hide Tallied;
    assert forall x :: x in r.held ==> x in r'.held by {
      forall x | x in r.held ensures x in r'.held {
        var i :| 0 <= i < |r.held| && r.held[i] == x;
        assert r'.held[i] == x;
      }
    }
  }

  lemma OneMoreEdge(s: seq<Edge>, x: Edge, n: Name)
    ensures var due := x.kind.ArmedEdge? && x.name == n;
            && ArmedEdges(s + [x], n) == ArmedEdges(s, n) + (if due then 1 else 0)
            && (Numbered(s + [x], n) <==> Numbered(s, n) && (due ==> x.generation == ArmedEdges(s, n) + 1))
  {
    var t := s + [x];
    assert t[..|t| - 1] == s && t[..|s| + 1] == t;
    hide ArmedEdges;
    forall i | 0 <= i < |s| ensures t[i] == s[i] && t[..i + 1] == s[..i + 1] {}
    if Numbered(t, n) {
      forall i | 0 <= i < |s| && s[i].kind.ArmedEdge? && s[i].name == n ensures s[i].generation == ArmedEdges(s[..i + 1], n) {
        assert t[i].generation == ArmedEdges(t[..i + 1], n);
      }
    }
  }

  // One more edge of `m`, with the generation of the moment.
  lemma ReportNumbers(r: Registry, m: Name, kind: EdgeKind, n: Name)
    ensures var t := Report(r, m, kind).edges;
            && ArmedEdges(t, n) == ArmedEdges(r.edges, n) + (if kind.ArmedEdge? && m == n then 1 else 0)
            && (Numbered(t, n) <==> Numbered(r.edges, n) && (kind.ArmedEdge? && m == n ==> Gen(r, n) == ArmedEdges(r.edges, n) + 1))
  {
    hide Numbered, ArmedEdges;
    OneMoreEdge(r.edges, Edge(m, kind, Gen(r, m)), n);
  }

  lemma ReportKept(r: Registry, m: Name, kind: EdgeKind, n: Name, e: Limits)
    requires !kind.ArmedEdge?
    ensures Kept(r, Report(r, m, kind), n, e)
  {
    ReportNumbers(r, m, kind, n);
    hide Numbered, ArmedEdges;
  }

  // An arming starts: crossing another of its object if one is still to be told.
  lemma AdvanceTallies(r: Registry, m: Name, h: Handle, n: Name)
    requires Tallied(r, n)
    ensures Tallied(Advance(r, m, h), n)
  {
    hide Numbered, ArmedEdges;
  }

  lemma ToldTallies(r: Registry, m: Name, n: Name)
    requires Tallied(r, n) && (m == n ==> n in r.open)
    ensures Tallied(Report(r, m, ArmedEdge), n)
  {
    ReportNumbers(r, m, ArmedEdge, n);
    hide Numbered, ArmedEdges;
  }

  // An arming with a real entry: one generation, then one edge.
  lemma ArmingTallies(r: Registry, r1: Registry, m: Name, h: Handle, n: Name)
    requires Tallied(r, n) && (Tallied(Advance(r, m, h), n) ==> Tallied(r1, n)) && r1.open[n] == Advance(r, m, h).open[n]
    ensures Tallied(Report(r1, m, ArmedEdge), n)
  {
    AdvanceTallies(r, m, h, n);
    hide Tallied;
    ToldTallies(r1, m, n);
  }

  lemma AdvanceRecord(r: Registry, m: Name, h: Handle, n: Name)
    ensures var r' := Advance(r, m, h);
            && Gen(r', n) == Gen(r, n) + (if m == n then 1 else 0) && Line(r, n) <= Line(r', n)
            && r'.open[n] == r.open[n] + (if m == n then 1 else 0) && r'.edges == r.edges && r'.held == r.held
            && (r.open[n] == 0 ==> (n in r'.crossed <==> n in r.crossed))
  {
  }

  lemma ToldRecord(r: Registry, m: Name, n: Name)
    ensures var r' := Report(r, m, ArmedEdge);
            && Gen(r', n) == Gen(r, n) && Line(r', n) == Line(r, n) && r.edges <= r'.edges && r'.held == r.held
            && r'.crossed == r.crossed
            && r'.open[n] == if m == n && r.open[n] > 0 then r.open[n] - 1 else r.open[n]
  {
  }

  lemma ArmingKept(r: Registry, r1: Registry, m: Name, h: Handle, n: Name, e: Limits)
    requires Nested(Advance(r, m, h), r1, n, e) && (e.plain ==> r1.crossed == Advance(r, m, h).crossed)
    ensures Nested(r, Report(r1, m, ArmedEdge), n, e)
  {
    hide Tallied, Numbered, ArmedEdges, Advance, Report, OnlyArmed, Gen, Line;
    AdvanceRecord(r, m, h, n);
    ToldRecord(r1, m, n);
    ReportNumbers(r1, m, ArmedEdge, n);
    OneMoreArmed(r, r1, m, h);
    if Tallied(r, n) { ArmingTallies(r, r1, m, h, n); }
  }

  lemma OneMoreArmed(r: Registry, r1: Registry, m: Name, h: Handle)
    requires OnlyArmed(Advance(r, m, h), r1)
    ensures OnlyArmed(r, Report(r1, m, ArmedEdge))
  {
  }

  lemma RestSpared(scripts: seq<Script>, k: nat, e: Limits)
    requires SparesAll(scripts, e)
    ensures SparesAll(Rest(scripts, k), e)
  {
    assert forall s :: s in Rest(scripts, k) ==> s in scripts;
  }

  // ------------------------------------------------------- one arming, callbacks and all

  lemma AdoptKept(r: Registry, m: Name, obj: Handle, n: Name, e: Limits)
    ensures Nested(r, Adopt(r, m, obj), n, e)
  {
    hide Nested, Adopt;
    AdoptFields(r, m, obj);
    KeptSame(r, Adopt(r, m, obj), n, e);
  }

  lemma FileFields(r: Registry, m: Name, obj: Handle)
    ensures SameRecord(r, File(r, m, obj)) && File(r, m, obj).held == r.held
  {
    if m !in r.handles {
    } else if r.handles[m] != obj {
    }
  }

  lemma AdoptFields(r: Registry, m: Name, obj: Handle)
    ensures SameRecord(r, Adopt(r, m, obj)) && Adopt(r, m, obj).held == r.held
  {
    hide ReviveArmed, Forget, File;
    if StaleFor(r, m, obj) {
      MoveFields(r, m);
      ForgetFields(ReviveArmed(r, m), m, Replaced);
      FileFields(Forget(ReviveArmed(r, m), m, Replaced), m, obj);
    } else {
      FileFields(r, m, obj);
    }
  }

  // Callbacks that ask for nothing leave the record alone.
  lemma CallbackPlain(r: Registry, scripts: seq<Script>, e: Limits)
    requires SparesAll(scripts, e) && e.plain
    ensures Callback(r, scripts) == r
  {
    if scripts != [] { assert scripts[0] in scripts; }
  }

  lemma AttachOnePlain(r: Registry, h: Handle, x: Entry, scripts: seq<Script>, e: Limits)
    requires SparesAll(scripts, e) && e.plain
    ensures SameRecord(r, AttachOne(r, h, x, scripts))
  {
    hide Callback, SparesAll;
    CallbackPlain(Tell(r, x.id, true), scripts, e);
    CallbackPlain(Depart(Tell(r, x.id, true), x.id, ReadinessAnswered), scripts, e);
  }

  lemma {:induction false} AttachPlain(r: Registry, h: Handle, matched: seq<Entry>, scripts: seq<Script>, e: Limits)
    requires SparesAll(scripts, e) && e.plain
    ensures SameRecord(r, AttachAll(r, h, matched, scripts))
    decreases |matched|
  {
    if matched != [] {
      hide AttachOne, SparesAll;
      AttachOnePlain(r, h, matched[0], scripts, e);
      RestSpared(scripts, 1, e);
      AttachPlain(AttachOne(r, h, matched[0], scripts), h, matched[1..], Rest(scripts, 1), e);
    }
  }

  lemma {:induction false} CallbackKept(r: Registry, scripts: seq<Script>, n: Name, e: Limits)
    requires SparesAll(scripts, e)
    ensures Nested(r, Callback(r, scripts), n, e)
    decreases scripts, 1
  {
    if scripts != [] {
      assert scripts[0] in scripts;
      ScriptKept(r, scripts[0].requests, n, e);
    } else {
      KeptSame(r, r, n, e);
    }
  }

  lemma {:induction false} AttachOneKept(r: Registry, h: Handle, x: Entry, scripts: seq<Script>, n: Name, e: Limits)
    requires SparesAll(scripts, e)
    ensures Nested(r, AttachOne(r, h, x, scripts), n, e)
    decreases scripts, 2
  {
    hide Nested, SparesAll, Callback;
    var told := Tell(r, x.id, true);
    if x.readinessOnly {
      var gone := Depart(told, x.id, ReadinessAnswered);
      KeptSame(r, gone, n, e);
      CallbackKept(gone, scripts, n, e);
      Nesting(r, gone, Callback(gone, scripts), n, e);
    } else {
      KeptSame(r, told, n, e);
      CallbackKept(told, scripts, n, e);
      var back := Callback(told, scripts);
      Nesting(r, told, back, n, e);
      KeptSame(back, PutDown(back, x, h), n, e);
      Nesting(r, back, PutDown(back, x, h), n, e);
    }
  }

  lemma {:induction false} AttachKept(r: Registry, h: Handle, matched: seq<Entry>, scripts: seq<Script>, n: Name, e: Limits)
    requires SparesAll(scripts, e)
    ensures Nested(r, AttachAll(r, h, matched, scripts), n, e)
    decreases scripts, 3, |matched|
  {
    if matched == [] {
      KeptSame(r, r, n, e);
    } else {
      hide Nested, SparesAll, AttachOne;
      AttachOneKept(r, h, matched[0], scripts, n, e);
      var r1 := AttachOne(r, h, matched[0], scripts);
      RestSpared(scripts, 1, e);
      AttachKept(r1, h, matched[1..], Rest(scripts, 1), n, e);
      Nesting(r, r1, AttachAll(r1, h, matched[1..], Rest(scripts, 1)), n, e);
    }
  }

  lemma TakeFields(r: Registry, m: Name)
    ensures SameRecord(r, TakeMatching(r, m)) && TakeMatching(r, m).held == r.held
  {
    hide NotNamed;
  }

  lemma {:induction false} ArmKept(r: Registry, m: Name, obj: Handle, scripts: seq<Script>, n: Name, e: Limits)
    requires SparesAll(scripts, e)
    ensures Nested(r, ArmAgainst(r, m, obj, scripts), n, e)
    decreases scripts, 4
  {
    hide Nested, SparesAll, Adopt, TakeMatching, AttachAll, Callback, Named, AnyReal, Advance, RealIds;
    AdoptKept(r, m, obj, n, e);
    var r1 := Adopt(r, m, obj);
    var h, matched := r1.handles[m], Named(r1.entries, m);
    var taken, r2 := InHand(TakeMatching(r1, m), RealIds(matched), h), TakeForArming(r1, m, h);
    TakeFields(r1, m);
    KeptSame(r1, taken, n, e);
    Nesting(r, r1, taken, n, e);
    AttachKept(r2, h, matched, scripts, n, e);
    if e.plain { AttachPlain(r2, h, matched, scripts, e); }
    var r3 := AttachAll(r2, h, matched, scripts);
    var r5 := ArmAgainst(r, m, obj, scripts);
    if AnyReal(matched) {
      ArmingKept(taken, r3, m, h, n, e);
      var said, more := Report(r3, m, ArmedEdge), Rest(scripts, |matched|);
      RestSpared(scripts, |matched|, e);
      CallbackKept(said, more, n, e);
      var r4 := Announce(r3, m, more);
      Nesting(taken, said, r4, n, e);
      KeptSame(r4, r5, n, e);
      Nesting(taken, r4, r5, n, e);
    } else {
      KeptSame(r3, r5, n, e);
      Nesting(taken, r3, r5, n, e);
    }
    Nesting(r, taken, r5, n, e);
  }

  lemma ReceiveFields(r: Registry, m: Name, o: Offer)
    ensures SameRecord(r, Receive(r, m, o).0) && Receive(r, m, o).0.held == r.held
  {
  }

  lemma {:induction false} AcquireKept(r: Registry, m: Name, a: Answer, scripts: seq<Script>, n: Name, e: Limits)
    requires SparesAll(scripts, e)
    ensures Nested(r, BeginAcquire(r, m, a, scripts).0, n, e)
    decreases scripts, 6
  {
    var o := AcquireShape(r, m, a, scripts);
    hide *;
    var (r1, h) := Receive(r, m, o);
    if h.Some? {
      ReceiveFields(r, m, o);
      ReceivedKept(r, r1, m, h.value, scripts, n, e);
    } else {
      AskKept(r, m, n, e);
    }
  }

  lemma AskKept(r: Registry, m: Name, n: Name, e: Limits)
    ensures Nested(r, r, n, e) && Nested(r, AskFor(r, m), n, e)
  {
    hide Nested;
    KeptSame(r, r, n, e);
    KeptSame(r, AskFor(r, m), n, e);
  }

  lemma {:induction false} ReceivedKept(r: Registry, r1: Registry, m: Name, obj: Handle, scripts: seq<Script>, n: Name, e: Limits)
    requires SparesAll(scripts, e) && SameRecord(r, r1) && r1.held == r.held
    ensures Nested(r, ArmAgainst(r1, m, obj, scripts), n, e)
    decreases scripts, 5
  {
    hide Nested, SparesAll, ArmAgainst;
    KeptSame(r, r1, n, e);
    ArmKept(r1, m, obj, scripts, n, e);
    Nesting(r, r1, ArmAgainst(r1, m, obj, scripts), n, e);
  }

  lemma {:induction false} ChaseKept(r: Registry, m: Name, a: Answer, scripts: seq<Script>, n: Name, e: Limits)
    requires SparesAll(scripts, e)
    ensures Nested(r, Chase(r, m, a, scripts).0, n, e)
    ensures Nested(r, EnsureTimer(Chase(r, m, a, scripts).0), n, e)
    decreases scripts, 7
  {
    hide Nested, SparesAll, ArmAgainst, BeginAcquire;
    if LiveHandle(r, m).Some? {
      ArmKept(r, m, LiveHandle(r, m).value, scripts, n, e);
    } else {
      AcquireKept(r, m, a, scripts, n, e);
    }
    var r' := Chase(r, m, a, scripts).0;
    KeptSame(r', EnsureTimer(r'), n, e);
    Nesting(r, r', EnsureTimer(r'), n, e);
  }

  // ------------------------------------------------------------------ the operations

  // Moving entries about records nothing.
  lemma MovedKept(r: Registry, r': Registry, n: Name, e: Limits)
    requires SameRecord(r, r') && HeldShrinks(r, r') && (e.kept.Some? && e.kept.value in r.held ==> e.kept.value in r'.held)
    ensures Nested(r, r', n, e)
  {
    if Tallied(r, n) { SameTally(r, r', n); }
    hide Tallied;
  }

  lemma CancelKept(r: Registry, id: Id, n: Name, e: Limits)
    requires e.kept.Some? ==> id != e.kept.value.id
    ensures Nested(r, Cancel(r, id), n, e)
  {
    hide Nested, Cancel;
    CancelFrame(r, id);
    CancelHolds(r, id);
    MovedKept(r, Cancel(r, id), n, e);
  }

  lemma CancelHolds(r: Registry, id: Id)
    ensures forall x :: x in r.held && x.id != id ==> x in Cancel(r, id).held
    ensures HeldShrinks(r, Cancel(r, id))
  {
    WithoutMembers(r.held, id);
    DropFrame(r, id);
    hide Has, DropPending, DropArmed, Without;
  }

  lemma UnholdKept(r: Registry, m: Name, n: Name, e: Limits)
    requires e.kept.Some? ==> m != e.kept.value.name
    ensures Nested(r, Unhold(r, m), n, e)
  {
    MembersByName(r.held, m);
    hide Nested, Named, NotNamed, Revived;
    MovedKept(r, Unhold(r, m), n, e);
  }

  lemma {:induction false} AddKept(r: Registry, m: Name, event: string, ready: bool, a: Answer, scripts: seq<Script>,
                                   n: Name, e: Limits)
    requires SparesAll(scripts, e)
    ensures Nested(r, Add(r, m, event, ready, a, scripts), n, e)
    decreases scripts, 8
  {
    hide Nested, Chase, EnsureTimer, SparesAll;
    var r1 := NewEntry(r, m, event, ready);
    KeptSame(r, r1, n, e);
    ChaseKept(r1, m, a, scripts, n, e);
    Nesting(r, r1, Add(r, m, event, ready, a, scripts), n, e);
  }

  lemma {:induction false} RearmKept(r: Registry, m: Name, a: Answer, scripts: seq<Script>, n: Name, e: Limits)
    requires SparesAll(scripts, e) && (e.kept.Some? ==> m != e.kept.value.name)
    ensures Nested(r, Rearm(r, m, a, scripts), n, e)
    decreases scripts, 8
  {
    hide Nested, Chase, EnsureTimer, SparesAll, Unhold;
    if Named(r.held, m) == [] {
      KeptSame(r, r, n, e);
    } else {
      UnholdKept(r, m, n, e);
      ChaseKept(Unhold(r, m), m, a, scripts, n, e);
      Nesting(r, Unhold(r, m), Rearm(r, m, a, scripts), n, e);
    }
  }

  lemma PolicyKept(r: Registry, m: Name, p: Policy, n: Name, e: Limits)
    ensures Nested(r, SetPolicy(r, m, p), n, e)
  {
    var r' := SetPolicy(r, m, p);
    assert Gen(r', n) == Gen(r, n);
    if Tallied(r, n) { SameTally(r, r', n); }
    hide Tallied;
  }

  lemma {:induction false} PerformKept(r: Registry, q: Request, n: Name, e: Limits)
    requires Spares(q, e)
    ensures Nested(r, Perform(r, q), n, e)
    decreases q, 0
  {
    hide Nested, Add, Cancel, Rearm, SetPolicy;
    match q
    case AddRequest(m, event, ready, a, scripts) => AddKept(r, m, event, ready, a, scripts, n, e);
    case CancelRequest(id) => CancelKept(r, id, n, e);
    case RearmRequest(m, a, scripts) => RearmKept(r, m, a, scripts, n, e);
    case PolicyRequest(m, p) => PolicyKept(r, m, p, n, e);
  }

  lemma {:induction false} ScriptKept(r: Registry, requests: seq<Request>, n: Name, e: Limits)
    requires SparesEach(requests, e)
    ensures Nested(r, RunScript(r, requests), n, e)
    decreases requests, 0
  {
    if requests == [] {
      KeptSame(r, r, n, e);
    } else {
      hide Nested, Perform;
      PerformKept(r, requests[0], n, e);
      ScriptKept(Perform(r, requests[0]), requests[1..], n, e);
      Nesting(r, Perform(r, requests[0]), RunScript(r, requests), n, e);
    }
  }

  // --------------------------------------------------------- the event loop's steps

  ghost predicate StepSpares(st: Step, e: Limits) {
    match st
    case Ask(q) => Spares(q, e)
    case Validity(_, _) => true
    case Acquired(_, _, scripts, watcher) => SparesAll(scripts, e) && SparesEach(watcher.requests, e)
    case Reconnect(notices, hunts) => NoticesSpare(notices, e) && HuntsSpare(hunts, e)
    case TimerFires(losses, hunts, _) => LossesSpare(losses, e) && HuntsSpare(hunts, e)
  }

  ghost predicate NoticesSpare(notices: seq<Notice>, e: Limits) {
    forall x :: x in notices ==> SparesEach(x.watcher.requests, e)
  }

  ghost predicate HuntsSpare(hunts: seq<Hunt>, e: Limits) {
    forall x :: x in hunts ==> SparesAll(x.scripts, e)
  }

  ghost predicate LossesSpare(losses: seq<Loss>, e: Limits) {
    forall x :: x in losses ==> SparesEach(x.watcher.requests, e) && SparesAll(x.scripts, e)
  }

  lemma NotifyKept(r: Registry, m: Name, kind: EdgeKind, watcher: Script, n: Name, e: Limits)
    requires !kind.ArmedEdge? && SparesEach(watcher.requests, e)
    ensures Kept(r, Notify(r, m, kind, watcher), n, e)
  {
    hide Kept, Report, RunScript, SparesEach;
    ReportKept(r, m, kind, n, e);
    ScriptKept(Report(r, m, kind), watcher.requests, n, e);
    Keeping(r, Report(r, m, kind), Notify(r, m, kind, watcher), n, e);
  }

  lemma {:induction false} NotifyHeldKept(r: Registry, notices: seq<Notice>, n: Name, e: Limits)
    requires NoticesSpare(notices, e)
    ensures Kept(r, NotifyHeld(r, notices), n, e)
    decreases |notices|
  {
    if notices == [] {
      KeptSame(r, r, n, e);
    } else {
      hide Kept, Notify, SparesEach;
      var r1 := Notify(r, notices[0].name, HeldEdge, notices[0].watcher);
      NotifyKept(r, notices[0].name, HeldEdge, notices[0].watcher, n, e);
      NotifyHeldKept(r1, notices[1..], n, e);
      Keeping(r, r1, NotifyHeld(r, notices), n, e);
    }
  }

  lemma {:induction false} HuntKept(r: Registry, hunts: seq<Hunt>, n: Name, e: Limits)
    requires HuntsSpare(hunts, e)
    ensures Kept(r, HuntAll(r, hunts), n, e)
    decreases |hunts|
  {
    if hunts == [] {
      KeptSame(r, r, n, e);
    } else {
      hide Kept, BeginAcquire, SparesAll;
      var r1 := BeginAcquire(r, hunts[0].name, hunts[0].answer, hunts[0].scripts).0;
      AcquireKept(r, hunts[0].name, hunts[0].answer, hunts[0].scripts, n, e);
      HuntKept(r1, hunts[1..], n, e);
      Keeping(r, r1, HuntAll(r, hunts), n, e);
    }
  }

  lemma {:induction false} AbandonAllKept(r: Registry, matched: seq<Entry>, scripts: seq<Script>, n: Name, e: Limits)
    requires SparesAll(scripts, e)
    ensures Kept(r, AbandonAll(r, matched, scripts), n, e)
    decreases |matched|
  {
    if matched == [] {
      KeptSame(r, r, n, e);
    } else {
      hide Kept, RunScript, SparesEach;
      var r1 := Depart(Tell(r, matched[0].id, false), matched[0].id, Abandoned);
      KeptSame(r, r1, n, e);
      var r2 := if scripts != [] then RunScript(r1, scripts[0].requests) else r1;
      if scripts != [] {
        assert scripts[0] in scripts;
        ScriptKept(r1, scripts[0].requests, n, e);
        Keeping(r, r1, r2, n, e);
      }
      RestSpared(scripts, 1, e);
      AbandonAllKept(r2, matched[1..], Rest(scripts, 1), n, e);
      Keeping(r, r2, AbandonAll(r, matched, scripts), n, e);
    }
  }

  lemma AbandonKept(r: Registry, m: Name, scripts: seq<Script>, watcher: Script, n: Name, e: Limits)
    requires SparesAll(scripts, e) && SparesEach(watcher.requests, e)
    ensures Kept(r, Abandon(r, m, scripts, watcher), n, e)
  {
    hide Kept, AbandonAll, Notify, TakeMatching, SparesAll, SparesEach;
    var taken, matched := TakeMatching(r, m), Named(r.entries, m);
    TakeFields(r, m);
    KeptSame(r, taken, n, e);
    AbandonAllKept(taken, matched, scripts, n, e);
    var r1 := AbandonAll(taken, matched, scripts);
    Keeping(r, taken, r1, n, e);
    if matched != [] {
      NotifyKept(r1, m, AbandonedEdge, watcher, n, e);
      Keeping(r, r1, Abandon(r, m, scripts, watcher), n, e);
    }
  }

  lemma DoneKept(r: Registry, m: Name, o: Offer, scripts: seq<Script>, watcher: Script, n: Name, e: Limits)
    requires SparesAll(scripts, e) && SparesEach(watcher.requests, e)
    ensures Kept(r, AcquireDone(r, m, o, scripts, watcher), n, e)
  {
    hide Kept, ArmAgainst, Abandon, SparesAll, SparesEach;
    var r0 := Answered(r, m);
    var (r1, h) := Receive(r0, m, o);
    if h.Some? {
      ReceivedKept(r, r1, m, h.value, scripts, n, e);
    } else {
      KeptSame(r, r1, n, e);
      AbandonKept(r1, m, scripts, watcher, n, e);
      Keeping(r, r1, AcquireDone(r, m, o, scripts, watcher), n, e);
    }
  }

  lemma ForgetFields(r: Registry, m: Name, why: Cause)
    ensures var r' := Forget(r, m, why); SameRecord(r, r') && r'.held == r.held && r'.armed == r.armed && r'.entries == r.entries
  {
    if m in r.handles {
    }
  }

  lemma MoveFields(r: Registry, m: Name)
    ensures SameRecord(r, HoldArmed(r, m)) && r.held <= HoldArmed(r, m).held
    ensures SameRecord(r, ReviveArmed(r, m)) && ReviveArmed(r, m).held == r.held
  {
    hide Named, NotNamed, Revived;
  }

  lemma DroppedKept(r: Registry, m: Name, n: Name, e: Limits)
    ensures Kept(r, Dropped(r, m), n, e)
  {
    hide Kept, Forget, HoldArmed, ReviveArmed;
    ForgetFields(r, m, Lost);
    MoveFields(Forget(r, m, Lost).(acquiring := r.acquiring - {m}), m);
    KeptSame(r, Dropped(r, m), n, e);
  }

  lemma LoseKept(r: Registry, l: Loss, n: Name, e: Limits)
    requires SparesEach(l.watcher.requests, e) && SparesAll(l.scripts, e)
    ensures Kept(r, Lose(r, l), n, e)
  {
    hide Kept, Dropped, Notify, BeginAcquire, SparesEach, SparesAll;
    DroppedKept(r, l.name, n, e);
    var r1, kind := Dropped(r, l.name), if IsManual(r, l.name) then HeldEdge else LostEdge;
    NotifyKept(r1, l.name, kind, l.watcher, n, e);
    var r2 := if Named(r.armed, l.name) == [] then r1 else Notify(r1, l.name, kind, l.watcher);
    if r2 != r1 { Keeping(r, r1, r2, n, e); }
    if Named(r2.entries, l.name) != [] {
      AcquireKept(r2, l.name, l.answer, l.scripts, n, e);
      Keeping(r, r2, Lose(r, l), n, e);
    }
  }

  lemma {:induction false} LoseAllKept(r: Registry, losses: seq<Loss>, n: Name, e: Limits)
    requires LossesSpare(losses, e)
    ensures Kept(r, LoseAll(r, losses), n, e)
    decreases |losses|
  {
    if losses == [] {
      KeptSame(r, r, n, e);
    } else {
      hide Kept, Lose, SparesEach, SparesAll;
      LoseKept(r, losses[0], n, e);
      LoseAllKept(Lose(r, losses[0]), losses[1..], n, e);
      Keeping(r, Lose(r, losses[0]), LoseAll(r, losses), n, e);
    }
  }

  lemma ReconnectKept(r: Registry, notices: seq<Notice>, hunts: seq<Hunt>, n: Name, e: Limits)
    requires NoticesSpare(notices, e) && HuntsSpare(hunts, e)
    ensures Kept(r, Reconnected(r, notices, hunts), n, e)
  {
    hide Kept, NotifyHeld, HuntAll, NoticesSpare, HuntsSpare, OfPolicy, Revived;
    var r1 := Detached(r);
    KeptSame(r, r1, n, e);
    NotifyHeldKept(r1, notices, n, e);
    var r2 := NotifyHeld(r1, notices);
    Keeping(r, r1, r2, n, e);
    HuntKept(r2, hunts, n, e);
    var r3 := HuntAll(r2, hunts);
    Keeping(r, r2, r3, n, e);
    KeptSame(r3, EnsureTimer(r3), n, e);
    Keeping(r, r3, EnsureTimer(r3), n, e);
  }

  lemma TickKept(r: Registry, losses: seq<Loss>, hunts: seq<Hunt>, age: map<Id, nat>, n: Name, e: Limits)
    requires LossesSpare(losses, e) && HuntsSpare(hunts, e)
    ensures Kept(r, Tick(r, losses, hunts, age), n, e)
  {
    hide Kept, LoseAll, HuntAll, LossesSpare, HuntsSpare, NextTimer, Dead;
    var lost, r0 := LoseAll(r, losses), CheckLiveness(r, losses);
    LoseAllKept(r, losses, n, e);
    KeptSame(lost, EnsureTimer(lost), n, e);
    Keeping(r, lost, EnsureTimer(lost), n, e);
    KeptSame(r, r, n, e);
    assert Kept(r, r0, n, e);
    HuntKept(r0, hunts, n, e);
    Keeping(r, r0, HuntAll(r0, hunts), n, e);
    KeptSame(HuntAll(r0, hunts), Tick(r, losses, hunts, age), n, e);
    Keeping(r, HuntAll(r0, hunts), Tick(r, losses, hunts, age), n, e);
  }

  lemma StepKept(r: Registry, st: Step, n: Name, e: Limits)
    requires StepSpares(st, e)
    ensures Kept(r, Apply(r, st), n, e)
  {
    hide Perform, AcquireDone, Reconnected, Tick, NoticesSpare, HuntsSpare, LossesSpare, SparesAll, SparesEach, Spares;
    match st
    case Ask(q) => PerformKept(r, q, n, e);
    case Validity(_, _) =>
    case Acquired(m, o, scripts, watcher) => DoneKept(r, m, o, scripts, watcher, n, e);
    case Reconnect(notices, hunts) => ReconnectKept(r, notices, hunts, n, e);
    case TimerFires(losses, hunts, age) => TickKept(r, losses, hunts, age, n, e);
  }

  // --------------------------------------------------- edges in order, and free of overlap

  ghost predicate Orderly(r: Registry, n: Name) {
    Numbered(r.edges, n) && Gen(r, n) == ArmedEdges(r.edges, n)
  }

  // No callback of this step asks for anything.
  ghost predicate PlainStep(st: Step) {
    StepSpares(st, PLAIN)
  }

  lemma FreeStep(st: Step)
    ensures StepSpares(st, FREE)
  {
    hide SparesAll, SparesEach, Spares;
    match st
    case Ask(q) => FreeRequest(q);
    case Validity(_, _) =>
    case Acquired(_, _, scripts, watcher) =>
      FreeScripts(scripts);
      FreeRequests(watcher.requests);
    case Reconnect(notices, hunts) =>
      forall x | x in notices ensures SparesEach(x.watcher.requests, FREE) { FreeRequests(x.watcher.requests); }
      forall x | x in hunts ensures SparesAll(x.scripts, FREE) { FreeScripts(x.scripts); }
    case TimerFires(losses, hunts, _) =>
      forall x | x in losses ensures SparesEach(x.watcher.requests, FREE) && SparesAll(x.scripts, FREE) {
        FreeRequests(x.watcher.requests);
        FreeScripts(x.scripts);
      }
      forall x | x in hunts ensures SparesAll(x.scripts, FREE) { FreeScripts(x.scripts); }
  }
}
