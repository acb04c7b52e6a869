/** What single operations of the deferred-subscription registry do to each subscription:
    what an addition, a rearm or a cancel moves, and what becomes of the armed by their
    object's restart policy when a provider dies or the connection is rebuilt. */
module DeferredPolicy {
  import opened DeferredSubscriptions
  import opened DeferredSafety
  import opened DeferredRuns
  import opened DeferredTheorems
  import opened DeferredGenerations
  import opened DeferredArming
  import opened Wrappers

  // ---------------------------------------------------------------------- acquiring

  // An acquisition holds nothing, and for other objects moves nothing.
  lemma AcquireElsewhere(r: Registry, n: Name, a: Answer, scripts: seq<Script>, m: Name)
    requires AskNothing(scripts) && m != n
    ensures Elsewhere(r, BeginAcquire(r, n, a, scripts).0, m)
  {
    var o := AcquireShape(r, n, a, scripts);
    var (r1, h) := Receive(r, n, o);
    if h.Some? {
      ReceivedElsewhere(r, n, o, m);
      ArmedElsewhere(r1, n, h.value, scripts, m);
      hide *;
      ElsewhereTwice(r, r1, ArmAgainst(r1, n, h.value, scripts), m);
    } else {
      AskedElsewhere(r, n, m);
    }
  }

  /** Nothing is moved for `m`: what is armed for it stays, what is held stays held, its
      policy, its generation and its edges are as they were, and so is whether it is being
      acquired. */
  ghost predicate Elsewhere(r: Registry, r': Registry, m: Name) {
    && (forall e :: e in r.armed && e.name == m ==> e in r'.armed)
    && (forall e :: e in r.held ==> e in r'.held)
    && TargetOf(r', m).restart == TargetOf(r, m).restart && Gen(r', m) == Gen(r, m)
    && EdgesOf(r'.edges, m) == EdgesOf(r.edges, m) && (m in r'.acquiring <==> m in r.acquiring)
    && r'.canDefer == r.canDefer
  }

  lemma ElsewhereTwice(a: Registry, b: Registry, c: Registry, m: Name)
    requires Elsewhere(a, b, m) && Elsewhere(b, c, m)
    ensures Elsewhere(a, c, m)
  {
  }

  lemma ReceivedElsewhere(r: Registry, n: Name, o: Offer, m: Name)
    ensures Elsewhere(r, Receive(r, n, o).0, m)
  {
  }

  lemma AskedElsewhere(r: Registry, n: Name, m: Name)
    requires m != n
    ensures Elsewhere(r, AskFor(r, n), m) && Elsewhere(r, r, m)
  {
  }

  lemma ArmedElsewhere(r: Registry, n: Name, obj: Handle, scripts: seq<Script>, m: Name)
    requires AskNothing(scripts) && m != n
    ensures Elsewhere(r, ArmAgainst(r, n, obj, scripts), m)
  {
    hide *;
    ArmElsewhere(r, n, obj, scripts);
    ArmReports(r, n, obj, scripts, m);
    NotMoved(r, ArmAgainst(r, n, obj, scripts), m);
  }

  lemma NotMoved(r: Registry, r': Registry, m: Name)
    requires r'.held == r.held && r'.acquiring == r.acquiring && r'.canDefer == r.canDefer
    requires forall e :: e in r.armed && e.name == m ==> e in r'.armed
    requires EdgesOf(r'.edges, m) == EdgesOf(r.edges, m) && Gen(r', m) == Gen(r, m) && TargetOf(r', m).restart == TargetOf(r, m).restart
    ensures Elsewhere(r, r', m)
  {
  }

  // Nothing but armings was reported since.
  predicate OnlyArmedSince(s: seq<Edge>, t: seq<Edge>) {
    s <= t && forall i :: |s| <= i < |t| ==> t[i].kind.ArmedEdge?
  }

  lemma OnlyArmedTwice(a: seq<Edge>, b: seq<Edge>, c: seq<Edge>)
    requires OnlyArmedSince(a, b) && OnlyArmedSince(b, c)
    ensures OnlyArmedSince(a, c)
  {
    forall i | |a| <= i < |c| ensures c[i].kind.ArmedEdge? {
      if i < |b| { assert c[i] == b[i]; }
    }
  }

  // What an acquisition leaves of every object: whoever waits goes on waiting or is armed.
  ghost predicate Serves(r: Registry, r': Registry, m: Name) {
    && r'.held == r.held && TargetOf(r', m).restart == TargetOf(r, m).restart
    && OnlyArmedSince(EdgesOf(r.edges, m), EdgesOf(r'.edges, m))
    && forall e :: Alive(r, e) ==> Alive(r', e)
  }

  lemma ServesTwice(a: Registry, b: Registry, c: Registry, m: Name)
    requires Serves(a, b, m) && Serves(b, c, m)
    ensures Serves(a, c, m)
  {
    OnlyArmedTwice(EdgesOf(a.edges, m), EdgesOf(b.edges, m), EdgesOf(c.edges, m));
    hide OnlyArmedSince, Alive, EdgesOf;
  }

  lemma SameServes(r: Registry, r': Registry, m: Name)
    requires r'.held == r.held && r'.targets == r.targets && r'.edges == r.edges && r'.entries == r.entries && r'.armed == r.armed
    ensures Serves(r, r', m)
  {
    forall e | Alive(r, e) ensures Alive(r', e) {
      var x :| (x in r.entries || x in r.armed) && Same(x, e);
      assert (x in r'.entries || x in r'.armed) && Same(x, e);
    }
  }

  lemma ArmServes(r: Registry, n: Name, obj: Handle, scripts: seq<Script>, m: Name)
    requires AskNothing(scripts)
    ensures Serves(r, ArmAgainst(r, n, obj, scripts), m)
  {
    hide *;
    var r' := ArmAgainst(r, n, obj, scripts);
    ArmElsewhere(r, n, obj, scripts);
    ArmReports(r, n, obj, scripts, m);
    forall e | Alive(r, e) ensures Alive(r', e) { ArmKeepsAlive(r, n, obj, scripts, e); }
    AppendsOneArmed(EdgesOf(r.edges, m), EdgesOf(r'.edges, m), Edge(n, ArmedEdge, Gen(r, n) + 1));
    ServesIs(r, r', m);
  }

  lemma ServesIs(r: Registry, r': Registry, m: Name)
    requires r'.held == r.held && TargetOf(r', m).restart == TargetOf(r, m).restart
    requires OnlyArmedSince(EdgesOf(r.edges, m), EdgesOf(r'.edges, m)) && forall e :: Alive(r, e) ==> Alive(r', e)
    ensures Serves(r, r', m)
  {
  }

  lemma AppendsOneArmed(s: seq<Edge>, t: seq<Edge>, x: Edge)
    requires (t == s || t == s + [x]) && x.kind.ArmedEdge?
    ensures OnlyArmedSince(s, t)
  {
  }

  lemma AcquireServes(r: Registry, n: Name, a: Answer, scripts: seq<Script>, m: Name)
    requires AskNothing(scripts)
    ensures Serves(r, BeginAcquire(r, n, a, scripts).0, m)
  {
    var o := AcquireShape(r, n, a, scripts);
    var (r1, h) := Receive(r, n, o);
    SameServes(r, r, m);
    if h.Some? {
      ReceivedQuietly(r, n, o);
      SameServes(r, r1, m);
      ArmServes(r1, n, h.value, scripts, m);
      hide *;
      ServesTwice(r, r1, ArmAgainst(r1, n, h.value, scripts), m);
    } else {
      SameServes(r, AskFor(r, n), m);
    }
  }

  lemma ReceivedQuietly(r: Registry, n: Name, o: Offer)
    ensures var r' := Receive(r, n, o).0;
            r'.held == r.held && r'.targets == r.targets && r'.edges == r.edges && r'.entries == r.entries && r'.armed == r.armed
  {
  }

  /** One deferred acquire for each object: while one is under way nothing is asked; else a
      handle the transport has is armed on, and otherwise, if it takes the acquire, the
      object is marked.  A transport that cannot defer is looked up once. */
  lemma OneAcquireEach(r: Registry, n: Name, a: Answer, scripts: seq<Script>)
    ensures r.canDefer && n in r.acquiring ==> BeginAcquire(r, n, a, scripts) == (r, false)
    ensures r.canDefer && n !in r.acquiring && a.now == NoHandle ==>
              && !BeginAcquire(r, n, a, scripts).1
              && BeginAcquire(r, n, a, scripts).0 ==
                   if a.accepted then r.(acquiring := r.acquiring + {n}, asked := r.asked + multiset{n}) else r
    ensures !r.canDefer && a.lookup == NoHandle ==> BeginAcquire(r, n, a, scripts) == (r, false)
    ensures forall ok ::
              var r1 := r.(nextHandle := r.nextHandle + 1, home := r.home[r.nextHandle := n], valid := if ok then r.valid + {r.nextHandle} else r.valid);
              (if r.canDefer then n !in r.acquiring && a.now == NewHandle(ok) else a.lookup == NewHandle(ok)) ==>
                BeginAcquire(r, n, a, scripts) == (ArmAgainst(r1, n, r.nextHandle, scripts), true)
  {
    hide ArmAgainst;
  }

  /** Setting a policy sets that object's and nothing else: no subscription, handle,
      generation or other policy changes until the next loss. */
  lemma PolicyOnlySets(r: Registry, n: Name, p: Policy, m: Name)
    ensures var r' := SetPolicy(r, n, p);
            && r' == r.(targets := r'.targets) && n in r'.targets && r'.targets[n].restart == p && Gen(r', m) == Gen(r, m)
            && (m != n ==> (m in r'.targets <==> m in r.targets) && (m in r.targets ==> r'.targets[m] == r.targets[m]))
  {
  }

  /** With nothing armed nobody is receiving, and a check drops not even a dead handle. */
  lemma NothingArmedNothingChecked(r: Registry, losses: seq<Loss>)
    requires r.armed == []
    ensures CheckLiveness(r, losses) == r
  {
  }

  // ------------------------------------------------------------------ a provider that died

  // The object's restart policy; automatic until one is set.
  predicate SetToManual(r: Registry, n: Name) {
    n in r.targets && r.targets[n].restart == Manual
  }

  // What a loss is reported as: first this edge, and then armings at most.
  predicate ReportedAs(s: seq<Edge>, t: seq<Edge>, x: Edge) {
    OnlyArmedSince(s + [x], t)
  }

  lemma DroppedExactly(r: Registry, n: Name)
    ensures var r' := Dropped(r, n);
            && r'.armed == NotNamed(r.armed, n) && r'.handles == r.handles - {n} && r'.acquiring == r.acquiring - {n}
            && r'.edges == r.edges && r'.targets == r.targets && r'.canDefer == r.canDefer && r'.asked == r.asked
            && if SetToManual(r, n) then r'.held == r.held + Named(r.armed, n) && r'.entries == r.entries
               else r'.held == r.held && r'.entries == r.entries + Revived(Named(r.armed, n), false)
  {
    hide Forget, Named, NotNamed, Revived;
    ForgetsOnly(r, n);
    var f := Forget(r, n, Lost).(acquiring := r.acquiring - {n});
    assert Dropped(r, n) == if IsManual(r, n) then HoldArmed(f, n) else ReviveArmed(f, n);
    hide Dropped, OnlyFiles;
  }

  lemma ForgetsOnly(r: Registry, n: Name)
    ensures var r' := Forget(r, n, Lost);
            OnlyFiles(r, r') && r'.entries == r.entries && r'.armed == r.armed && r'.handles == r.handles - {n}
            && r'.held == r.held && r'.edges == r.edges && r'.targets == r.targets && r'.canDefer == r.canDefer && r'.asked == r.asked
  {
    hide Riding;
  }

  /** One object's loss: under a manual policy what was armed is held, else it waits again
      or is armed at once; and that is reported as held or as lost, before any arming. */
  lemma LosesByPolicy(r: Registry, l: Loss, e: Entry)
    requires e in r.armed && e.name == l.name && !e.readinessOnly && AsksNothing(l.watcher) && AskNothing(l.scripts)
    ensures var r', n := Lose(r, l), l.name;
            if SetToManual(r, n) then e in r'.held && ReportedAs(EdgesOf(r.edges, n), EdgesOf(r'.edges, n), Edge(n, HeldEdge, Gen(r, n)))
            else Alive(r', e) && ReportedAs(EdgesOf(r.edges, n), EdgesOf(r'.edges, n), Edge(n, LostEdge, Gen(r, n)))
  {
    var n, r1 := l.name, Dropped(r, l.name);
    var kind := if SetToManual(r, n) then HeldEdge else LostEdge;
    DroppedExactly(r, n);
    DroppedKeeps(r, n, e);
    MembersByName(r.armed, n);
    SilentWatcher(r1, n, kind, l.watcher);
    var r2 := Report(r1, n, kind);
    ReportedEdges(r1, n, kind, n);
    ReportedAlive(r1, n, kind, e);
    AcquireServes(r2, n, l.answer, l.scripts, n);
    SameServes(r2, r2, n);
    hide Dropped, Notify, Report, BeginAcquire, Alive, EdgesOf, Named, NotNamed, Revived, Gen, AskNothing;
  }

  lemma DroppedKeeps(r: Registry, n: Name, e: Entry)
    requires e in r.armed && e.name == n && !e.readinessOnly
    ensures if SetToManual(r, n) then e in Dropped(r, n).held else Alive(Dropped(r, n), e)
  {
    DroppedExactly(r, n);
    MembersByName(r.armed, n);
    RevivedKeeps(Named(r.armed, n), false, e);
    hide Dropped, Named, NotNamed, Revived;
    assert !SetToManual(r, n) ==> (e in Dropped(r, n).entries || e in Dropped(r, n).armed) && Same(e, e);
  }

  lemma ReportedAlive(r: Registry, n: Name, kind: EdgeKind, e: Entry)
    ensures Alive(r, e) <==> Alive(Report(r, n, kind), e)
    ensures Report(r, n, kind).held == r.held
  {
  }

  lemma DroppedElsewhere(r: Registry, n: Name, m: Name)
    requires m != n
    ensures Elsewhere(r, Dropped(r, n), m)
  {
    DroppedExactly(r, n);
    MembersByName(r.armed, n);
    hide Dropped, Named, NotNamed, Revived, EdgesOf, SetToManual;
  }

  lemma ReportedElsewhere(r: Registry, n: Name, kind: EdgeKind, m: Name)
    requires m != n
    ensures Elsewhere(r, Report(r, n, kind), m)
  {
    ReportedEdges(r, n, kind, m);
    hide EdgesOf;
  }

  lemma DroppedAlive(r: Registry, n: Name, e: Entry)
    requires Alive(r, e) && e.name != n
    ensures Alive(Dropped(r, n), e)
  {
    var x :| (x in r.entries || x in r.armed) && Same(x, e);
    DroppedExactly(r, n);
    MembersByName(r.armed, n);
    hide Dropped, Named, NotNamed, Revived;
    assert (x in Dropped(r, n).entries || x in Dropped(r, n).armed) && Same(x, e);
  }

  // Another object's loss moves nothing of this one, and takes nobody away.
  lemma LosesElsewhere(r: Registry, l: Loss, m: Name, e: Entry)
    requires m != l.name && AsksNothing(l.watcher) && AskNothing(l.scripts)
    ensures Elsewhere(r, Lose(r, l), m)
    ensures Alive(r, e) && e.name == m ==> Alive(Lose(r, l), e)
  {
    var n, r1 := l.name, Dropped(r, l.name);
    var kind := if IsManual(r, n) then HeldEdge else LostEdge;
    var r2 := if Named(r.armed, n) == [] then r1 else Report(r1, n, kind);
    var r3 := BeginAcquire(r2, n, l.answer, l.scripts).0;
    DroppedElsewhere(r, n, m);
    SilentWatcher(r1, n, kind, l.watcher);
    ReportedElsewhere(r1, n, kind, m);
    AcquireElsewhere(r2, n, l.answer, l.scripts, m);
    if Alive(r, e) && e.name == m { DroppedAlive(r, n, e); }
    ReportedAlive(r1, n, kind, e);
    AcquireServes(r2, n, l.answer, l.scripts, n);
    assert Lose(r, l) == if Named(r2.entries, n) == [] then r2 else r3 by { hide Dropped, Notify, Report, BeginAcquire; }
    hide Lose, Dropped, Notify, Report, BeginAcquire, Alive, Elsewhere, Named, IsManual, AskNothing, EdgesOf;
    if r2 != r1 { ElsewhereTwice(r, r1, r2, m); }
    ElsewhereTwice(r, r2, r3, m);
  }

  predicate QuietLosses(losses: seq<Loss>) {
    forall l :: l in losses ==> AsksNothing(l.watcher) && AskNothing(l.scripts)
  }

  predicate OnePerObject(losses: seq<Loss>) {
    forall i, j :: 0 <= i < j < |losses| ==> losses[i].name != losses[j].name
  }

  // What a loss leaves of `e`, if the object was at `r` when it was noticed.
  ghost predicate Settled(r: Registry, r': Registry, e: Entry) {
    if SetToManual(r, e.name) then e in r'.held && ReportedAs(EdgesOf(r.edges, e.name), EdgesOf(r'.edges, e.name), Edge(e.name, HeldEdge, Gen(r, e.name)))
    else Alive(r', e) && ReportedAs(EdgesOf(r.edges, e.name), EdgesOf(r'.edges, e.name), Edge(e.name, LostEdge, Gen(r, e.name)))
  }

  lemma {:induction false} SettledOnwards(r0: Registry, r: Registry, losses: seq<Loss>, e: Entry)
    requires QuietLosses(losses) && Settled(r0, r, e) && forall l :: l in losses ==> l.name != e.name
    ensures Settled(r0, LoseAll(r, losses), e)
    decreases |losses|
  {
    if losses != [] {
      var l, r1 := losses[0], Lose(r, losses[0]);
      LosesElsewhere(r, l, e.name, e);
      hide Lose, AsksNothing, AskNothing, EdgesOf, Alive, ReportedAs;
      SettledOnwards(r0, r1, losses[1..], e);
    }
  }

  lemma {:induction false} LossesSettle(r0: Registry, r: Registry, losses: seq<Loss>, e: Entry)
    requires QuietLosses(losses) && OnePerObject(losses) && Elsewhere(r0, r, e.name)
    requires e in r.armed && !e.readinessOnly && exists l :: l in losses && l.name == e.name
    ensures Settled(r0, LoseAll(r, losses), e)
    decreases |losses|
  {
    hide Lose, Elsewhere, Settled, EdgesOf, Alive, AskNothing, AsksNothing;
    var l, r1 := losses[0], Lose(r, losses[0]);
    assert l in losses && forall x :: x in losses[1..] ==> x in losses;
    if l.name == e.name {
      SettlesOne(r0, r, l, e);
      assert forall x :: x in losses[1..] ==> x.name != e.name;
      SettledOnwards(r0, r1, losses[1..], e);
    } else {
      LosesElsewhere(r, l, e.name, e);
      ElsewhereTwice(r0, r, r1, e.name);
      StillArmed(r, r1, e);
      LossesSettle(r0, r1, losses[1..], e);
    }
  }

  lemma StillArmed(r: Registry, r': Registry, e: Entry)
    requires Elsewhere(r, r', e.name) && e in r.armed
    ensures e in r'.armed
  {
  }

  lemma SettlesOne(r0: Registry, r: Registry, l: Loss, e: Entry)
    requires Elsewhere(r0, r, e.name) && e in r.armed && e.name == l.name && !e.readinessOnly && AsksNothing(l.watcher) && AskNothing(l.scripts)
    ensures Settled(r0, Lose(r, l), e)
  {
    LosesByPolicy(r, l, e);
    hide Lose, Alive, EdgesOf, ReportedAs, AskNothing;
  }

  lemma {:induction false} FewNames(s: seq<Name>)
    ensures |(set x | x in s)| <= |s|
  {
    if s != [] {
      FewNames(s[1..]);
      assert s == [s[0]] + s[1..];
      assert (set x | x in s) == {s[0]} + (set x | x in s[1..]);
    }
  }

  lemma OneEach(s: seq<Name>)
    requires |s| == |(set x | x in s)|
    ensures forall i, j :: 0 <= i < j < |s| ==> s[i] != s[j]
  {
    forall i, j | 0 <= i < j < |s| ensures s[i] != s[j] {
      if s[i] == s[j] {
        var rest := s[..j] + s[j + 1..];
        assert s[i] == rest[i];
        assert s == s[..j] + [s[j]] + s[j + 1..];
        assert (set x | x in s) == (set x | x in rest);
        FewNames(rest);
      }
    }
  }

  lemma OneLossEach(losses: seq<Loss>)
    requires |losses| == |LossNames(losses)|
    ensures OnePerObject(losses)
  {
    var names := seq(|losses|, i requires 0 <= i < |losses| => losses[i].name);
    assert forall i :: 0 <= i < |losses| ==> names[i] == losses[i].name;
    assert (set x | x in names) == LossNames(losses);
    OneEach(names);
  }

  // A subscription is in one place.
  lemma HeldOrWaiting(r: Registry, e: Entry)
    requires Conserved(r, [])
    ensures e in r.held ==> !Has(r.entries, e.id) && !Has(r.armed, e.id)
    ensures Alive(r, e) ==> !Has(r.held, e.id)
  {
    assert Places(r, e.id) <= 1;
    if x :| x in r.held && x.id == e.id {
      CountIn(r.held, x);
      if y :| y in r.entries && y.id == e.id { CountIn(r.entries, y); }
      if y :| y in r.armed && y.id == e.id { CountIn(r.armed, y); }
    }
  }

  lemma SettledTimer(r0: Registry, r: Registry, e: Entry)
    requires Settled(r0, r, e)
    ensures Settled(r0, EnsureTimer(r), e)
  {
    hide EdgesOf;
  }

  /** A subscription armed on a handle found dead.  With its object's restart policy set to
      manual it is held, neither pending nor armed, and reported held; otherwise it waits
      again or is armed again, is not held, and is reported lost.  Nothing else but armings
      is reported for the object. */
  lemma LossFollowsPolicy(r: Registry, losses: seq<Loss>, e: Entry)
    requires Mid(r, []) && LossNames(losses) == Dead(r) && |losses| == |LossNames(losses)| && QuietLosses(losses)
    requires e in r.armed && e.name in r.handles && r.handles[e.name] !in r.valid
    ensures var r', n := CheckLiveness(r, losses), e.name;
            var before, after := EdgesOf(r.edges, n), EdgesOf(r'.edges, n);
            if n in r.targets && r.targets[n].restart == Manual then
              && e in r'.held && !Has(r'.entries, e.id) && !Has(r'.armed, e.id)
              && OnlyArmedSince(before + [Edge(n, HeldEdge, Gen(r, n))], after)
            else
              && (exists x :: (x in r'.entries || x in r'.armed) && Same(x, e)) && !Has(r'.held, e.id)
              && OnlyArmedSince(before + [Edge(n, LostEdge, Gen(r, n))], after)
  {
    assert e.name in Dead(r) && !e.readinessOnly;
    var l :| l in losses && l.name == e.name;
    OneLossEach(losses);
    SelfElsewhere(r, e.name);
    LossesSettle(r, r, losses, e);
    SettledTimer(r, LoseAll(r, losses), e);
    CheckAfter(r, losses);
    assert CheckLiveness(r, losses) == EnsureTimer(LoseAll(r, losses)) by { hide LoseAll, EnsureTimer; }
    HeldOrWaiting(CheckLiveness(r, losses), e);
    hide EntriesOk, HandlesOk, LoseAll, EnsureTimer, EdgesOf, CheckLiveness, Has, Gen;
  }

  lemma SelfElsewhere(r: Registry, m: Name)
    ensures Elsewhere(r, r, m)
  {
  }

  lemma {:induction false} SparedByAll(r: Registry, losses: seq<Loss>, m: Name)
    requires QuietLosses(losses) && m !in LossNames(losses)
    ensures Elsewhere(r, LoseAll(r, losses), m)
    decreases |losses|
  {
    SelfElsewhere(r, m);
    if losses != [] {
      var r1 := Lose(r, losses[0]);
      assert losses[0].name in LossNames(losses);
      LosesElsewhere(r, losses[0], m, Entry(0, m, "", true, false, 0, None));
      hide Lose, Elsewhere;
      SparedByAll(r1, losses[1..], m);
      ElsewhereTwice(r, r1, LoseAll(r, losses), m);
    }
  }

  /** An object whose handle is live, or that has none, is left as it was by a liveness
      check: what is armed for it stays armed, and nothing is reported for it. */
  lemma LivePassBy(r: Registry, losses: seq<Loss>, m: Name)
    requires LossNames(losses) == Dead(r) && QuietLosses(losses) && !(m in r.handles && r.handles[m] !in r.valid)
    ensures Elsewhere(r, CheckLiveness(r, losses), m)
  {
    SelfElsewhere(r, m);
    SparedByAll(r, losses, m);
    hide LoseAll, EdgesOf;
  }

  /** What waits again is asked for at once, where a transport can defer: the dead handle's
      own acquire no longer stands in the way. */
  lemma LostIsChased(r: Registry, l: Loss, e: Entry)
    requires e in r.armed && e.name == l.name && !SetToManual(r, e.name) && AsksNothing(l.watcher)
    requires r.canDefer && l.answer.now == NoHandle && l.answer.accepted
    ensures l.name in Lose(r, l).acquiring && Lose(r, l).asked[l.name] == r.asked[l.name] + 1
  {
    var n, r1 := l.name, Dropped(r, l.name);
    DroppedExactly(r, n);
    MembersByName(r.armed, n);
    RevivedKeeps(Named(r.armed, n), false, e);
    SilentWatcher(r1, n, LostEdge, l.watcher);
    var r2 := Report(r1, n, LostEdge);
    MembersByName(r2.entries, n);
    assert e in Named(r2.entries, n);
    OneAcquireEach(r2, n, l.answer, l.scripts);
    hide Dropped, Notify, BeginAcquire, Named, NotNamed, Revived, Gen;
  }

  // -------------------------------------------------------- a connection that was rebuilt

  lemma DetachedExactly(r: Registry, e: Entry)
    requires e in r.armed
    ensures var r' := Detached(r);
            && r'.armed == [] && r'.handles == map[] && r'.edges == r.edges && r'.targets == r.targets
            && if SetToManual(r, e.name) then e in r'.held else e.(warn := 0) in r'.entries
  {
    MembersByPolicy(r, r.armed, true);
    MembersByPolicy(r, r.armed, false);
    if !SetToManual(r, e.name) { RevivedKeeps(OfPolicy(r, r.armed, false), true, e); }
    hide OfPolicy, Revived, HandlePairs, Endings;
  }

  // What is told to watchers moves nothing; an object's is told once.
  lemma {:induction false} HeldTold(r: Registry, notices: seq<Notice>, m: Name)
    requires forall x :: x in notices ==> AsksNothing(x.watcher)
    requires forall i, j :: 0 <= i < j < |notices| ==> notices[i].name != notices[j].name
    ensures var r' := NotifyHeld(r, notices);
            && r' == r.(edges := r'.edges)
            && EdgesOf(r'.edges, m) == EdgesOf(r.edges, m) + if m in NoticeNames(notices) then [Edge(m, HeldEdge, Gen(r, m))] else []
    decreases |notices|
  {
    if notices != [] {
      OneNotice(notices);
      hide Notify, EdgesOf, AsksNothing, NoticeNames, Report;
      var x, r1 := notices[0], Report(r, notices[0].name, HeldEdge);
      assert x in notices;
      SilentWatcher(r, x.name, HeldEdge, x.watcher);
      ReportedEdges(r, x.name, HeldEdge, m);
      ReportedOnly(r, x.name, m);
      assert forall y :: y in notices[1..] ==> y in notices;
      HeldTold(r1, notices[1..], m);
    }
  }

  lemma ReportedOnly(r: Registry, n: Name, m: Name)
    ensures var r' := Report(r, n, HeldEdge); r' == r.(edges := r'.edges) && Gen(r', m) == Gen(r, m)
  {
  }

  lemma OneNotice(notices: seq<Notice>)
    requires notices != [] && forall i, j :: 0 <= i < j < |notices| ==> notices[i].name != notices[j].name
    ensures NoticeNames(notices) == {notices[0].name} + NoticeNames(notices[1..])
    ensures notices[0].name !in NoticeNames(notices[1..])
  {
    assert notices == [notices[0]] + notices[1..];
  }

  lemma OneNoticeEach(notices: seq<Notice>)
    requires |notices| == |NoticeNames(notices)|
    ensures forall i, j :: 0 <= i < j < |notices| ==> notices[i].name != notices[j].name
  {
    var names := seq(|notices|, i requires 0 <= i < |notices| => notices[i].name);
    assert forall i :: 0 <= i < |notices| ==> names[i] == notices[i].name;
    assert (set x | x in names) == NoticeNames(notices);
    OneEach(names);
  }

  lemma {:induction false} HuntServes(r: Registry, hunts: seq<Hunt>, m: Name)
    requires forall x :: x in hunts ==> AskNothing(x.scripts)
    ensures Serves(r, HuntAll(r, hunts), m)
    decreases |hunts|
  {
    SameServes(r, r, m);
    if hunts != [] {
      var x, r1 := hunts[0], BeginAcquire(r, hunts[0].name, hunts[0].answer, hunts[0].scripts).0;
      AcquireServes(r, x.name, x.answer, x.scripts, m);
      hide Serves, BeginAcquire, AskNothing;
      HuntServes(r1, hunts[1..], m);
      ServesTwice(r, r1, HuntAll(r, hunts), m);
    }
  }

  /** A subscription armed when the connection is rebuilt.  With its object's restart policy
      set to manual it is held, neither pending nor armed, and reported held, once;
      otherwise it waits again or is armed again, is not held, and is reported neither held
      nor lost. */
  lemma ReconnectFollowsPolicy(r: Registry, notices: seq<Notice>, hunts: seq<Hunt>, e: Entry)
    requires Mid(r, []) && Enabled(r, Step.Reconnect(notices, hunts)) && e in r.armed
    requires (forall x :: x in notices ==> AsksNothing(x.watcher)) && (forall x :: x in hunts ==> AskNothing(x.scripts))
    ensures var r', n := Reconnected(r, notices, hunts), e.name;
            var before, after := EdgesOf(r.edges, n), EdgesOf(r'.edges, n);
            if n in r.targets && r.targets[n].restart == Manual then
              && e in r'.held && !Has(r'.entries, e.id) && !Has(r'.armed, e.id)
              && OnlyArmedSince(before + [Edge(n, HeldEdge, Gen(r, n))], after)
            else
              && (exists x :: (x in r'.entries || x in r'.armed) && Same(x, e)) && !Has(r'.held, e.id)
              && OnlyArmedSince(before, after)
  {
    assert Conserved(Reconnected(r, notices, hunts), []) by { ReconnectedAfter(r, notices, hunts); }
    ReconnectResettles(r, notices, hunts, e);
    HeldOrWaiting(Reconnected(r, notices, hunts), e);
    hide EntriesOk, HandlesOk, Reconnected, EdgesOf, Has, Gen, Conserved, OnlyArmedSince, Enabled;
  }

  // What a reconnect leaves of `e`.
  ghost predicate Resettled(r: Registry, r': Registry, e: Entry) {
    var before, after := EdgesOf(r.edges, e.name), EdgesOf(r'.edges, e.name);
    if SetToManual(r, e.name) then e in r'.held && OnlyArmedSince(before + [Edge(e.name, HeldEdge, Gen(r, e.name))], after)
    else Alive(r', e) && OnlyArmedSince(before, after)
  }

  lemma ReconnectResettles(r: Registry, notices: seq<Notice>, hunts: seq<Hunt>, e: Entry)
    requires ArmedOk(r) && Enabled(r, Step.Reconnect(notices, hunts)) && e in r.armed
    requires (forall x :: x in notices ==> AsksNothing(x.watcher)) && (forall x :: x in hunts ==> AskNothing(x.scripts))
    ensures Resettled(r, Reconnected(r, notices, hunts), e)
  {
    var n, r1 := e.name, Detached(r);
    var r2 := NotifyHeld(r1, notices);
    var r3 := HuntAll(r2, hunts);
    assert Reconnected(r, notices, hunts) == EnsureTimer(r3) && Enabled(r, Step.Reconnect(notices, hunts)) && !e.readinessOnly by {
      hide Detached, NotifyHeld, HuntAll, EnsureTimer, Enabled;
    }
    NoticesAreManual(r, notices, hunts, e);
    hide *;
    DetachedExactly(r, e);
    DetachedAlive(r, e);
    HeldTold(r1, notices, n);
    HuntServes(r2, hunts, n);
    GenAs(r, r1, n);
    var told := if SetToManual(r, n) then [Edge(n, HeldEdge, Gen(r, n))] else [];
    assert EdgesOf(r2.edges, n) == EdgesOf(r.edges, n) + told;
    ServedAfterNotice(r1, r2, r3, e);
    ResettledIs(r, EnsureTimer(r3), e, told);
  }

  lemma NoticesAreManual(r: Registry, notices: seq<Notice>, hunts: seq<Hunt>, e: Entry)
    requires Enabled(r, Step.Reconnect(notices, hunts)) && e in r.armed
    ensures forall i, j :: 0 <= i < j < |notices| ==> notices[i].name != notices[j].name
    ensures e.name in NoticeNames(notices) <==> SetToManual(r, e.name)
  {
    OneNoticeEach(notices);
    NoticedIffManual(r, notices, e);
    hide NoticeNames, OfPolicy;
  }

  // From the state detached to the end: who was held stays held, and who waits is served.
  lemma ServedAfterNotice(r1: Registry, r2: Registry, r3: Registry, e: Entry)
    requires r2 == r1.(edges := r2.edges) && Serves(r2, r3, e.name)
    ensures e in r1.held ==> e in EnsureTimer(r3).held
    ensures Alive(r1, e) ==> Alive(EnsureTimer(r3), e)
    ensures OnlyArmedSince(EdgesOf(r2.edges, e.name), EdgesOf(EnsureTimer(r3).edges, e.name))
  {
    hide Alive, EdgesOf;
    StillAlive(r1, r2, e);
    StillAlive(r3, EnsureTimer(r3), e);
  }

  lemma ResettledIs(r: Registry, r': Registry, e: Entry, told: seq<Edge>)
    requires OnlyArmedSince(EdgesOf(r.edges, e.name) + told, EdgesOf(r'.edges, e.name))
    requires if SetToManual(r, e.name) then e in r'.held && told == [Edge(e.name, HeldEdge, Gen(r, e.name))]
             else Alive(r', e) && told == []
    ensures Resettled(r, r', e)
  {
    hide EdgesOf, Alive;
  }

  lemma GenAs(r: Registry, r': Registry, n: Name)
    requires r'.targets == r.targets
    ensures Gen(r', n) == Gen(r, n)
  {
  }

  lemma StillAlive(r: Registry, r': Registry, e: Entry)
    requires r'.entries == r.entries && r'.armed == r.armed
    ensures Alive(r, e) ==> Alive(r', e)
  {
  }

  lemma DetachedAlive(r: Registry, e: Entry)
    requires e in r.armed && !e.readinessOnly
    ensures !SetToManual(r, e.name) ==> Alive(Detached(r), e)
  {
    DetachedExactly(r, e);
    hide Detached;
    if !SetToManual(r, e.name) { assert e.(warn := 0) in Detached(r).entries && Same(e.(warn := 0), e); }
  }

  lemma NoticedIffManual(r: Registry, notices: seq<Notice>, e: Entry)
    requires NoticeNames(notices) == Names(OfPolicy(r, r.armed, true)) && e in r.armed
    ensures e.name in NoticeNames(notices) <==> SetToManual(r, e.name)
  {
    MembersByPolicy(r, r.armed, true);
    hide OfPolicy, NoticeNames;
    if SetToManual(r, e.name) { assert e in OfPolicy(r, r.armed, true); }
  }
}
