/** The registry as it is kept: three vectors of entries, the handle and target maps, the
    set of acquires in flight and one timer, changed in place. */
module PendingRegistry {
  import opened DeferredSubscriptions
  import opened DeferredSafety
  import opened Wrappers

  // ------------------------------------------------------------- vectors, one more entry

  lemma {:induction false} NamedSnoc(s: seq<Entry>, e: Entry, n: Name)
    ensures Named(s + [e], n) == Named(s, n) + if e.name == n then [e] else []
    ensures NotNamed(s + [e], n) == NotNamed(s, n) + if e.name != n then [e] else []
  {
    if s == [] {
      assert s + [e] == [e] && [e][1..] == [];
    } else {
      assert (s + [e])[1..] == s[1..] + [e];
      NamedSnoc(s[1..], e, n);
    }
  }

  lemma {:induction false} RevivedSnoc(s: seq<Entry>, e: Entry, restart: bool)
    ensures Revived(s + [e], restart) == Revived(s, restart) + [if restart then e.(warn := 0) else e]
  {
    if s == [] {
      assert s + [e] == [e] && [e][1..] == [];
    } else {
      assert (s + [e])[1..] == s[1..] + [e];
      RevivedSnoc(s[1..], e, restart);
    }
  }

  lemma {:induction false} PolicySnoc(r: Registry, s: seq<Entry>, e: Entry, m: bool)
    ensures OfPolicy(r, s + [e], m) == OfPolicy(r, s, m) + if IsManual(r, e.name) == m then [e] else []
  {
    if s == [] {
      assert s + [e] == [e] && [e][1..] == [];
    } else {
      assert (s + [e])[1..] == s[1..] + [e];
      PolicySnoc(r, s[1..], e, m);
    }
  }

  lemma {:induction false} WarnedSnoc(s: seq<Entry>, e: Entry, age: map<Id, nat>)
    ensures Warned(s + [e], age) == Warned(s, age) + Warned([e], age)
  {
    if s == [] {
      assert s + [e] == [e];
    } else {
      assert (s + [e])[1..] == s[1..] + [e];
      WarnedSnoc(s[1..], e, age);
    }
  }

  lemma {:induction false} WithoutAt(s: seq<Entry>, i: nat, id: Id)
    requires i < |s| && s[i].id == id && forall j :: 0 <= j < i ==> s[j].id != id
    ensures Without(s, id) == s[..i] + s[i + 1..]
  {
    if i > 0 {
      WithoutAt(s[1..], i - 1, id);
      assert s[1..][..i - 1] == s[1..i] && s[1..][i..] == s[i + 1..];
    }
  }

  // ------------------------------------------------------------------ single passes

  // The entries of `n` and the others, each in order.
  method SplitByObject(s: seq<Entry>, n: Name) returns (matched: seq<Entry>, remaining: seq<Entry>)
    ensures matched == Named(s, n) && remaining == NotNamed(s, n)
  {
    matched, remaining := [], [];
    for i := 0 to |s|
      invariant matched == Named(s[..i], n) && remaining == NotNamed(s[..i], n)
    {
      assert s[..i + 1] == s[..i] + [s[i]];
      NamedSnoc(s[..i], s[i], n);
      if s[i].name == n { matched := matched + [s[i]]; } else { remaining := remaining + [s[i]]; }
    }
    assert s[..|s|] == s;
  }

  method Restarted(s: seq<Entry>, restart: bool) returns (out: seq<Entry>)
    ensures out == Revived(s, restart)
  {
    out := [];
    for i := 0 to |s|
      invariant out == Revived(s[..i], restart)
    {
      assert s[..i + 1] == s[..i] + [s[i]];
      RevivedSnoc(s[..i], s[i], restart);
      out := out + [if restart then s[i].(warn := 0) else s[i]];
    }
    assert s[..|s|] == s;
  }

  // Takes the first entry with this id out, if there is one.
  method RemoveFirst(s: seq<Entry>, id: Id) returns (found: bool, out: seq<Entry>)
    ensures found == Has(s, id)
    ensures out == if found then Without(s, id) else s
  {
    for i := 0 to |s|
      invariant forall j :: 0 <= j < i ==> s[j].id != id
    {
      if s[i].id == id {
        WithoutAt(s, i, id);
        assert s[i] in s;
        return true, s[..i] + s[i + 1..];
      }
    }
    return false, s;
  }

  // The ones a manual policy parks, and the others ready to wait again.
  method SplitByPolicy(s: seq<Entry>, targets: map<Name, Target>, ghost r: Registry) returns (park: seq<Entry>, back: seq<Entry>)
    requires r.targets == targets
    ensures park == OfPolicy(r, s, true) && back == Revived(OfPolicy(r, s, false), true)
  {
    park, back := [], [];
    ghost var kept: seq<Entry> := [];
    for i := 0 to |s|
      invariant park == OfPolicy(r, s[..i], true) && kept == OfPolicy(r, s[..i], false) && back == Revived(kept, true)
    {
      var e := s[i];
      assert s[..i + 1] == s[..i] + [e];
      PolicySnoc(r, s[..i], e, true);
      PolicySnoc(r, s[..i], e, false);
      if e.name in targets && targets[e.name].restart == Manual {
        park := park + [e];
      } else {
        RevivedSnoc(kept, e, true);
        kept := kept + [e];
        back := back + [e.(warn := 0)];
      }
    }
    assert s[..|s|] == s;
  }

  method AnyNotReadiness(s: seq<Entry>) returns (any: bool)
    ensures any == AnyReal(s)
  {
    for i := 0 to |s|
      invariant forall j :: 0 <= j < i ==> s[j].readinessOnly
    {
      if !s[i].readinessOnly {
        assert s[i] in s;
        return true;
      }
    }
    return false;
  }

  // One warning at 3 s, one more at 60 s, then silence.
  method ReportStillPending(s: seq<Entry>, age: map<Id, nat>) returns (out: seq<Entry>)
    ensures out == Warned(s, age)
  {
    out := [];
    for i := 0 to |s|
      invariant out == Warned(s[..i], age)
    {
      var e := s[i];
      var ms := if e.id in age then age[e.id] else 0;
      assert s[..i + 1] == s[..i] + [e];
      WarnedSnoc(s[..i], e, age);
      assert [e][1..] == [];
      if e.warn == 0 && ms >= 3000 {
        out := out + [e.(warn := 1)];
      } else if e.warn == 1 && ms >= 60000 {
        out := out + [e.(warn := 2)];
      } else {
        out := out + [e];
      }
    }
    assert s[..|s|] == s;
  }

  // --------------------------------------------------------- how much callbacks can do

  function Weight(scripts: seq<Script>): nat {
    if scripts == [] then 0 else 1 + RequestsWeight(scripts[0].requests) + Weight(scripts[1..])
  }

  function RequestsWeight(requests: seq<Request>): nat {
    if requests == [] then 0 else 1 + RequestWeight(requests[0]) + RequestsWeight(requests[1..])
  }

  function RequestWeight(q: Request): nat {
    match q
    case AddRequest(_, _, _, _, scripts) => 1 + Weight(scripts)
    case CancelRequest(_) => 1
    case RearmRequest(_, _, scripts) => 1 + Weight(scripts)
    case PolicyRequest(_, _) => 1
  }

  lemma {:induction false} RestIsLighter(scripts: seq<Script>, k: nat)
    ensures Weight(Rest(scripts, k)) <= Weight(scripts)
    ensures Rest(scripts, 0) == scripts && (k > 0 ==> Rest(Rest(scripts, k - 1), 1) == Rest(scripts, k))
    decreases k
  {
    assert scripts[0..] == scripts;
    if k > 0 {
      RestIsLighter(scripts, k - 1);
      var before := Rest(scripts, k - 1);
      if before != [] { assert Rest(scripts, k) == before[1..]; }
    }
  }

  lemma {:induction false} EachIsLighter(requests: seq<Request>, i: nat)
    requires i < |requests|
    ensures RequestWeight(requests[i]) < RequestsWeight(requests)
  {
    if i > 0 { EachIsLighter(requests[1..], i - 1); }
  }

  // ------------------------------------------------------------------------- the class

  // The transport's side, and the history of what was answered, reported and given back.
  datatype Record = Record(
    asked: multiset<Name>, valid: set<Handle>, nextHandle: Handle, home: map<Handle, Name>, released: multiset<(Name, Handle)>,
    gone: map<Id, Exit>, told: map<Id, seq<bool>>, edges: seq<Edge>,
    ended: map<Handle, Ending>, armedOn: map<Name, seq<Handle>>,
    inHand: map<Id, Handle>, undercut: set<Id>, open: multiset<Name>, crossed: set<Name>)

  class PendingSubscriptions {
    var entries: seq<Entry>
    var armed: seq<Entry>
    var held: seq<Entry>
    var acquiring: set<Name>
    var targets: map<Name, Target>
    var handles: map<Name, Handle>
    var timerOn: bool
    var interval: nat
    var nextId: Id
    const canDefer: bool
    var record: Record

    ghost function View(): Registry
      reads this
    {
      Registry(entries, armed, held, acquiring, record.asked, targets, handles, timerOn, interval, nextId, canDefer,
               record.valid, record.nextHandle, record.home, record.released, record.gone, record.told, record.edges,
               record.ended, record.armedOn, record.inHand, record.undercut, record.open, record.crossed)
    }

    method EnsureTimerRuns()
      modifies this`timerOn, this`interval
      ensures timerOn == (entries != [] || armed != [] || old(timerOn))
      ensures interval == if entries != [] || armed != [] then 250 else old(interval)
      ensures View() == EnsureTimer(old(View()))
    {
      if entries == [] && armed == [] { return; }
      interval := 250;
      timerOn := true;
    }

    method StopTimerIfIdle()
      modifies this`timerOn
      ensures View() == StopIfIdle(old(View()))
    {
      if entries == [] && armed == [] { timerOn := false; }
    }

    method TakeMatchingEntries(n: Name) returns (matched: seq<Entry>)
      modifies this`entries, this`timerOn
      ensures matched == Named(old(entries), n) && View() == TakeMatching(old(View()), n)
    {
      var remaining;
      matched, remaining := SplitByObject(entries, n);
      entries := remaining;
      StopTimerIfIdle();
    }

    method ReviveArmedEntries(n: Name)
      modifies this`entries, this`armed
      ensures View() == ReviveArmed(old(View()), n)
    {
      var revive, keep := SplitByObject(armed, n);
      var back := Restarted(revive, false);
      entries := entries + back;
      armed := keep;
    }

    method HoldArmedEntries(n: Name)
      modifies this`held, this`armed
      ensures View() == HoldArmed(old(View()), n)
    {
      var hold, keep := SplitByObject(armed, n);
      held := held + hold;
      armed := keep;
    }

    method PutPending(id: Id, rest: seq<Entry>)
      requires rest == Without(entries, id)
      modifies this`entries, this`timerOn, this`record
      ensures View() == DropPending(old(View()), id)
    {
      entries := rest;
      StopTimerIfIdle();
      record := record.(gone := record.gone[id := Cancelled]);
    }

    method PutArmed(id: Id, rest: seq<Entry>)
      requires rest == Without(armed, id)
      modifies this`armed, this`record
      ensures View() == DropArmed(old(View()), id)
    {
      armed := rest;
      record := record.(gone := record.gone[id := Cancelled]);
    }

    method PutHeld(id: Id, rest: seq<Entry>)
      requires rest == Without(held, id)
      modifies this`held, this`record
      ensures View() == DropHeld(old(View()), id)
    {
      held := rest;
      record := record.(gone := record.gone[id := Cancelled]);
    }

    method CancelEntry(id: Id) returns (ok: bool)
      modifies this
      ensures View() == Cancel(old(View()), id)
      ensures ok <==> Has(old(entries), id) || Has(old(armed), id) || Has(old(held), id)
    {
      hide Has, Without, DropPending, DropArmed, DropHeld;
      var found, rest := RemoveFirst(entries, id);
      if found {
        PutPending(id, rest);
        return true;
      }
      found, rest := RemoveFirst(armed, id);
      if found {
        PutArmed(id, rest);
        return true;
      }
      found, rest := RemoveFirst(held, id);
      if found {
        PutHeld(id, rest);
        return true;
      }
      return false;
    }

    function GenerationOf(n: Name): nat
      reads this`targets
    {
      if n in targets then targets[n].generation else 0
    }

    method ReleaseHandle(n: Name, h: Handle, why: Cause)
      modifies this`record
      ensures View() == Release(old(View()), n, h, why)
    {
      record := record.(released := record.released + multiset{(n, h)},
                        ended := record.ended[h := Ending(why, GenerationOf(n))]);
    }

    // What is in hand on `h` is undercut.
    method UndercutRiders(h: Handle)
      modifies this`record
      ensures View() == old(View()).(undercut := old(record.undercut) + Riding(old(View()), h))
    {
      record := record.(undercut := record.undercut + set id | id in record.inHand && record.inHand[id] == h);
    }

    // Releases and forgets the handle held for `n`, if there is one.
    method ForgetHandle(n: Name, why: Cause)
      modifies this`record, this`handles
      ensures View() == Forget(old(View()), n, why)
    {
      hide Riding;
      if n !in handles { return; }
      UndercutRiders(handles[n]);
      ReleaseHandle(n, handles[n], why);
      handles := handles - {n};
    }

    method AdoptHandle(n: Name, obj: Handle)
      modifies this
      ensures View() == Adopt(old(View()), n, obj)
    {
      hide Forget, ReviveArmed, Release;
      if n in handles && handles[n] != obj && handles[n] !in record.valid {
        ReviveArmedEntries(n);
        ForgetHandle(n, Replaced);
      }
      if n !in handles {
        handles := handles[n := obj];
      } else if handles[n] != obj {
        ReleaseHandle(n, obj, Duplicate);
      }
    }

    method ReceiveHandle(n: Name, o: Offer) returns (h: Option<Handle>)
      modifies this
      ensures (View(), h) == Receive(old(View()), n, o)
    {
      match o
      case NoHandle => return None;
      case SameHandle => return if n in handles then Some(handles[n]) else None;
      case NewHandle(ok) =>
        h := Some(record.nextHandle);
        record := record.(home := record.home[record.nextHandle := n], nextHandle := record.nextHandle + 1,
                          valid := if ok then record.valid + {record.nextHandle} else record.valid);
    }

    method TellEntry(id: Id, ok: bool)
      modifies this`record
      ensures View() == Tell(old(View()), id, ok)
    {
      record := record.(told := record.told[id := (if id in record.told then record.told[id] else []) + [ok]]);
    }

    method ReportEdge(n: Name, kind: EdgeKind)
      modifies this`record
      ensures View() == Report(old(View()), n, kind)
    {
      record := record.(edges := record.edges + [Edge(n, kind, GenerationOf(n))],
                        open := if kind == ArmedEdge then record.open - multiset{n} else record.open);
    }

    method AdvanceGeneration(n: Name, h: Handle)
      modifies this`targets, this`record
      ensures View() == Advance(old(View()), n, h)
    {
      var t := if n in targets then targets[n] else Target(Automatic, 0);
      targets := targets[n := t.(generation := t.generation + 1)];
      record := record.(armedOn := record.armedOn[n := (if n in record.armedOn then record.armedOn[n] else []) + [h]],
                        crossed := if n in record.open then record.crossed + {n} else record.crossed,
                        open := record.open + multiset{n});
    }

    method TakeInHand(matched: seq<Entry>, h: Handle)
      modifies this`record
      ensures View() == InHand(old(View()), RealIds(matched), h)
    {
      var ids := set e | e in matched && !e.readinessOnly :: e.id;
      record := record.(inHand := record.inHand + (map id | id in ids :: h), undercut := record.undercut - ids);
    }

    method RunCallback(scripts: seq<Script>)
      modifies this
      ensures View() == Callback(old(View()), scripts)
      decreases Weight(scripts), 1
    {
      if scripts != [] { RunRequests(scripts[0].requests); }
    }

    method AttachEntry(h: Handle, e: Entry, scripts: seq<Script>)
      modifies this
      ensures View() == AttachOne(old(View()), h, e, scripts)
      decreases Weight(scripts), 2
    {
      hide Callback;
      TellEntry(e.id, true);
      if e.readinessOnly {
        record := record.(gone := record.gone[e.id := ReadinessAnswered]);
        RunCallback(scripts);
        return;
      }
      RunCallback(scripts);
      armed := armed + [e.(everArmed := true, at := Some(h))];
      record := record.(inHand := record.inHand - {e.id});
    }

    method AttachMatched(h: Handle, matched: seq<Entry>, scripts: seq<Script>)
      modifies this
      ensures View() == AttachAll(old(View()), h, matched, scripts)
      decreases Weight(scripts), 3
    {
      hide AttachOne;
      RestIsLighter(scripts, 0);
      var i := 0;
      while i < |matched|
        invariant 0 <= i <= |matched|
        invariant AttachAll(View(), h, matched[i..], Rest(scripts, i)) == AttachAll(old(View()), h, matched, scripts)
      {
        RestIsLighter(scripts, i);
        RestIsLighter(scripts, i + 1);
        assert matched[i..][1..] == matched[i + 1..] && matched[i..][0] == matched[i];
        AttachEntry(h, matched[i], Rest(scripts, i));
        i := i + 1;
      }
    }

    method ArmAgainstHandle(n: Name, obj: Handle, scripts: seq<Script>)
      modifies this
      ensures View() == ArmAgainst(old(View()), n, obj, scripts)
      decreases Weight(scripts), 4
    {
      hide Adopt, TakeMatching, AttachAll, Callback, AnyReal, Named, Advance, InHand, RealIds, Report, EnsureTimer;
      AdoptHandle(n, obj);
      var handle := handles[n];
      var matched := TakeMatchingEntries(n);
      TakeInHand(matched, handle);
      var anyReal := AnyNotReadiness(matched);
      if anyReal { AdvanceGeneration(n, handle); }
      AttachMatched(handle, matched, scripts);
      if anyReal {
        RestIsLighter(scripts, |matched|);
        ReportEdge(n, ArmedEdge);
        RunCallback(Rest(scripts, |matched|));
      }
      EnsureTimerRuns();
    }

    // The transport took the acquire.
    method MarkAcquiring(n: Name)
      modifies this`acquiring, this`record
      ensures View() == AskFor(old(View()), n)
    {
      acquiring := acquiring + {n};
      record := record.(asked := record.asked + multiset{n});
    }

    method Acquire(n: Name, a: Answer, scripts: seq<Script>) returns (armedNow: bool)
      modifies this
      ensures (View(), armedNow) == BeginAcquire(old(View()), n, a, scripts)
      decreases Weight(scripts), 5
    {
      hide ArmAgainst, Receive, AskFor;
      ghost var before := View();
      var probe := if canDefer && n !in acquiring then a.now else NoHandle;
      var h := ReceiveHandle(n, probe);
      NothingReceived(before, n, probe);
      if h.Some? {
        ArmAgainstHandle(n, h.value, scripts);
        return true;
      }
      if canDefer {
        if n !in acquiring && a.accepted { MarkAcquiring(n); }
        return false;
      }
      h := ReceiveHandle(n, a.lookup);
      NothingReceived(before, n, a.lookup);
      if h.Some? {
        ArmAgainstHandle(n, h.value, scripts);
        return true;
      }
      return false;
    }

    method ChaseObject(n: Name, a: Answer, scripts: seq<Script>) returns (armedNow: bool)
      modifies this
      ensures (View(), armedNow) == Chase(old(View()), n, a, scripts)
      decreases Weight(scripts), 6
    {
      hide ArmAgainst, BeginAcquire;
      if n in handles && handles[n] in record.valid {
        ArmAgainstHandle(n, handles[n], scripts);
        return true;
      }
      armedNow := Acquire(n, a, scripts);
    }

    method AddEntry(n: Name, event: string, readinessOnly: bool, a: Answer, scripts: seq<Script>) returns (id: Id)
      modifies this
      ensures id == old(nextId) && View() == Add(old(View()), n, event, readinessOnly, a, scripts)
      decreases Weight(scripts), 7
    {
      hide Chase;
      id := nextId;
      nextId := nextId + 1;
      entries := entries + [Entry(id, n, event, readinessOnly, false, 0, None)];
      var armedNow := ChaseObject(n, a, scripts);
      if armedNow { return; }
      EnsureTimerRuns();
    }

    method RearmObject(n: Name, a: Answer, scripts: seq<Script>) returns (any: bool)
      modifies this
      ensures any == (Named(old(held), n) != []) && View() == Rearm(old(View()), n, a, scripts)
      decreases Weight(scripts), 7
    {
      hide Chase, Named, NotNamed, Revived;
      var revive, keep := SplitByObject(held, n);
      if revive == [] { return false; }
      var back := Restarted(revive, true);
      entries := entries + back;
      held := keep;
      var armedNow := ChaseObject(n, a, scripts);
      EnsureTimerRuns();
      return true;
    }

    // Takes effect on the next loss.
    method SetRestartPolicy(n: Name, p: Policy)
      modifies this`targets
      ensures View() == SetPolicy(old(View()), n, p)
      ensures targets == old(targets)[n := Target(p, if n in old(targets) then old(targets)[n].generation else 0)]
    {
      var t := if n in targets then targets[n] else Target(Automatic, 0);
      targets := targets[n := t.(restart := p)];
    }

    method PerformRequest(q: Request)
      modifies this
      ensures View() == Perform(old(View()), q)
      decreases RequestWeight(q), 0
    {
      hide Add, Cancel, Rearm, SetPolicy;
      match q
      case AddRequest(n, event, readinessOnly, a, scripts) => var id := AddEntry(n, event, readinessOnly, a, scripts);
      case CancelRequest(id) => var ok := CancelEntry(id);
      case RearmRequest(n, a, scripts) => var any := RearmObject(n, a, scripts);
      case PolicyRequest(n, p) => SetRestartPolicy(n, p);
    }

    method RunRequests(requests: seq<Request>)
      modifies this
      ensures View() == RunScript(old(View()), requests)
      decreases RequestsWeight(requests), 0
    {
      hide Perform;
      assert requests[0..] == requests;
      var i := 0;
      while i < |requests|
        invariant 0 <= i <= |requests|
        invariant RunScript(View(), requests[i..]) == RunScript(old(View()), requests)
      {
        EachIsLighter(requests, i);
        assert requests[i..][0] == requests[i] && requests[i..][1..] == requests[i + 1..];
        PerformRequest(requests[i]);
        i := i + 1;
      }
    }

    // ------------------------------------------------------- what the event loop does

    method NotifyWatcher(n: Name, kind: EdgeKind, watcher: Script)
      modifies this
      ensures View() == Notify(old(View()), n, kind, watcher)
    {
      hide RunScript, Report;
      ReportEdge(n, kind);
      RunRequests(watcher.requests);
    }

    method AbandonEntry(e: Entry, scripts: seq<Script>)
      modifies this
      ensures View() == AbandonOne(old(View()), e, scripts)
    {
      hide RunScript;
      TellEntry(e.id, false);
      record := record.(gone := record.gone[e.id := Abandoned]);
      if scripts != [] { RunRequests(scripts[0].requests); }
    }

    method AbandonObject(n: Name, scripts: seq<Script>, watcher: Script)
      modifies this
      ensures View() == Abandon(old(View()), n, scripts, watcher)
    {
      hide AbandonOne, TakeMatching, Notify, Named;
      var matched := TakeMatchingEntries(n);
      ghost var taken := View();
      RestIsLighter(scripts, 0);
      var i := 0;
      while i < |matched|
        invariant 0 <= i <= |matched|
        invariant AbandonAll(View(), matched[i..], Rest(scripts, i)) == AbandonAll(taken, matched, scripts)
      {
        RestIsLighter(scripts, i + 1);
        assert matched[i..][1..] == matched[i + 1..] && matched[i..][0] == matched[i];
        AbandonEntry(matched[i], Rest(scripts, i));
        i := i + 1;
      }
      if matched != [] { NotifyWatcher(n, AbandonedEdge, watcher); }
    }

    // A deferred acquire reports back, with a handle or with the news there is none.
    method OnAcquired(n: Name, o: Offer, scripts: seq<Script>, watcher: Script)
      modifies this
      ensures View() == AcquireDone(old(View()), n, o, scripts, watcher)
    {
      hide ArmAgainst, Abandon, Receive;
      acquiring := acquiring - {n};
      record := record.(asked := record.asked - multiset{n});
      var h := ReceiveHandle(n, o);
      if h.Some? { ArmAgainstHandle(n, h.value, scripts); } else { AbandonObject(n, scripts, watcher); }
    }

    method HuntObjects(hunts: seq<Hunt>)
      modifies this
      ensures View() == HuntAll(old(View()), hunts)
    {
      hide BeginAcquire;
      assert hunts[0..] == hunts;
      var i := 0;
      while i < |hunts|
        invariant 0 <= i <= |hunts|
        invariant HuntAll(View(), hunts[i..]) == HuntAll(old(View()), hunts)
      {
        assert hunts[i..][0] == hunts[i] && hunts[i..][1..] == hunts[i + 1..];
        var armedNow := Acquire(hunts[i].name, hunts[i].answer, hunts[i].scripts);
        i := i + 1;
      }
    }

    // The dead handle goes; its subscriptions are parked or put back, by policy.
    method DropProvider(n: Name)
      modifies this
      ensures View() == Dropped(old(View()), n)
    {
      hide HoldArmed, ReviveArmed, Forget;
      var manual := n in targets && targets[n].restart == Manual;
      ForgetHandle(n, Lost);
      acquiring := acquiring - {n};
      if manual { HoldArmedEntries(n); } else { ReviveArmedEntries(n); }
    }

    method LoseProvider(l: Loss)
      modifies this
      ensures View() == Lose(old(View()), l)
    {
      hide Dropped, Notify, BeginAcquire;
      var n := l.name;
      var manual := n in targets && targets[n].restart == Manual;
      var lost, others := SplitByObject(armed, n);
      DropProvider(n);
      if lost != [] { NotifyWatcher(n, if manual then HeldEdge else LostEdge, l.watcher); }
      var pending, rest := SplitByObject(entries, n);
      if pending != [] { var armedNow := Acquire(n, l.answer, l.scripts); }
    }

    method CheckProviders(losses: seq<Loss>)
      modifies this
      ensures View() == CheckLiveness(old(View()), losses)
    {
      hide Lose, EnsureTimer;
      if armed == [] { return; }
      var dead := set n | n in handles && handles[n] !in record.valid;
      if dead == {} { return; }
      ghost var before := View();
      assert losses[0..] == losses;
      var i := 0;
      while i < |losses|
        invariant 0 <= i <= |losses|
        invariant LoseAll(View(), losses[i..]) == LoseAll(before, losses)
      {
        assert losses[i..][0] == losses[i] && losses[i..][1..] == losses[i + 1..];
        LoseProvider(losses[i]);
        i := i + 1;
      }
      EnsureTimerRuns();
    }

    method Reschedule()
      modifies this`timerOn, this`interval
      ensures View() == RescheduleOrStop(old(View()))
    {
      if entries == [] && armed == [] {
        timerOn := false;
        return;
      }
      if entries == [] {
        timerOn, interval := true, 1000;
        return;
      }
      var i := 0;
      while i < |entries|
        invariant 0 <= i <= |entries|
        invariant forall j :: 0 <= j < i ==> Quiet(View(), entries[j])
        invariant View() == old(View())
      {
        if entries[i].name !in acquiring || entries[i].warn < 2 {
          assert entries[i] in entries && !Quiet(View(), entries[i]);
          if interval < 5000 {
            interval := if interval * 2 < 5000 then interval * 2 else 5000;
            timerOn := true;
          }
          return;
        }
        i := i + 1;
      }
      if armed != [] { timerOn, interval := true, 1000; } else { timerOn := false; }
    }

    method OnTimer(losses: seq<Loss>, hunts: seq<Hunt>, age: map<Id, nat>)
      modifies this
      ensures View() == Tick(old(View()), losses, hunts, age)
    {
      hide CheckLiveness, HuntAll, RescheduleOrStop, Warned;
      CheckProviders(losses);
      HuntObjects(hunts);
      var warned := ReportStillPending(entries, age);
      entries := warned;
      Reschedule();
    }

    // One release() for each handle held.
    method ReleaseEach() returns (all: multiset<(Name, Handle)>)
      ensures all == multiset(HandlePairs(handles))
    {
      all := multiset{};
      var todo := handles.Keys;
      ghost var done: set<(Name, Handle)> := {};
      while todo != {}
        invariant todo <= handles.Keys
        invariant forall p :: p in done <==> p.0 in handles && p.0 !in todo && p.1 == handles[p.0]
        invariant all == multiset(done)
        decreases |todo|
      {
        var n :| n in todo;
        todo := todo - {n};
        all := all + multiset{(n, handles[n])};
        assert multiset(done + {(n, handles[n])}) == multiset(done) + multiset{(n, handles[n])};
        done := done + {(n, handles[n])};
      }
      assert done == HandlePairs(handles);
    }

    method EachEnding() returns (endings: map<Handle, Ending>)
      ensures endings == Endings(View())
    {
      endings := map h | h in handles.Values && h in record.home :: Ending(Reconnect, GenerationOf(record.home[h]));
    }

    method ReleaseHandles()
      modifies this`record, this`handles
      ensures View() == old(View()).(handles := map[], released := old(record.released) + multiset(HandlePairs(old(handles))),
                                     ended := old(record.ended) + Endings(old(View())))
    {
      var all := ReleaseEach();
      var endings := EachEnding();
      hide HandlePairs, Endings;
      record := record.(released := record.released + all, ended := record.ended + endings);
      handles := map[];
    }

    // Every arming is undone: held under a manual policy, pending again otherwise.
    method DetachAll()
      modifies this
      ensures View() == Detached(old(View()))
    {
      hide OfPolicy, Revived, HandlePairs;
      var park, back := SplitByPolicy(armed, targets, View());
      ReleaseHandles();
      acquiring := {};
      record := record.(asked := multiset{});
      armed := [];
      held := held + park;
      entries := entries + back;
    }

    method OnReconnected(notices: seq<Notice>, hunts: seq<Hunt>)
      modifies this
      ensures View() == Reconnected(old(View()), notices, hunts)
    {
      hide Detached, Notify, HuntAll, EnsureTimer;
      DetachAll();
      ghost var detached := View();
      assert notices[0..] == notices;
      var i := 0;
      while i < |notices|
        invariant 0 <= i <= |notices|
        invariant NotifyHeld(View(), notices[i..]) == NotifyHeld(detached, notices)
      {
        assert notices[i..][0] == notices[i] && notices[i..][1..] == notices[i + 1..];
        NotifyWatcher(notices[i].name, HeldEdge, notices[i].watcher);
        i := i + 1;
      }
      HuntObjects(hunts);
      EnsureTimerRuns();
    }
  }

  lemma NothingReceived(r: Registry, n: Name, o: Offer)
    ensures Receive(r, n, o).1.None? ==> Receive(r, n, o).0 == r
  {
  }
}
