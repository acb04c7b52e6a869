/** The registry of subscriptions whose target may not be reachable yet: pending, armed
    and held entries, one handle per object, and the timer that both retries and
    watches.  These are the operations as functions of the registry's state; the class
    that performs them is in PendingRegistry.

    A user callback may re-enter the registry to add, cancel, rearm or set a policy.  What
    each callback does is a finite script, given with the operation that runs it. */
module DeferredSubscriptions {
  import opened Wrappers

  type Id = nat
  type Name = string
  type Handle = nat

  datatype Policy = Automatic | Manual
  datatype Target = Target(restart: Policy, generation: nat)

  // `at` is the handle the entry's callback was last attached to.
  datatype Entry = Entry(id: Id, name: Name, event: string, readinessOnly: bool,
                         everArmed: bool, warn: nat, at: Option<Handle>)

  // What a watcher of an object is told: the edge, and the generation it is told with.
  datatype EdgeKind = ArmedEdge | HeldEdge | LostEdge | AbandonedEdge
  datatype Edge = Edge(name: Name, kind: EdgeKind, generation: nat)

  // How an id can leave the registry for good.
  datatype Exit = Cancelled | Abandoned | ReadinessAnswered

  // Why a handle was given back, and the generation its object was on at that moment.
  datatype Cause = Lost | Replaced | Reconnect | Duplicate
  datatype Ending = Ending(cause: Cause, generation: nat)

  /** `asked` counts the deferred acquires the transport has accepted and may still answer.
      The fields from `home` on are history.  `home` says which object each handle ever
      received was received for; `released` counts release() calls and `ended` says when
      and why; `told` is every answer an entry's callback was given, and `edges` every
      edge reported, in order.  `armedOn` lists the handle of each generation.

      `inHand` has the handle of every entry an arming has taken and not yet put down;
      an entry is `undercut` when that handle is given back meanwhile.  `open` counts the
      armings that have advanced their object's generation and not yet reported it; an
      object is `crossed` once such armings of it have overlapped. */
  datatype Registry = Registry(
    entries: seq<Entry>, armed: seq<Entry>, held: seq<Entry>,
    acquiring: set<Name>, asked: multiset<Name>, targets: map<Name, Target>, handles: map<Name, Handle>,
    timerOn: bool, interval: nat, nextId: Id,
    canDefer: bool, valid: set<Handle>, nextHandle: Handle,
    home: map<Handle, Name>, released: multiset<(Name, Handle)>,
    gone: map<Id, Exit>, told: map<Id, seq<bool>>, edges: seq<Edge>,
    ended: map<Handle, Ending>, armedOn: map<Name, seq<Handle>>,
    inHand: map<Id, Handle>, undercut: set<Id>, open: multiset<Name>, crossed: set<Name>)

  // ------------------------------------------------------ what the world answers

  // A handle from the transport: none, a new one, or the one already held.
  datatype Offer = NoHandle | NewHandle(isValid: bool) | SameHandle

  /** The transport's answers to one acquisition attempt: an immediate handle, whether
      it takes a deferred acquire, and the synchronous lookup of transports that cannot. */
  datatype Answer = Answer(now: Offer, accepted: bool, lookup: Offer)

  // What one user callback does before returning.
  datatype Script = Script(requests: seq<Request>)
  datatype Request =
    | AddRequest(name: Name, event: string, readinessOnly: bool, answer: Answer, scripts: seq<Script>)
    | CancelRequest(id: Id)
    | RearmRequest(name: Name, answer: Answer, scripts: seq<Script>)
    | PolicyRequest(name: Name, restart: Policy)

  // -------------------------------------------------------------- entry vectors

  function Named(s: seq<Entry>, n: Name): seq<Entry> {
    if s == [] then [] else if s[0].name == n then [s[0]] + Named(s[1..], n) else Named(s[1..], n)
  }

  function NotNamed(s: seq<Entry>, n: Name): seq<Entry> {
    if s == [] then [] else if s[0].name != n then [s[0]] + NotNamed(s[1..], n) else NotNamed(s[1..], n)
  }

  // Back to the pending set; `restart` restarts the warnings.
  function Revived(s: seq<Entry>, restart: bool): seq<Entry> {
    if s == [] then [] else [if restart then s[0].(warn := 0) else s[0]] + Revived(s[1..], restart)
  }

  function IsManual(r: Registry, n: Name): bool {
    n in r.targets && r.targets[n].restart.Manual?
  }

  function OfPolicy(r: Registry, s: seq<Entry>, manual: bool): seq<Entry> {
    if s == [] then []
    else if IsManual(r, s[0].name) == manual then [s[0]] + OfPolicy(r, s[1..], manual)
    else OfPolicy(r, s[1..], manual)
  }

  function Names(s: seq<Entry>): set<Name> {
    set e | e in s :: e.name
  }

  function LiveHandle(r: Registry, n: Name): Option<Handle> {
    if n in r.handles && r.handles[n] in r.valid then Some(r.handles[n]) else None
  }

  // -------------------------------------------------------------------- the timer

  predicate TimerNeeded(r: Registry) {
    r.entries != [] || r.armed != []
  }

  function EnsureTimer(r: Registry): Registry {
    r.(timerOn := TimerNeeded(r) || r.timerOn, interval := if TimerNeeded(r) then 250 else r.interval)
  }

  function StopIfIdle(r: Registry): Registry {
    r.(timerOn := TimerNeeded(r) && r.timerOn)
  }

  // The transport will arm it without help, and it has said all it is going to say.
  predicate Quiet(r: Registry, e: Entry) {
    e.name in r.acquiring && e.warn >= 2
  }

  // Whether the timer runs after a tick, and at what interval.
  function NextTimer(r: Registry): (bool, nat) {
    if !TimerNeeded(r) then (false, r.interval)
    else if r.entries == [] then (true, 1000)
    else if exists e :: e in r.entries && !Quiet(r, e) then
      if r.interval < 5000 then (true, if r.interval * 2 < 5000 then r.interval * 2 else 5000)
      else (r.timerOn, r.interval)
    else if r.armed != [] then (true, 1000)
    else (false, r.interval)
  }

  function RescheduleOrStop(r: Registry): Registry {
    r.(timerOn := NextTimer(r).0, interval := NextTimer(r).1)
  }

  // ------------------------------------------------------------ arming one object

  function Tell(r: Registry, id: Id, ok: bool): Registry {
    r.(told := r.told[id := (if id in r.told then r.told[id] else []) + [ok]])
  }

  function Depart(r: Registry, id: Id, why: Exit): Registry {
    r.(gone := r.gone[id := why])
  }

  function TargetOf(r: Registry, n: Name): Target {
    if n in r.targets then r.targets[n] else Target(Automatic, 0)
  }

  // One object-level edge, with the generation of that moment.
  function Report(r: Registry, n: Name, kind: EdgeKind): Registry {
    r.(edges := r.edges + [Edge(n, kind, TargetOf(r, n).generation)],
       open := if kind.ArmedEdge? then r.open - multiset{n} else r.open)
  }

  // Takes delivery of a handle for `n`.
  function Receive(r: Registry, n: Name, o: Offer): (Registry, Option<Handle>) {
    match o
    case NoHandle => (r, None)
    case SameHandle => if n in r.handles then (r, Some(r.handles[n])) else (r, None)
    case NewHandle(ok) =>
      var h := r.nextHandle;
      (r.(nextHandle := h + 1, home := r.home[h := n], valid := if ok then r.valid + {h} else r.valid), Some(h))
  }

  function Release(r: Registry, n: Name, h: Handle, why: Cause): Registry {
    r.(released := r.released + multiset{(n, h)}, ended := r.ended[h := Ending(why, TargetOf(r, n).generation)])
  }

  // The entries in hand on `h`.
  function Riding(r: Registry, h: Handle): set<Id> {
    set id | id in r.inHand && r.inHand[id] == h
  }

  // Releasing the handle held for `n` and forgetting it.
  function Forget(r: Registry, n: Name, why: Cause): Registry {
    if n in r.handles
    then Release(r, n, r.handles[n], why).(handles := r.handles - {n}, undercut := r.undercut + Riding(r, r.handles[n]))
    else r
  }

  // The armed entries of an object go back to the pending set, warnings kept.
  function ReviveArmed(r: Registry, n: Name): Registry {
    r.(entries := r.entries + Revived(Named(r.armed, n), false), armed := NotNamed(r.armed, n))
  }

  // The armed entries of an object are parked.
  function HoldArmed(r: Registry, n: Name): Registry {
    r.(held := r.held + Named(r.armed, n), armed := NotNamed(r.armed, n))
  }

  predicate StaleFor(r: Registry, n: Name, obj: Handle) {
    n in r.handles && r.handles[n] != obj && r.handles[n] !in r.valid
  }

  // Files a handle that arrived: kept if none is held, given back if one is.
  function File(r: Registry, n: Name, obj: Handle): (r': Registry)
    ensures n in r'.handles
  {
    if n !in r.handles then r.(handles := r.handles[n := obj])
    else if r.handles[n] != obj then Release(r, n, obj, Duplicate)
    else r
  }

  function Adopt(r: Registry, n: Name, obj: Handle): (r': Registry)
    ensures n in r'.handles
  {
    if StaleFor(r, n, obj) then File(Forget(ReviveArmed(r, n), n, Replaced), n, obj) else File(r, n, obj)
  }

  function AnyReal(s: seq<Entry>): bool {
    exists e :: e in s && !e.readinessOnly
  }

  function TakeMatching(r: Registry, n: Name): Registry {
    StopIfIdle(r.(entries := NotNamed(r.entries, n)))
  }

  // The handles an object was armed on, one for each of its generations.
  function Line(r: Registry, n: Name): seq<Handle> {
    if n in r.armedOn then r.armedOn[n] else []
  }

  function Advance(r: Registry, n: Name, h: Handle): Registry {
    r.(targets := r.targets[n := TargetOf(r, n).(generation := TargetOf(r, n).generation + 1)],
       armedOn := r.armedOn[n := Line(r, n) + [h]],
       open := r.open + multiset{n},
       crossed := if n in r.open then r.crossed + {n} else r.crossed)
  }

  function RealIds(s: seq<Entry>): set<Id> {
    set e | e in s && !e.readinessOnly :: e.id
  }

  // The entries an arming on `h` has taken are in hand until it puts them down.
  function InHand(r: Registry, ids: set<Id>, h: Handle): Registry {
    r.(inHand := r.inHand + map id | id in ids :: h, undercut := r.undercut - ids)
  }

  // Takes the object's entries out of the pending set, and advances its generation.
  function TakeForArming(r: Registry, n: Name, h: Handle): Registry {
    var r1 := InHand(TakeMatching(r, n), RealIds(Named(r.entries, n)), h);
    if AnyReal(Named(r.entries, n)) then Advance(r1, n, h) else r1
  }

  function Callback(r: Registry, scripts: seq<Script>): Registry
    decreases scripts, 1
  {
    if scripts != [] then RunScript(r, scripts[0].requests) else r
  }

  function Rest(scripts: seq<Script>, k: nat): seq<Script> {
    if scripts == [] then [] else if k <= |scripts| then scripts[k..] else scripts[|scripts|..]
  }

  function PutDown(r: Registry, e: Entry, h: Handle): Registry {
    r.(armed := r.armed + [e.(everArmed := true, at := Some(h))], inHand := r.inHand - {e.id})
  }

  // One entry of an arming: answered once and forgotten, or attached and kept.
  function AttachOne(r: Registry, h: Handle, e: Entry, scripts: seq<Script>): Registry
    decreases scripts, 2
  {
    if e.readinessOnly then Callback(Depart(Tell(r, e.id, true), e.id, ReadinessAnswered), scripts)
    else PutDown(Callback(Tell(r, e.id, true), scripts), e, h)
  }

  function AttachAll(r: Registry, h: Handle, matched: seq<Entry>, scripts: seq<Script>): Registry
    decreases scripts, 3, |matched|
  {
    if matched == [] then r
    else AttachAll(AttachOne(r, h, matched[0], scripts), h, matched[1..], Rest(scripts, 1))
  }

  // The one edge of an arming, once every entry is in place.
  function Announce(r: Registry, n: Name, scripts: seq<Script>): Registry
    decreases scripts, 3
  {
    Callback(Report(r, n, ArmedEdge), scripts)
  }

  // A handle arrived: attach every pending subscription for its object.
  function ArmAgainst(r: Registry, n: Name, obj: Handle, scripts: seq<Script>): Registry
    decreases scripts, 4
  {
    var r1 := Adopt(r, n, obj);
    var h, matched := r1.handles[n], Named(r1.entries, n);
    var r2 := AttachAll(TakeForArming(r1, n, h), h, matched, scripts);
    EnsureTimer(if AnyReal(matched) then Announce(r2, n, Rest(scripts, |matched|)) else r2)
  }

  // The transport takes the acquire, and may answer it on a later turn of the event loop.
  function AskFor(r: Registry, n: Name): Registry {
    r.(acquiring := r.acquiring + {n}, asked := r.asked + multiset{n})
  }

  // Whether it armed synchronously is the second result.
  function BeginAcquire(r: Registry, n: Name, a: Answer, scripts: seq<Script>): (Registry, bool)
    decreases scripts, 5
  {
    var (r1, h) := Receive(r, n, if r.canDefer && n !in r.acquiring then a.now else NoHandle);
    if h.Some? then (ArmAgainst(r1, n, h.value, scripts), true)
    else if r.canDefer then
      (if n !in r.acquiring && a.accepted then AskFor(r, n) else r, false)
    else
      var (r2, h2) := Receive(r, n, a.lookup);
      if h2.Some? then (ArmAgainst(r2, n, h2.value, scripts), true) else (r, false)
  }

  // Arms against a live handle, or asks the transport for one.
  function Chase(r: Registry, n: Name, a: Answer, scripts: seq<Script>): (Registry, bool)
    decreases scripts, 6
  {
    var live := LiveHandle(r, n);
    if live.Some? then (ArmAgainst(r, n, live.value, scripts), true) else BeginAcquire(r, n, a, scripts)
  }

  // ------------------------------------------------------- operations of the registry

  function NewEntry(r: Registry, n: Name, event: string, readinessOnly: bool): Registry {
    r.(entries := r.entries + [Entry(r.nextId, n, event, readinessOnly, false, 0, None)], nextId := r.nextId + 1)
  }

  function Add(r: Registry, n: Name, event: string, readinessOnly: bool, a: Answer, scripts: seq<Script>): Registry
    decreases scripts, 7
  {
    var (r1, armedNow) := Chase(NewEntry(r, n, event, readinessOnly), n, a, scripts);
    if armedNow then r1 else EnsureTimer(r1)
  }

  // Drops the first entry with this id.
  function Without(s: seq<Entry>, id: Id): seq<Entry> {
    if s == [] then [] else if s[0].id == id then s[1..] else [s[0]] + Without(s[1..], id)
  }

  predicate Has(s: seq<Entry>, id: Id) {
    exists e :: e in s && e.id == id
  }

  function DropPending(r: Registry, id: Id): Registry {
    Depart(StopIfIdle(r.(entries := Without(r.entries, id))), id, Cancelled)
  }

  function DropArmed(r: Registry, id: Id): Registry {
    Depart(r.(armed := Without(r.armed, id)), id, Cancelled)
  }

  function DropHeld(r: Registry, id: Id): Registry {
    Depart(r.(held := Without(r.held, id)), id, Cancelled)
  }

  function Cancel(r: Registry, id: Id): Registry {
    if Has(r.entries, id) then DropPending(r, id)
    else if Has(r.armed, id) then DropArmed(r, id)
    else if Has(r.held, id) then DropHeld(r, id)
    else r
  }

  function Unhold(r: Registry, n: Name): Registry {
    r.(entries := r.entries + Revived(Named(r.held, n), true), held := NotNamed(r.held, n))
  }

  function Rearm(r: Registry, n: Name, a: Answer, scripts: seq<Script>): Registry
    decreases scripts, 7
  {
    if Named(r.held, n) == [] then r else EnsureTimer(Chase(Unhold(r, n), n, a, scripts).0)
  }

  // Takes effect on the next loss.
  function SetPolicy(r: Registry, n: Name, p: Policy): Registry {
    r.(targets := r.targets[n := TargetOf(r, n).(restart := p)])
  }

  function Perform(r: Registry, q: Request): Registry
    decreases q, 0
  {
    match q
    case AddRequest(n, event, readinessOnly, a, scripts) => Add(r, n, event, readinessOnly, a, scripts)
    case CancelRequest(id) => Cancel(r, id)
    case RearmRequest(n, a, scripts) => Rearm(r, n, a, scripts)
    case PolicyRequest(n, p) => SetPolicy(r, n, p)
  }

  function RunScript(r: Registry, requests: seq<Request>): Registry
    decreases requests, 0
  {
    if requests == [] then r else RunScript(Perform(r, requests[0]), requests[1..])
  }

  // ------------------------------------------------ what the connection does to it

  function AbandonOne(r: Registry, e: Entry, scripts: seq<Script>): Registry {
    var r1 := Depart(Tell(r, e.id, false), e.id, Abandoned);
    if scripts != [] then RunScript(r1, scripts[0].requests) else r1
  }

  function AbandonAll(r: Registry, matched: seq<Entry>, scripts: seq<Script>): Registry
    decreases |matched|
  {
    if matched == [] then r else AbandonAll(AbandonOne(r, matched[0], scripts), matched[1..], Rest(scripts, 1))
  }

  // An edge and what the object's watcher does on it.
  function Notify(r: Registry, n: Name, kind: EdgeKind, watcher: Script): Registry {
    RunScript(Report(r, n, kind), watcher.requests)
  }

  // The transport proved the object can never be acquired.
  function Abandon(r: Registry, n: Name, scripts: seq<Script>, watcher: Script): Registry {
    var matched := Named(r.entries, n);
    var r1 := AbandonAll(TakeMatching(r, n), matched, scripts);
    if matched == [] then r1 else Notify(r1, n, AbandonedEdge, watcher)
  }

  function Answered(r: Registry, n: Name): Registry {
    r.(acquiring := r.acquiring - {n}, asked := r.asked - multiset{n})
  }

  // A deferred acquire reports back, whether or not it is the one last asked for.
  function AcquireDone(r: Registry, n: Name, o: Offer, scripts: seq<Script>, watcher: Script): Registry {
    var (r1, h) := Receive(Answered(r, n), n, o);
    if h.Some? then ArmAgainst(r1, n, h.value, scripts) else Abandon(r1, n, scripts, watcher)
  }

  // One object to chase, with the transport's answers and the callbacks' scripts.
  datatype Hunt = Hunt(name: Name, answer: Answer, scripts: seq<Script>)

  function HuntAll(r: Registry, hunts: seq<Hunt>): Registry
    decreases |hunts|
  {
    if hunts == [] then r
    else HuntAll(BeginAcquire(r, hunts[0].name, hunts[0].answer, hunts[0].scripts).0, hunts[1..])
  }

  // One object whose watcher is told its subscriptions were held.
  datatype Notice = Notice(name: Name, watcher: Script)

  function NotifyHeld(r: Registry, notices: seq<Notice>): Registry
    decreases |notices|
  {
    if notices == [] then r
    else NotifyHeld(Notify(r, notices[0].name, HeldEdge, notices[0].watcher), notices[1..])
  }

  function HandlePairs(handles: map<Name, Handle>): set<(Name, Handle)> {
    set n | n in handles :: (n, handles[n])
  }

  function Endings(r: Registry): map<Handle, Ending> {
    map h | h in r.handles.Values && h in r.home :: Ending(Reconnect, TargetOf(r, r.home[h]).generation)
  }

  // Every handle goes, and with it every arming: held or pending again, by policy.  The
  // acquires the transport had accepted died with the connection.
  function Detached(r: Registry): Registry {
    r.(handles := map[], acquiring := {}, asked := multiset{},
       released := r.released + multiset(HandlePairs(r.handles)),
       ended := r.ended + Endings(r),
       held := r.held + OfPolicy(r, r.armed, true),
       entries := r.entries + Revived(OfPolicy(r, r.armed, false), true),
       armed := [])
  }

  function Reconnected(r: Registry, notices: seq<Notice>, hunts: seq<Hunt>): Registry {
    EnsureTimer(HuntAll(NotifyHeld(Detached(r), notices), hunts))
  }

  // ------------------------------------------------------------------- the watchdog

  datatype Loss = Loss(name: Name, watcher: Script, answer: Answer, scripts: seq<Script>)

  function Dead(r: Registry): set<Name> {
    set n | n in r.handles && r.handles[n] !in r.valid
  }

  function Dropped(r: Registry, n: Name): Registry {
    var r1 := Forget(r, n, Lost).(acquiring := r.acquiring - {n});
    if IsManual(r, n) then HoldArmed(r1, n) else ReviveArmed(r1, n)
  }

  // A provider that died: its handle goes, its subscriptions are held or chased.
  function Lose(r: Registry, l: Loss): Registry {
    var r1 := Dropped(r, l.name);
    var r2 := if Named(r.armed, l.name) == [] then r1
              else Notify(r1, l.name, if IsManual(r, l.name) then HeldEdge else LostEdge, l.watcher);
    if Named(r2.entries, l.name) == [] then r2 else BeginAcquire(r2, l.name, l.answer, l.scripts).0
  }

  function LoseAll(r: Registry, losses: seq<Loss>): Registry
    decreases |losses|
  {
    if losses == [] then r else LoseAll(Lose(r, losses[0]), losses[1..])
  }

  function CheckLiveness(r: Registry, losses: seq<Loss>): Registry {
    if r.armed == [] || Dead(r) == {} then r else EnsureTimer(LoseAll(r, losses))
  }

  // The objects a tick asks the transport for.
  function Wanted(r: Registry): set<Name> {
    Names(r.entries) - r.acquiring
  }

  // `age` is how long, in ms, each entry has been waiting.
  function Warned(s: seq<Entry>, age: map<Id, nat>): seq<Entry> {
    if s == [] then []
    else
      var e := s[0];
      var ms := if e.id in age then age[e.id] else 0;
      [if e.warn == 0 && ms >= 3000 then e.(warn := 1)
       else if e.warn == 1 && ms >= 60000 then e.(warn := 2) else e] + Warned(s[1..], age)
  }

  function Tick(r: Registry, losses: seq<Loss>, hunts: seq<Hunt>, age: map<Id, nat>): Registry {
    var r1 := HuntAll(CheckLiveness(r, losses), hunts);
    RescheduleOrStop(r1.(entries := Warned(r1.entries, age)))
  }
}
