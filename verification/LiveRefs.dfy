/** The live-reference count of a consumer handle: one for its owner, one per caller
    inside a public entry point, and whoever drops the last one destroys the object. */
module LiveRefs {

  // Each atomic operation on the counters, and each access a caller makes in between,
  // is one step; threads interleave freely.

  type Guard = nat   // one activation of an entry point, on some thread

  datatype Place = Referenced | Inside | Uncounted | Left
  datatype Owner = Holding | Releasing | Dropped

  /** `destroyed` counts runs of the destructor; `deadTouch` records any access made to
      the object's members after one. */
  datatype Handle = Handle(liveRefs: int, callsInFlight: int, released: bool, owner: Owner,
                           guards: map<Guard, Place>, destroyed: nat, deadTouch: bool)

  const INITIAL := Handle(1, 0, false, Holding, map[], 0, false)

  datatype Step =
    | Enter(g: Guard)                    // entered while the owner, or any other caller, holds the object
    | Count(g: Guard)
    | Access(g: Guard)                   // the body of the call
    | Uncount(g: Guard)
    | Leave(g: Guard)                    // the last statement of the guard's destructor
    | ReleaseStart                       // release() raises its flag ...
    | ReleaseTeardown                    // ... unsubscribes, cancels the calls ...
    | ReleaseDrop                        // ... and drops the owner's reference, last

  ghost predicate At(s: Handle, g: Guard, p: Place) {
    g in s.guards && s.guards[g] == p
  }

  ghost predicate Enabled(s: Handle, step: Step) {
    match step
    case Enter(g) => g !in s.guards && s.liveRefs > 0
    case Count(g) => At(s, g, Referenced)
    case Access(g) => At(s, g, Inside)
    case Uncount(g) => At(s, g, Inside)
    case Leave(g) => At(s, g, Uncounted)
    case ReleaseStart => s.owner.Holding?
    case ReleaseTeardown => s.owner.Releasing?
    case ReleaseDrop => s.owner.Releasing?
  }

  // Any access to a member of the object.
  function Touch(s: Handle): Handle {
    s.(deadTouch := s.deadTouch || s.destroyed > 0)
  }

  // fetch_sub, and the delete when it returned one.
  function DropRef(s: Handle): Handle {
    Touch(s).(liveRefs := s.liveRefs - 1, destroyed := s.destroyed + if s.liveRefs == 1 then 1 else 0)
  }

  function Apply(s: Handle, step: Step): Handle
    requires Enabled(s, step)
  {
    match step
    case Enter(g) => Touch(s).(liveRefs := s.liveRefs + 1, guards := s.guards[g := Referenced])
    case Count(g) => Touch(s).(callsInFlight := s.callsInFlight + 1, guards := s.guards[g := Inside])
    case Access(_) => Touch(s)
    case Uncount(g) => Touch(s).(callsInFlight := s.callsInFlight - 1, guards := s.guards[g := Uncounted])
    case Leave(g) => DropRef(s).(guards := s.guards[g := Left])
    case ReleaseStart => Touch(s).(released := true, owner := Releasing)
    case ReleaseTeardown => Touch(s)
    case ReleaseDrop => DropRef(s).(owner := Dropped)
  }

  function LiveIn(m: map<Guard, Place>): set<Guard> {
    set g | g in m && !m[g].Left?
  }

  function CountedIn(m: map<Guard, Place>): set<Guard> {
    set g | g in m && m[g].Inside?
  }

  function Live(s: Handle): set<Guard> {
    LiveIn(s.guards)
  }

  // How moving one guard changes the two head counts.
  lemma MoveGuard(m: map<Guard, Place>, g: Guard, p: Place)
    ensures |LiveIn(m[g := p])| == |LiveIn(m)| - (if g in m && !m[g].Left? then 1 else 0) + (if p.Left? then 0 else 1)
    ensures |CountedIn(m[g := p])| == |CountedIn(m)| - (if g in m && m[g].Inside? then 1 else 0) + (if p.Inside? then 1 else 0)
  {
    MoveLive(m, g, p);
    MoveCounted(m, g, p);
  }

  lemma MoveLive(m: map<Guard, Place>, g: Guard, p: Place)
    ensures |LiveIn(m[g := p])| == |LiveIn(m)| - (if g in m && !m[g].Left? then 1 else 0) + (if p.Left? then 0 else 1)
  {
    assert LiveIn(m[g := p]) == if p.Left? then LiveIn(m) - {g} else LiveIn(m) - {g} + {g};
  }

  lemma MoveCounted(m: map<Guard, Place>, g: Guard, p: Place)
    ensures |CountedIn(m[g := p])| == |CountedIn(m)| - (if g in m && m[g].Inside? then 1 else 0) + (if p.Inside? then 1 else 0)
  {
    assert CountedIn(m[g := p]) == if p.Inside? then CountedIn(m) - {g} + {g} else CountedIn(m) - {g};
  }

  lemma LiveGuardHoldsObject(s: Handle, g: Guard)
    requires Inv(s) && g in s.guards && !s.guards[g].Left?
    ensures s.liveRefs >= 1 + (if s.owner.Dropped? then 0 else 1) && s.destroyed == 0
  {
    assert g in Live(s);
    assert |Live(s)| == |Live(s) - {g}| + 1;
  }

  ghost predicate Inv(s: Handle) {
    && s.liveRefs == (if s.owner.Dropped? then 0 else 1) + |Live(s)|
    && s.callsInFlight == |CountedIn(s.guards)|
    && s.destroyed == (if s.liveRefs == 0 then 1 else 0)
    && !s.deadTouch
    && (s.released <==> !s.owner.Holding?)
  }

  lemma StepKeepsInv(s: Handle, step: Step)
    requires Inv(s) && Enabled(s, step)
    ensures Inv(Apply(s, step))
  {
    match step
    case Enter(g) => MoveGuard(s.guards, g, Referenced);
    case Count(g) => LiveGuardHoldsObject(s, g); MoveGuard(s.guards, g, Inside);
    case Access(g) => LiveGuardHoldsObject(s, g);
    case Uncount(g) => LiveGuardHoldsObject(s, g); MoveGuard(s.guards, g, Uncounted);
    case Leave(g) => LiveGuardHoldsObject(s, g); MoveGuard(s.guards, g, Left);
    case ReleaseStart =>
    case ReleaseTeardown =>
    case ReleaseDrop =>
  }

  ghost predicate IsRun(run: seq<Handle>) {
    && |run| > 0 && run[0] == INITIAL
    && forall i :: 0 <= i < |run| - 1 ==> Moves(run, i)
  }

  ghost predicate Moves(run: seq<Handle>, i: nat)
    requires i + 1 < |run|
  {
    exists step: Step :: Enabled(run[i], step) && run[i + 1] == Apply(run[i], step)
  }

  lemma {:induction false} RunKeepsInv(run: seq<Handle>, n: nat)
    requires IsRun(run) && n < |run|
    ensures Inv(run[n])
  {
    if n > 0 {
      RunKeepsInv(run, n - 1);
      assert Moves(run, n - 1);
      var step: Step :| Enabled(run[n - 1], step) && run[n] == Apply(run[n - 1], step);
      StepKeepsInv(run[n - 1], step);
    }
  }

  /** For any number of nested and concurrent calls, before release() or during it, each
      entered while somebody held the object: the count is the owner's reference plus the
      open guards, the object is destroyed at most once, exactly when both are gone, and
      nothing ever touches it afterwards. */
  lemma ReleaseIsSafe(run: seq<Handle>, n: nat)
    requires IsRun(run) && n < |run|
    ensures var s := run[n];
            && s.liveRefs == (if s.owner.Dropped? then 0 else 1) + |Live(s)|
            && !s.deadTouch
            && s.destroyed <= 1
            && (s.destroyed == 1 <==> s.owner.Dropped? && Live(s) == {})
  {
    RunKeepsInv(run, n);
  }

  /** What remains a caller error: an entry that does not meet the contract lands on
      live storage exactly while the owner or some other call still holds the object. */
  lemma LateEntryIsAliveIffHeld(run: seq<Handle>, n: nat)
    requires IsRun(run) && n < |run|
    ensures !Touch(run[n]).deadTouch <==> !run[n].owner.Dropped? || Live(run[n]) != {}
  {
    RunKeepsInv(run, n);
  }

  /** The counters as the object's members; `inside` is how many guards are open and
      `owned` whether the owner's reference is still there. */
  class Counters {
    var liveRefs: int
    var callsInFlight: int
    var released: bool
    ghost var inside: nat
    ghost var owned: bool

    ghost predicate Valid()
      reads this
    {
      liveRefs == inside + (if owned then 1 else 0) && callsInFlight == inside
    }

    constructor ()
      ensures Valid() && owned && inside == 0 && !released
    {
      liveRefs, callsInFlight, released, inside, owned := 1, 0, false, 0, true;
    }

    // EntryGuard's constructor takes the reference first.
    method Enter()
      requires Valid() && (owned || inside > 0)
      modifies this
      ensures Valid() && inside == old(inside) + 1 && owned == old(owned) && released == old(released)
    {
      liveRefs := liveRefs + 1;
      callsInFlight := callsInFlight + 1;
      inside := inside + 1;
    }

    /** EntryGuard's destructor drops it last, and deletes when it was the last one. */
    method Leave() returns (destroy: bool)
      requires Valid() && inside > 0
      modifies this
      ensures Valid() && inside == old(inside) - 1 && owned == old(owned) && released == old(released)
      ensures destroy <==> !owned && inside == 0
    {
      callsInFlight := callsInFlight - 1;
      inside := inside - 1;
      liveRefs := liveRefs - 1;
      destroy := liveRefs == 0;
    }

    /** release() destroys at once only when no call is inside. */
    method Release() returns (destroy: bool)
      requires Valid() && owned
      modifies this
      ensures Valid() && released && !owned && inside == old(inside)
      ensures destroy <==> inside == 0
    {
      released := true;
      owned := false;
      liveRefs := liveRefs - 1;
      destroy := liveRefs == 0;
    }
  }
}
