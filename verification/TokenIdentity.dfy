/** The process-wide registry of per-identity stores.  A name is served the ambient store
    until a host isolates it, and then a private one; it must never be served both. */
module TokenIdentity {
  import opened TokenStore

  type StoreId = nat

  // The store every unisolated name is served.
  const AMBIENT: StoreId := 0

  /** `contents` is every store there is; `served` records, for each name ever asked for,
      the store it was given. */
  datatype Registry = Registry(isolated: set<Name>, vendedShared: set<Name>, stores: map<Name, StoreId>,
                               contents: map<StoreId, map<Name, Token>>, next: StoreId, served: map<Name, StoreId>)

  const FRESH := Registry({}, {}, map[], map[AMBIENT := map[]], 1, map[])

  function ForIdentity(r: Registry, n: Name): (Registry, StoreId) {
    if n == [] || n !in r.isolated then
      (r.(vendedShared := r.vendedShared + {n}, served := r.served[n := AMBIENT]), AMBIENT)
    else if n in r.stores then (r.(served := r.served[n := r.stores[n]]), r.stores[n])
    else
      (r.(stores := r.stores[n := r.next], contents := r.contents[r.next := map[]], next := r.next + 1,
          served := r.served[n := r.next]), r.next)
  }

  function Isolate(r: Registry, n: Name): (Registry, bool) {
    if n == [] then (r, false)
    else if n in r.isolated then (r, true)
    else if n in r.vendedShared then (r, false)
    else (r.(isolated := r.isolated + {n}), true)
  }

  // Every key the map does not hold reads as an empty store.
  function Content(r: Registry, k: StoreId): map<Name, Token> {
    if k in r.contents then r.contents[k] else map[]
  }

  function Adopted(m: map<Name, Token>, credential: Token): map<Name, Token> {
    m[CORE := credential][CAPABILITY := credential]
  }

  // An isolated identity takes its own credential; the host's anchor is refused.
  function Adopt(r: Registry, n: Name, credential: Token): (Registry, bool) {
    if n == [] || credential == [] || n !in r.isolated || Credential(Content(r, AMBIENT)) == credential then (r, false)
    else
      var (r1, k) := ForIdentity(r, n);
      (r1.(contents := r1.contents[k := Adopted(Content(r1, k), credential)]), true)
  }

  function Reset(r: Registry, n: Name): (Registry, bool) {
    if n !in r.isolated then (r, false)
    else
      var (r1, k) := ForIdentity(r, n);
      (r1.(contents := r1.contents[k := map[]]), true)
  }

  // A write through the store a name was served.
  function Write(r: Registry, n: Name, op: Op): Registry {
    if n in r.served then
      var k := r.served[n];
      r.(contents := r.contents[k := PerformOne(Content(r, k), op).0])
    else r
  }

  datatype Step = Ask(n: Name) | IsolateStep(n: Name) | AdoptStep(n: Name, credential: Token) | ResetStep(n: Name) | WriteStep(n: Name, op: Op)

  function Apply(r: Registry, st: Step): Registry {
    match st
    case Ask(n) => ForIdentity(r, n).0
    case IsolateStep(n) => Isolate(r, n).0
    case AdoptStep(n, credential) => Adopt(r, n, credential).0
    case ResetStep(n) => Reset(r, n).0
    case WriteStep(n, op) => Write(r, n, op)
  }

  function End(r: Registry, steps: seq<Step>): Registry
    decreases |steps|
  {
    if steps == [] then r else End(Apply(r, steps[0]), steps[1..])
  }

  ghost predicate Inv(r: Registry) {
    && r.isolated !! r.vendedShared && [] !in r.isolated
    && r.stores.Keys <= r.isolated
    && AMBIENT in r.contents && r.next > AMBIENT
    && (forall k :: k in r.contents ==> k < r.next)
    && (forall n :: n in r.stores ==> AMBIENT < r.stores[n] < r.next && r.stores[n] in r.contents)
    && (forall m, n :: m in r.stores && n in r.stores && r.stores[m] == r.stores[n] ==> m == n)
    && (forall n :: n in r.served ==> if n in r.isolated then n in r.stores && r.served[n] == r.stores[n]
                                      else n in r.vendedShared && r.served[n] == AMBIENT)
  }

  // What no step undoes: a name once served keeps its store, and its isolation.
  ghost predicate Steady(r: Registry, r': Registry) {
    && (forall n :: n in r.served ==> n in r'.served && r'.served[n] == r.served[n])
    && (forall n :: n in r.stores ==> n in r'.stores && r'.stores[n] == r.stores[n])
    && r.isolated <= r'.isolated && r.vendedShared <= r'.vendedShared
  }

  lemma SharedKeeps(r: Registry, n: Name)
    requires Inv(r) && n !in r.isolated
    ensures Inv(ForIdentity(r, n).0) && Steady(r, ForIdentity(r, n).0)
  {
  }

  lemma BornKeeps(r: Registry, n: Name)
    requires Inv(r) && n in r.isolated && n !in r.stores
    ensures Inv(ForIdentity(r, n).0) && Steady(r, ForIdentity(r, n).0)
  {
    var r' := ForIdentity(r, n).0;
    forall m | m in r'.stores ensures AMBIENT < r'.stores[m] < r'.next && r'.stores[m] in r'.contents {}
    forall a, b | a in r'.stores && b in r'.stores && r'.stores[a] == r'.stores[b] ensures a == b {
      assert r.next !in r.contents;
    }
  }

  lemma StoredKeeps(r: Registry, n: Name)
    requires Inv(r) && n in r.isolated && n in r.stores
    ensures Inv(ForIdentity(r, n).0) && Steady(r, ForIdentity(r, n).0)
  {
  }

  lemma ForIdentityKeeps(r: Registry, n: Name)
    requires Inv(r)
    ensures Inv(ForIdentity(r, n).0) && Steady(r, ForIdentity(r, n).0)
    ensures var (r', k) := ForIdentity(r, n); k in r'.contents && n in r'.served && r'.served[n] == k && (n in r.isolated ==> k != AMBIENT)
    ensures forall k :: k in r.contents ==> k in ForIdentity(r, n).0.contents && ForIdentity(r, n).0.contents[k] == r.contents[k]
  {
    if n !in r.isolated {
      SharedKeeps(r, n);
    } else if n !in r.stores {
      BornKeeps(r, n);
    } else {
      StoredKeeps(r, n);
    }
    hide Steady;
  }

  lemma ContentKeeps(r: Registry, k: StoreId, m: map<Name, Token>)
    requires Inv(r) && k in r.contents
    ensures Inv(r.(contents := r.contents[k := m])) && Steady(r, r.(contents := r.contents[k := m]))
  {
  }

  lemma SteadyTwice(a: Registry, b: Registry, c: Registry)
    requires Steady(a, b) && Steady(b, c)
    ensures Steady(a, c)
  {
  }

  lemma StepKeeps(r: Registry, st: Step)
    requires Inv(r)
    ensures Inv(Apply(r, st)) && Steady(r, Apply(r, st))
  {
    hide Inv, Steady, ForIdentity, Isolate, Credential, Adopted;
    match st
    case Ask(n) => ForIdentityKeeps(r, n);
    case IsolateStep(n) => IsolateKeeps(r, n);
    case AdoptStep(n, credential) => RewriteKeeps(r, n, Adopted(Content(ForIdentity(r, n).0, ForIdentity(r, n).1), credential));
    case ResetStep(n) => RewriteKeeps(r, n, map[]);
    case WriteStep(n, op) =>
      StillSame(r);
      if n in r.served { ServedHasStore(r, n); ContentKeeps(r, r.served[n], PerformOne(Content(r, r.served[n]), op).0); }
  }

  lemma IsolateKeeps(r: Registry, n: Name)
    requires Inv(r)
    ensures Inv(Isolate(r, n).0) && Steady(r, Isolate(r, n).0)
  {
    if Isolate(r, n).0 != r { NewlyIsolated(r, n); } else { StillSame(r); }
  }

  lemma NewlyIsolated(r: Registry, n: Name)
    requires Inv(r) && n != [] && n !in r.isolated && n !in r.vendedShared
    ensures Inv(r.(isolated := r.isolated + {n})) && Steady(r, r.(isolated := r.isolated + {n}))
  {
    assert n !in r.served;
  }

  lemma ServedHasStore(r: Registry, n: Name)
    requires Inv(r) && n in r.served
    ensures r.served[n] in r.contents
  {
  }

  // Serving a name its store and then rewriting that store.
  lemma RewriteKeeps(r: Registry, n: Name, m: map<Name, Token>)
    requires Inv(r)
    ensures var (r1, k) := ForIdentity(r, n); var r2 := r1.(contents := r1.contents[k := m]); Inv(r2) && Steady(r, r2)
    ensures Steady(r, r)
  {
    hide Inv, Steady, ForIdentity;
    ForIdentityKeeps(r, n);
    var (r1, k) := ForIdentity(r, n);
    ContentKeeps(r1, k, m);
    StillSame(r);
    SteadyTwice(r, r1, r1.(contents := r1.contents[k := m]));
  }

  lemma StillSame(r: Registry)
    ensures Steady(r, r)
  {
  }

  lemma {:induction false} RunKeeps(r: Registry, steps: seq<Step>)
    requires Inv(r)
    ensures Inv(End(r, steps)) && Steady(r, End(r, steps))
    decreases |steps|
  {
    if steps != [] {
      hide Inv, Apply, Steady;
      StepKeeps(r, steps[0]);
      RunKeeps(Apply(r, steps[0]), steps[1..]);
      SteadyTwice(r, Apply(r, steps[0]), End(r, steps));
    } else {
      StillSame(r);
    }
  }

  /** Over every run, no name is both served the ambient store and isolated, two isolated
      names never share a store, and none of theirs is the ambient one. */
  lemma NeverSplitNeverShared(steps: seq<Step>, m: Name, n: Name)
    ensures var r := End(FRESH, steps);
            && !(n in r.isolated && n in r.vendedShared)
            && (m in r.served && n in r.served && m in r.isolated && m != n ==> r.served[m] != r.served[n])
  {
    RunKeeps(FRESH, steps);
  }

  /** A name once served is served the same store for ever. */
  lemma ServedForGood(before: seq<Step>, after: seq<Step>, n: Name)
    requires n in End(FRESH, before).served
    ensures var r := End(End(FRESH, before), after);
            n in r.served && ForIdentity(r, n).1 == r.served[n] == End(FRESH, before).served[n]
  {
    RunKeeps(FRESH, before);
    RunKeeps(End(FRESH, before), after);
  }

  predicate Through(st: Step, n: Name) {
    (st.AdoptStep? || st.ResetStep? || st.WriteStep?) && st.n == n
  }

  /** What is written, adopted or reset through one isolated identity leaves every other
      store, the ambient one included, exactly as it was. */
  lemma IsolatedWritesStayHome(steps: seq<Step>, st: Step, n: Name, k: StoreId)
    requires Through(st, n) && n in End(FRESH, steps).isolated && k in End(FRESH, steps).contents
    ensures var r := End(FRESH, steps); !(n in r.stores && r.stores[n] == k) ==> Content(Apply(r, st), k) == Content(r, k)
  {
    RunKeeps(FRESH, steps);
    var r := End(FRESH, steps);
    ForIdentityKeeps(r, n);
  }

  /** Adoption never hands an identity the host's own anchor. */
  lemma AdoptionIsNotElevation(steps: seq<Step>, n: Name, credential: Token)
    requires Adopt(End(FRESH, steps), n, credential).1
    ensures var r := End(FRESH, steps); var r' := Adopt(r, n, credential).0;
            && n in r'.served && Credential(Content(r', r'.served[n])) == credential
            && Get(Content(r', r'.served[n]), CORE) == Get(Content(r', r'.served[n]), CAPABILITY) == credential
            && Credential(Content(r', AMBIENT)) == Credential(Content(r, AMBIENT)) != credential
  {
    var r := End(FRESH, steps);
    RunKeeps(FRESH, steps);
    ForIdentityKeeps(r, n);
    AdoptedHas(Content(ForIdentity(r, n).0, ForIdentity(r, n).1), credential);
    hide Credential, Get, Adopted, ForIdentity;
  }

  lemma AdoptedHas(m: map<Name, Token>, credential: Token)
    requires credential != []
    ensures var m' := Adopted(m, credential); Credential(m') == Get(m', CORE) == Get(m', CAPABILITY) == credential
  {
    NotReservedRoles();
  }

  // ------------------------------------------------------------------------- the class

  class StoreRegistry {
    var isolated: set<Name>
    var vendedShared: set<Name>
    var stores: map<Name, TokenManager>
    const ambient: TokenManager

    constructor ()
      ensures Valid() && isolated == {} && vendedShared == {} && stores == map[] && fresh(ambient) && ambient.tokens == map[]
    {
      isolated, vendedShared, stores := {}, {}, map[];
      ambient := new TokenManager();
    }

    ghost predicate Valid()
      reads this
    {
      && isolated !! vendedShared && [] !in isolated && stores.Keys <= isolated
      && ambient !in stores.Values
      && forall m, n :: m in stores && n in stores && stores[m] == stores[n] ==> m == n
    }

    method ForIdentity(n: Name) returns (store: TokenManager)
      requires Valid()
      modifies this
      ensures Valid() && isolated == old(isolated)
      ensures n !in isolated ==> store == ambient && vendedShared == old(vendedShared) + {n} && stores == old(stores)
      ensures n in isolated ==> n in stores && store == stores[n] && vendedShared == old(vendedShared)
      ensures n in old(stores) ==> stores == old(stores)
      ensures n in isolated && n !in old(stores) ==> fresh(store) && store.tokens == map[] && stores == old(stores)[n := store]
    {
      if n == [] || n !in isolated {
        vendedShared := vendedShared + {n};
        return ambient;
      }
      if n !in stores {
        var born := new TokenManager();
        assert forall m :: m in stores ==> stores[m] in stores.Values;
        stores := stores[n := born];
      }
      return stores[n];
    }

    method IsolateIdentity(n: Name) returns (ok: bool)
      requires Valid()
      modifies this`isolated
      ensures Valid()
      ensures ok <==> n != [] && (n in old(isolated) || n !in vendedShared)
      ensures isolated == if ok then old(isolated) + {n} else old(isolated)
    {
      if n == [] { return false; }
      if n in isolated { return true; }
      if n in vendedShared { return false; }
      isolated := isolated + {n};
      return true;
    }

    method AdoptCredentialFor(n: Name, credential: Token) returns (ok: bool)
      requires Valid()
      modifies this`stores, stores.Values
      ensures Valid()
      ensures ok <==> n != [] && credential != [] && n in isolated && Credential(old(ambient.tokens)) != credential
      ensures ambient.tokens == old(ambient.tokens)
      ensures ok ==> n in stores && Credential(stores[n].tokens) == credential
      ensures ok ==> stores[n].tokens == (if n in old(stores) then old(stores[n].tokens) else map[])[CORE := credential][CAPABILITY := credential]
      ensures !ok ==> stores == old(stores) && (n in stores ==> stores[n].tokens == old(stores[n].tokens))
      ensures forall m :: m in old(stores) && m != n ==> m in stores && stores[m] == old(stores[m]) && stores[m].tokens == old(stores[m].tokens)
    {
      if n == [] || credential == [] { return false; }
      if n !in isolated { return false; }
      if Credential(ambient.tokens) == credential { return false; }
      assert forall m :: m in stores ==> stores[m] in stores.Values;
      if n !in stores {
        var born := new TokenManager();
        stores := stores[n := born];
      }
      stores[n].AdoptCredential(credential);
      return true;
    }

    method ResetIdentity(n: Name) returns (ok: bool)
      requires Valid()
      modifies this`stores, stores.Values
      ensures Valid()
      ensures ok <==> n in isolated
      ensures ambient.tokens == old(ambient.tokens)
      ensures ok ==> n in stores && stores[n].tokens == map[]
      ensures forall m :: m in old(stores) && m != n ==> m in stores && stores[m] == old(stores[m]) && stores[m].tokens == old(stores[m].tokens)
    {
      if n !in isolated { return false; }
      assert forall m :: m in stores ==> stores[m] in stores.Values;
      if n !in stores {
        var born := new TokenManager();
        stores := stores[n := born];
      }
      stores[n].ClearAllTokens();
      return true;
    }
  }
}
