/** Authorization: a scan over every token this module issued, with no branch on a secret,
    and the caller's name recovered from it without one. */
module TokenScan {
  import opened TokenStore
  import opened Wrappers

  const KEY_MAX := 64

  // ------------------------------------------------------------------ what it computes

  datatype Caller = Unknown | HostAnchor | Module(name: Name)

  function Matches(issued: map<Name, Token>, token: Token): set<Name> {
    set k | k in issued && issued[k] == token
  }

  predicate Nameable(k: Name) {
    !Bootstrap(k) && 1 <= |k| <= KEY_MAX
  }

  predicate Issued(token: Token, proxy: map<Name, Token>, inbound: map<Name, Token>, credential: Token) {
    token != [] && (token == credential || Matches(proxy, token) != {} || Matches(inbound, token) != {})
  }

  // Who a token belongs to: the host if it is the credential, else the one module it was
  // issued to, if there is just one and it may be named.
  ghost predicate IsCaller(c: Caller, token: Token, proxy: map<Name, Token>, credential: Token) {
    match c
    case HostAnchor => token == credential
    case Module(k) => token != credential && Matches(proxy, token) == {k} && Nameable(k)
    case Unknown => token != credential && forall k :: Matches(proxy, token) == {k} ==> !Nameable(k)
  }

  lemma CallerIsUnique(c: Caller, d: Caller, token: Token, proxy: map<Name, Token>, credential: Token)
    requires IsCaller(c, token, proxy, credential) && IsCaller(d, token, proxy, credential)
    ensures c == d
  {
    if c.Module? && d.Module? { assert c.name in {d.name}; }
  }

  // --------------------------------------------------------------------- the comparison

  class Comparisons {
    var count: nat

    constructor ()
      ensures count == 0
    {
      count := 0;
    }

    // Reads the longer of the two to the end, whatever it finds.
    method ConstantTimeEquals(a: Token, b: Token) returns (equal: bool)
      modifies this
      ensures equal <==> a == b
      ensures count == old(count) + 1
    {
      count := count + 1;
      var n := if |a| > |b| then |a| else |b|;
      // Different lengths start it off non-zero, which is all their exclusive or is for.
      var diff: bv8 := if |a| == |b| then 0 else 1;
      for i := 0 to n
        invariant diff == 0 <==> |a| == |b| && a[..i] == b[..i]
        invariant |a| == |b| ==> i <= |a|
        invariant count == old(count) + 1
      {
        var ca := if i < |a| then a[i] else 0;
        var cb := if i < |b| then b[i] else 0;
        FoldBits(diff, ca, cb);
        diff := diff | (ca ^ cb);
        if |a| == |b| {
          assert a[..i + 1] == a[..i] + [a[i]] && b[..i + 1] == b[..i] + [b[i]];
        }
      }
      equal := diff == 0;
      if |a| == |b| {
        assert a[..n] == a && b[..n] == b;
      }
    }
  }

  lemma FoldBits(diff: bv8, ca: bv8, cb: bv8)
    ensures diff | (ca ^ cb) == 0 <==> diff == 0 && ca == cb
  {
  }

  // --------------------------------------------------------------------------- the fold

  function Selected(m: bv8, old_: bv8, new_: bv8): bv8 {
    (old_ & !m) | (new_ & m)
  }

  lemma MaskSelects(old_: bv8, new_: bv8)
    ensures Selected(0x00, old_, new_) == old_ && Selected(0xFF, old_, new_) == new_
  {
  }

  lemma SmallRoundTrip(n: nat)
    requires n <= KEY_MAX
    ensures (n as bv8) as int == n
  {
  }

  class CallerFold {
    const key: array<bv8>
    var keyLen: bv8

    constructor ()
      ensures fresh(key) && Valid() && Name() == []
    {
      key := new bv8[KEY_MAX](_ => 0);
      keyLen := 0;
    }

    ghost predicate Valid()
      reads this, key
    {
      key.Length == KEY_MAX && keyLen as int <= KEY_MAX
    }

    function Name(): seq<bv8>
      requires Valid()
      reads this, key
    {
      key[..keyLen as int]
    }

    // The mask selects; the work is the same either way.
    method Offer(matched: bool, candidate: seq<bv8>)
      requires Valid()
      modifies this, key
      ensures Valid()
      ensures Name() == if matched then (if |candidate| <= 64 then candidate else []) else old(Name())
    {
      var m: bv8 := if matched then 0xFF else 0x00;
      var n := if |candidate| <= KEY_MAX then |candidate| else 0;
      ghost var before := key[..];
      var i := 0;
      while i < KEY_MAX
        invariant 0 <= i <= KEY_MAX
        invariant forall j :: 0 <= j < i ==> key[j] == if matched then (if j < n then candidate[j] else 0) else before[j]
        invariant forall j :: i <= j < KEY_MAX ==> key[j] == before[j]
        invariant keyLen == old(keyLen)
      {
        var c := if i < n then candidate[i] else 0;
        MaskSelects(key[i], c);
        key[i] := Selected(m, key[i], c);
        i := i + 1;
      }
      MaskSelects(keyLen, n as bv8);
      keyLen := Selected(m, keyLen, n as bv8);
      SmallRoundTrip(n);
      if matched {
        assert key[..n] == candidate[..n];
      } else {
        assert key[..] == before;
      }
    }
  }

  // --------------------------------------------------------------------------- the scan

  // What one key leaves in the fold.
  function NameAfter(name: Name, k: Name, matched: bool): Name {
    if matched && !Bootstrap(k) then (if |k| <= KEY_MAX then k else []) else name
  }

  // The name the fold holds, given which of the proxy's keys matched so far.
  ghost predicate SoleName(name: Name, hits: set<Name>) {
    && (|hits| == 1 ==> forall k :: k in hits ==> name == if Bootstrap(k) || |k| > KEY_MAX then [] else k)
    && (|hits| == 0 ==> name == [])
  }

  class ScanOutcome {
    var authorized: bool
    var moduleHits: nat
    var anchorHits: nat
    const fold: CallerFold

    constructor ()
      ensures fresh(fold) && fresh(fold.key) && fold.Valid() && fold.Name() == []
      ensures !authorized && moduleHits == 0 && anchorHits == 0
    {
      authorized, moduleHits, anchorHits := false, 0, 0;
      fold := new CallerFold();
    }


    // One comparison, and the key's name folded in if it may be.
    method ScanOne(token: Token, k: Name, issued: Token, counter: Comparisons)
      requires fold.Valid()
      modifies this`authorized, this`moduleHits, fold, fold.key, counter
      ensures authorized <==> old(authorized) || issued == token
      ensures moduleHits == old(moduleHits) + if issued == token then 1 else 0
      ensures fold.Valid() && fold.Name() == NameAfter(old(fold.Name()), k, issued == token)
      ensures counter.count == old(counter.count) + 1
    {
      var isAnchor := Bootstrap(k);
      var matched := counter.ConstantTimeEquals(token, issued);
      authorized := authorized || matched;
      fold.Offer(matched && !isAnchor, k);
      moduleHits := moduleHits + if matched then 1 else 0;
    }

    // First the proxy's own record, in any order.
    method ScanProxy(token: Token, proxy: map<Name, Token>, counter: Comparisons)
      requires fold.Valid() && fold.Name() == [] && moduleHits == 0 && !authorized
      modifies this, fold, fold.key, counter
      ensures authorized <==> Matches(proxy, token) != {}
      ensures moduleHits == |Matches(proxy, token)| && anchorHits == old(anchorHits)
      ensures fold.Valid() && SoleName(fold.Name(), Matches(proxy, token))
      ensures counter.count == old(counter.count) + |proxy|
    {
      var todo := proxy.Keys;
      ghost var hits: set<Name> := {};
      assert |proxy| == |proxy.Keys|;
      assert SoleName([], {}) && Seen({}, proxy, todo, token);
      hide SoleName, Matches, Seen, NameAfter, CallerFold.Valid, CallerFold.Name;
      while todo != {}
        invariant todo <= proxy.Keys
        invariant Seen(hits, proxy, todo, token)
        invariant authorized <==> hits != {}
        invariant moduleHits == |hits| && anchorHits == old(anchorHits)
        invariant fold.Valid() && SoleName(fold.Name(), hits)
        invariant counter.count + |todo| == old(counter.count) + |proxy|
        decreases |todo|
      {
        ghost var unread := todo;
        var k :| k in todo;
        todo := todo - {k};
        OneMore(fold.Name(), hits, proxy, unread, k, token);
        ScanOne(token, k, proxy[k], counter);
        if proxy[k] == token { hits := hits + {k}; }
      }
      AllSeen(hits, proxy, token);
    }

    // Then the store's inbound record, which authorizes but names nobody.
    method ScanInbound(token: Token, inbound: map<Name, Token>, counter: Comparisons)
      modifies this`authorized, counter
      ensures authorized <==> old(authorized) || Matches(inbound, token) != {}
      ensures counter.count == old(counter.count) + |inbound|
    {
      var todo := inbound.Keys;
      ghost var hits: set<Name> := {};
      assert |inbound| == |inbound.Keys|;
      while todo != {}
        invariant todo <= inbound.Keys
        invariant forall k :: k in hits <==> k in inbound && k !in todo && inbound[k] == token
        invariant authorized <==> old(authorized) || hits != {}
        invariant counter.count + |todo| == old(counter.count) + |inbound|
        decreases |todo|
      {
        var k :| k in todo;
        todo := todo - {k};
        var matched := counter.ConstantTimeEquals(token, inbound[k]);
        authorized := authorized || matched;
        if matched { hits := hits + {k}; }
      }
      assert hits == Matches(inbound, token);
    }

    // Last the credential: compared always, counted only if there is one.
    method ScanCredential(token: Token, credential: Token, counter: Comparisons)
      modifies this`authorized, this`anchorHits, counter
      ensures authorized <==> old(authorized) || (credential != [] && token == credential)
      ensures anchorHits == old(anchorHits) + if credential != [] && token == credential then 1 else 0
      ensures counter.count == old(counter.count) + 1
    {
      var present := credential != [];
      var matched := counter.ConstantTimeEquals(token, credential);
      authorized := authorized || (matched && present);
      anchorHits := anchorHits + if matched && present then 1 else 0;
    }
  }

  // What matched among the keys already read.
  ghost predicate Seen(hits: set<Name>, issued: map<Name, Token>, todo: set<Name>, token: Token) {
    forall k :: k in hits <==> k in issued && k !in todo && issued[k] == token
  }

  lemma AllSeen(hits: set<Name>, issued: map<Name, Token>, token: Token)
    requires Seen(hits, issued, {}, token)
    ensures hits == Matches(issued, token)
  {
  }

  // A hit that offered no name leaves the fold as it was only if it is not the sole one.
  lemma OneMore(name: Name, hits: set<Name>, issued: map<Name, Token>, todo: set<Name>, k: Name, token: Token)
    requires Seen(hits, issued, todo, token) && SoleName(name, hits) && k in issued && k in todo
    ensures var hits' := if issued[k] == token then hits + {k} else hits;
            && Seen(hits', issued, todo - {k}, token) && SoleName(NameAfter(name, k, issued[k] == token), hits')
            && |hits'| == |hits| + (if issued[k] == token then 1 else 0)
  {
    if |hits + {k}| == 1 { assert k !in hits && hits == {} && hits + {k} == {k}; }
  }

  class ModuleProxy {
    var tokens: map<Name, Token>
    const store: TokenManager
    const counter: Comparisons

    constructor (store: TokenManager)
      ensures tokens == map[] && this.store == store && fresh(counter)
    {
      tokens := map[];
      this.store := store;
      counter := new Comparisons();
    }

    // The store's inbound record, as its view presents it.
    ghost function Inbound(): map<Name, Token>
      reads store
    {
      InboundHalf(store.tokens)
    }

    method SaveToken(fromModule: Name, token: Token) returns (ok: bool)
      modifies this`tokens
      ensures ok <==> fromModule != [] && token != []
      ensures tokens == if ok then old(tokens)[fromModule := token] else old(tokens)
    {
      if fromModule == [] || token == [] { return false; }
      tokens := tokens[fromModule := token];
      return true;
    }

    /** Only who presents the credential can have a token recorded, and only if the
        provider takes it too. */
    method InformModuleToken(authToken: Token, moduleName: Name, token: Token, provider: bool, accepts: bool) returns (ok: bool)
      modifies this`tokens, counter
      ensures ok <==> provider && authToken != [] && authToken == Credential(store.tokens)
                      && moduleName != [] && token != [] && accepts
      ensures tokens == if ok then old(tokens)[moduleName := token] else old(tokens)
    {
      if !provider { return false; }
      var credential := Credential(store.tokens);
      var trusted := false;
      if credential != [] { trusted := counter.ConstantTimeEquals(authToken, credential); }
      if authToken == [] || !trusted { return false; }
      if moduleName == [] || token == [] { return false; }
      if !accepts { return false; }
      var saved := SaveToken(moduleName, token);
      return true;
    }

    // Every token there is, whatever the first ones said.
    method ScanAll(authToken: Token) returns (scan: ScanOutcome)
      modifies counter
      ensures fresh(scan) && scan.fold.Valid() && SoleName(scan.fold.Name(), Matches(tokens, authToken))
      ensures var hit := Credential(store.tokens) != [] && authToken == Credential(store.tokens);
              && (scan.authorized <==> Matches(tokens, authToken) != {} || Matches(Inbound(), authToken) != {} || hit)
              && scan.moduleHits == |Matches(tokens, authToken)| && scan.anchorHits == if hit then 1 else 0
      ensures counter.count == old(counter.count) + |tokens| + |Inbound()| + 1
    {
      hide Matches, Credential, InboundHalf, SoleName;
      scan := new ScanOutcome();
      scan.ScanProxy(authToken, tokens, counter);
      scan.ScanInbound(authToken, InboundHalf(store.tokens), counter);
      scan.ScanCredential(authToken, Credential(store.tokens), counter);
    }

    /** The verdict and the caller, for any order of the maps, and the comparisons made for
        it, which depend on how many tokens there are and on nothing else. */
    method Authorize(authToken: Token, validator: Option<bool>) returns (ok: bool, caller: Caller)
      modifies counter
      ensures ok <==> authToken != [] && (authToken == Credential(store.tokens) || authToken in tokens.Values ||
                                          authToken in Inbound().Values || validator == Some(true))
      ensures ok ==> IsCaller(caller, authToken, tokens, Credential(store.tokens))
      ensures !ok ==> caller == Unknown
      ensures counter.count == old(counter.count) + if authToken == [] then 0 else |tokens| + |Inbound()| + 1
    {
      if authToken == [] { return false, Unknown; }
      MatchesIffIssued(tokens, authToken);
      MatchesIffIssued(InboundHalf(store.tokens), authToken);
      hide Matches, IsCaller, Credential, InboundHalf, SoleName;
      var credential := Credential(store.tokens);
      var scan := ScanAll(authToken);
      var authorized := scan.authorized;
      if !authorized && validator.Some? { authorized := validator.value; }
      if !authorized { return false, Unknown; }
      if scan.anchorHits > 0 { return true, HostAnchor; }
      ok := true;
      caller := if scan.moduleHits == 1 && scan.fold.keyLen > 0 then Module(scan.fold.Name()) else Unknown;
      NamedBySole(caller, scan.fold.Name(), authToken, tokens, credential);
    }
  }

  lemma MatchesIffIssued(issued: map<Name, Token>, token: Token)
    ensures Matches(issued, token) != {} <==> token in issued.Values
  {
    if k :| k in Matches(issued, token) { assert issued[k] in issued.Values; }
    if token in issued.Values {
      var k :| k in issued && issued[k] == token;
      assert k in Matches(issued, token);
    }
  }

  // One hit with a name left in the fold is the one module the token was issued to.
  lemma NamedBySole(c: Caller, name: Name, token: Token, proxy: map<Name, Token>, credential: Token)
    requires token != credential
    requires SoleName(name, Matches(proxy, token))
    requires c == if |Matches(proxy, token)| == 1 && name != [] then Module(name) else Unknown
    ensures IsCaller(c, token, proxy, credential)
  {
    var hits := Matches(proxy, token);
    if |hits| == 1 {
      var k :| k in hits;
      assert hits - {k} == {};
      assert hits == {k};
    }
  }

  // ------------------------------------------------------------------ the two directions

  // The inbound half of a store, as the scan is shown it.
  function InboundHalf(m: map<Name, Token>): map<Name, Token> {
    map c | c in InboundNames(m) :: InboundValue(m, c)
  }

  /** What a module caches in order to call others never lets anyone call it: no outbound
      save or removal, but for the two names a credential is kept under, changes any
      verdict or any caller. */
  lemma OutboundChangesNoVerdict(m: map<Name, Token>, op: Op, token: Token, proxy: map<Name, Token>, c: Caller)
    requires (op.Save? || op.Remove?) && !Bootstrap(op.key)
    ensures var m' := PerformOne(m, op).0;
            && (Issued(token, proxy, InboundHalf(m'), Credential(m')) <==> Issued(token, proxy, InboundHalf(m), Credential(m)))
            && (IsCaller(c, token, proxy, Credential(m')) <==> IsCaller(c, token, proxy, Credential(m)))
  {
    hide PerformOne, InboundValue, InboundNames, Credential, Matches, IsCaller;
    var m' := PerformOne(m, op).0;
    forall n { DirectionsDoNotInterfere(m, op, n); }
    DirectionsDoNotInterfere(m, op, []);
    assert InboundHalf(m') == InboundHalf(m);
  }

  /** Recording what was issued to a caller authorizes exactly that token more. */
  lemma InboundSaveAuthorizesThatToken(m: map<Name, Token>, caller: Name, issued: Token, token: Token,
                                       proxy: map<Name, Token>, credential: Token)
    requires caller != [] && issued != [] && !Reserved(caller) && caller !in InboundNames(m)
    ensures var m' := PerformOne(m, SaveInbound(caller, issued)).0;
            Issued(token, proxy, InboundHalf(m'), credential) <==>
              token == issued || Issued(token, proxy, InboundHalf(m), credential)
  {
    var m' := PerformOne(m, SaveInbound(caller, issued)).0;
    var key := InboundKey(caller);
    var a, b := InboundHalf(m), InboundHalf(m');
    forall c | c in InboundNames(m) ensures c in b && b[c] == a[c] {
      var k :| k in m && Reserved(k) && |k| >= 4 && k[4..] == c;
      assert k in m';
      KeysAreDistinct(c, caller);
    }
    assert key in m' && key[4..] == caller;
    forall c | c in InboundNames(m') && c != caller ensures c in InboundNames(m) {
      var k :| k in m' && Reserved(k) && |k| >= 4 && k[4..] == c;
      assert k != key && k in m;
    }
    if token != [] {
      if c :| c in Matches(a, token) { assert c in Matches(b, token); }
      if c :| c in Matches(b, token) { assert c == caller || c in Matches(a, token); }
      assert token == issued ==> caller in Matches(b, token);
    }
  }
}
