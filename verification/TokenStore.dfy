/** One identity's token store: a single map holding two directions in disjoint key
    namespaces, and the two independent maps it must be indistinguishable from.  Names and
    tokens are UTF-8 byte strings. */
module TokenStore {

  type Name = seq<bv8>
  type Token = seq<bv8>

  const SOH: bv8 := 0x01
  const PREFIX: Name := [SOH, 0x69, 0x6E, SOH]
  const CORE: Name := [0x63, 0x6F, 0x72, 0x65]
  const CAPABILITY: Name := [0x63, 0x61, 0x70, 0x61, 0x62, 0x69, 0x6C, 0x69, 0x74, 0x79, 0x5F, 0x6D, 0x6F, 0x64, 0x75, 0x6C, 0x65]

  predicate Reserved(k: Name) {
    SOH in k
  }

  predicate Bootstrap(k: Name) {
    k == CORE || k == CAPABILITY
  }

  function InboundKey(caller: Name): (k: Name)
    ensures Reserved(k) && |k| == 4 + |caller| && k[4..] == caller
  {
    assert PREFIX[0] == SOH;
    var k := PREFIX + caller;
    assert k[0] == SOH;
    k
  }

  // ----------------------------------------------------------------- the two directions

  /** What the store is meant to be: what this identity presents, and what it issued. */
  datatype TwoMaps = TwoMaps(out: map<Name, Token>, inbound: map<Name, Token>)

  datatype Op = Save(key: Name, token: Token) | Remove(key: Name) | Clear | SaveInbound(caller: Name, token: Token)

  // Each operation on the two maps, with its answer.
  function Perform(t: TwoMaps, op: Op): (TwoMaps, bool) {
    match op
    case Save(k, v) => if Reserved(k) then (t, false) else (t.(out := t.out[k := v]), true)
    case Remove(k) => if !Reserved(k) && k in t.out then (t.(out := t.out - {k}), true) else (t, false)
    case Clear => (TwoMaps(map[], map[]), true)
    case SaveInbound(c, v) =>
      if c == [] || v == [] || Reserved(c) then (t, false) else (t.(inbound := t.inbound[c := v]), true)
  }

  // The same on the one map.
  function PerformOne(m: map<Name, Token>, op: Op): (map<Name, Token>, bool) {
    match op
    case Save(k, v) => if Reserved(k) then (m, false) else (m[k := v], true)
    case Remove(k) => if !Reserved(k) && k in m then (m - {k}, true) else (m, false)
    case Clear => (map[], true)
    case SaveInbound(c, v) => if c == [] || v == [] || Reserved(c) then (m, false) else (m[InboundKey(c) := v], true)
  }

  // What may be asked of a store.
  function Get(m: map<Name, Token>, k: Name): Token {
    if !Reserved(k) && k in m then m[k] else []
  }

  function InboundValue(m: map<Name, Token>, c: Name): Token {
    if !Reserved(c) && InboundKey(c) in m then m[InboundKey(c)] else []
  }

  function Credential(m: map<Name, Token>): Token {
    if CORE in m && m[CORE] != [] then m[CORE]
    else if CAPABILITY in m then m[CAPABILITY]
    else []
  }

  // --------------------------------------------------------------------- the relation

  /** The one map holds the two: outbound entries under bare names, inbound ones under
      their prefixed names, and nothing else. */
  ghost predicate Holds(m: map<Name, Token>, t: TwoMaps) {
    && (forall k :: k in t.out ==> !Reserved(k))
    && (forall c :: c in t.inbound ==> !Reserved(c) && c != [] && t.inbound[c] != [])
    && (forall k :: !Reserved(k) ==> (k in m <==> k in t.out))
    && (forall k :: k in t.out ==> m[k] == t.out[k])
    && (forall c :: c in t.inbound ==> InboundKey(c) in m && m[InboundKey(c)] == t.inbound[c])
    && (forall k :: k in m && Reserved(k) ==> |k| >= 4 && k[4..] in t.inbound && k == InboundKey(k[4..]))
  }

  lemma PerformKeeps(m: map<Name, Token>, t: TwoMaps, op: Op)
    requires Holds(m, t)
    ensures Holds(PerformOne(m, op).0, Perform(t, op).0)
    ensures PerformOne(m, op).1 == Perform(t, op).1
  {
    match op
    case Save(k, v) =>
    case Remove(k) =>
    case Clear =>
    case SaveInbound(c, v) => SaveInboundKeeps(m, t, c, v);
  }

  lemma SaveInboundKeeps(m: map<Name, Token>, t: TwoMaps, c: Name, v: Token)
    requires Holds(m, t)
    ensures Holds(PerformOne(m, SaveInbound(c, v)).0, Perform(t, SaveInbound(c, v)).0)
  {
    hide Holds, Reserved, InboundKey;
    if c != [] && v != [] && !Reserved(c) { InboundHolds(m, t, c, v); }
  }

  lemma InboundHolds(m: map<Name, Token>, t: TwoMaps, c: Name, v: Token)
    requires Holds(m, t) && c != [] && v != [] && !Reserved(c)
    ensures Holds(m[InboundKey(c) := v], t.(inbound := t.inbound[c := v]))
  {
    hide Reserved, InboundKey;
    OutboundStays(m, t, c, v);
    InboundGrows(m, t, c, v);
    forall d | d in t.inbound[c := v] ensures !Reserved(d) && d != [] && t.inbound[c := v][d] != [] {}
  }

  lemma OutboundStays(m: map<Name, Token>, t: TwoMaps, c: Name, v: Token)
    requires Holds(m, t)
    ensures forall k :: !Reserved(k) ==> (k in m[InboundKey(c) := v] <==> k in t.out)
    ensures forall k :: k in t.out ==> m[InboundKey(c) := v][k] == t.out[k]
  {
    hide Reserved, InboundKey;
    assert forall k :: !Reserved(k) ==> k != InboundKey(c);
  }

  lemma InboundGrows(m: map<Name, Token>, t: TwoMaps, c: Name, v: Token)
    requires Holds(m, t)
    ensures var m', inbound' := m[InboundKey(c) := v], t.inbound[c := v];
            && (forall d :: d in inbound' ==> InboundKey(d) in m' && m'[InboundKey(d)] == inbound'[d])
            && (forall k :: k in m' && Reserved(k) ==> |k| >= 4 && k[4..] in inbound' && k == InboundKey(k[4..]))
  {
    hide Reserved, InboundKey;
    var m', inbound' := m[InboundKey(c) := v], t.inbound[c := v];
    forall d | d in inbound' ensures InboundKey(d) in m' && m'[InboundKey(d)] == inbound'[d] {
      KeysAreDistinct(c, d);
    }
  }

  lemma KeysAreDistinct(c: Name, d: Name)
    ensures InboundKey(c) == InboundKey(d) ==> c == d
  {
    assert InboundKey(c)[4..] == c && InboundKey(d)[4..] == d;
  }

  // ------------------------------------------------------------------- what can be seen

  function OutboundKeys(m: map<Name, Token>): set<Name> {
    set k | k in m && !Reserved(k)
  }

  function InboundNames(m: map<Name, Token>): set<Name> {
    set k | k in m && Reserved(k) && |k| >= 4 :: k[4..]
  }

  function Answers(m: map<Name, Token>, ops: seq<Op>): (map<Name, Token>, seq<bool>)
    decreases |ops|
  {
    if ops == [] then (m, [])
    else var (m', more) := Answers(PerformOne(m, ops[0]).0, ops[1..]); (m', [PerformOne(m, ops[0]).1] + more)
  }

  function TwoAnswers(t: TwoMaps, ops: seq<Op>): (TwoMaps, seq<bool>)
    decreases |ops|
  {
    if ops == [] then (t, [])
    else var (t', more) := TwoAnswers(Perform(t, ops[0]).0, ops[1..]); (t', [Perform(t, ops[0]).1] + more)
  }

  lemma {:induction false} RunKeeps(m: map<Name, Token>, t: TwoMaps, ops: seq<Op>)
    requires Holds(m, t)
    ensures Holds(Answers(m, ops).0, TwoAnswers(t, ops).0)
    ensures Answers(m, ops).1 == TwoAnswers(t, ops).1
    decreases |ops|
  {
    if ops != [] {
      PerformKeeps(m, t, ops[0]);
      hide Holds, Perform, PerformOne;
      RunKeeps(PerformOne(m, ops[0]).0, Perform(t, ops[0]).0, ops[1..]);
    }
  }

  /** The one map is observationally the two: after any operations, every answer given on
      the way and everything that can be asked afterwards is what two independent maps
      would say, the inbound half under its callers' bare names. */
  lemma OneMapIsTwo(ops: seq<Op>, n: Name)
    ensures var (m, answers) := Answers(map[], ops);
            var (t, twoAnswers) := TwoAnswers(TwoMaps(map[], map[]), ops);
            && answers == twoAnswers
            && Get(m, n) == (if n in t.out then t.out[n] else [])
            && InboundValue(m, n) == (if n in t.inbound then t.inbound[n] else [])
            && (InboundValue(m, n) != [] <==> n in t.inbound)
            && OutboundKeys(m) == t.out.Keys && InboundNames(m) == t.inbound.Keys
            && Credential(m) == Credential(t.out)
  {
    RunKeeps(map[], TwoMaps(map[], map[]), ops);
    var m, t := Answers(map[], ops).0, TwoAnswers(TwoMaps(map[], map[]), ops).0;
    Observed(m, t, n);
  }

  lemma NotReservedRoles()
    ensures !Reserved(CORE) && !Reserved(CAPABILITY)
  {
  }

  lemma Observed(m: map<Name, Token>, t: TwoMaps, n: Name)
    requires Holds(m, t)
    ensures Get(m, n) == (if n in t.out then t.out[n] else [])
    ensures InboundValue(m, n) == (if n in t.inbound then t.inbound[n] else [])
    ensures OutboundKeys(m) == t.out.Keys && InboundNames(m) == t.inbound.Keys
    ensures Credential(m) == Credential(t.out)
  {
    NotReservedRoles();
    assert InboundKey(n)[4..] == n;
    forall c | c in t.inbound ensures c in InboundNames(m) {
      assert InboundKey(c) in m && Reserved(InboundKey(c)) && InboundKey(c)[4..] == c;
    }
  }

  /** Neither direction reaches the other: an outbound save or removal leaves every inbound
      token and the list of callers as they were, and the credential too unless its key is
      one of the two it is kept under; an inbound save leaves everything presented
      outbound, the roster and the credential. */
  lemma DirectionsDoNotInterfere(m: map<Name, Token>, op: Op, n: Name)
    ensures var m' := PerformOne(m, op).0;
            op.Save? || op.Remove? ==>
              && InboundValue(m', n) == InboundValue(m, n) && InboundNames(m') == InboundNames(m)
              && (!Bootstrap(op.key) ==> Credential(m') == Credential(m))
    ensures var m' := PerformOne(m, op).0;
            op.SaveInbound? ==>
              Get(m', n) == Get(m, n) && OutboundKeys(m') == OutboundKeys(m) && Credential(m') == Credential(m)
  {
    NotReservedRoles();
    var m' := PerformOne(m, op).0;
    if op.Save? || op.Remove? {
      assert forall k :: Reserved(k) ==> (k in m' <==> k in m);
      assert InboundNames(m') == InboundNames(m);
    }
  }

  /** The credential is what is saved for the core, or else for the capability module, and
      follows every change of the two. */
  lemma CredentialFollows(m: map<Name, Token>, v: Token)
    ensures Credential(m) == if Get(m, CORE) != [] then Get(m, CORE) else Get(m, CAPABILITY)
    ensures Credential(PerformOne(m, Save(CORE, v)).0) == if v != [] then v else Get(m, CAPABILITY)
    ensures Credential(PerformOne(m, Save(CAPABILITY, v)).0) == if Get(m, CORE) != [] then Get(m, CORE) else v
    ensures Credential(PerformOne(m, Remove(CORE)).0) == Get(m, CAPABILITY)
    ensures Credential(PerformOne(m, Remove(CAPABILITY)).0) == Get(m, CORE)
    ensures Credential(PerformOne(m, Clear).0) == []
  {
    NotReservedRoles();
  }

  // ------------------------------------------------------------------------- the class

  class TokenManager {
    var tokens: map<Name, Token>

    constructor ()
      ensures tokens == map[]
    {
      tokens := map[];
    }

    method SaveToken(key: Name, token: Token)
      modifies this
      ensures tokens == if SOH in key then old(tokens) else old(tokens)[key := token]
      ensures tokens == PerformOne(old(tokens), Save(key, token)).0
    {
      if Reserved(key) { return; }
      tokens := tokens[key := token];
    }

    method GetToken(key: Name) returns (token: Token)
      ensures token == if SOH !in key && key in tokens then tokens[key] else []
      ensures token == Get(tokens, key)
    {
      if Reserved(key) { return []; }
      token := if key in tokens then tokens[key] else [];
    }

    method RemoveToken(key: Name) returns (ok: bool)
      modifies this
      ensures ok <==> SOH !in key && key in old(tokens)
      ensures tokens == if ok then old(tokens) - {key} else old(tokens)
      ensures (tokens, ok) == PerformOne(old(tokens), Remove(key))
    {
      if Reserved(key) { return false; }
      if key in tokens {
        tokens := tokens - {key};
        return true;
      }
      return false;
    }

    method ClearAllTokens()
      modifies this
      ensures tokens == map[]
    {
      tokens := map[];
    }

    method SaveInboundToken(caller: Name, token: Token) returns (ok: bool)
      modifies this
      ensures ok <==> caller != [] && token != [] && SOH !in caller
      ensures tokens == if ok then old(tokens)[[0x01, 0x69, 0x6E, 0x01] + caller := token] else old(tokens)
      ensures (tokens, ok) == PerformOne(old(tokens), SaveInbound(caller, token))
    {
      if caller == [] || token == [] { return false; }
      if Reserved(caller) { return false; }
      tokens := tokens[InboundKey(caller) := token];
      return true;
    }

    // One value under two labels: the first of them that is set.
    method CredentialValue() returns (value: Token)
      ensures value == if Get(tokens, CORE) != [] then Get(tokens, CORE) else Get(tokens, CAPABILITY)
      ensures value == Credential(tokens)
    {
      NotReservedRoles();
      value := if CORE in tokens then tokens[CORE] else [];
      if value != [] { return; }
      value := if CAPABILITY in tokens then tokens[CAPABILITY] else [];
    }

    method AdoptCredential(credential: Token)
      modifies this
      ensures tokens == if credential == [] then old(tokens) else old(tokens)[CORE := credential][CAPABILITY := credential]
      ensures credential != [] ==> Credential(tokens) == credential
    {
      if credential == [] { return; }
      NotReservedRoles();
      SaveToken(CORE, credential);
      SaveToken(CAPABILITY, credential);
    }

    // The roster, in whatever order the map is walked.
    method GetTokenKeys() returns (keys: seq<Name>)
      ensures forall k :: k in keys <==> k in OutboundKeys(tokens)
      ensures |keys| == |OutboundKeys(tokens)|
    {
      keys := [];
      var todo := tokens.Keys;
      ghost var seen: set<Name> := {};
      while todo != {}
        invariant todo <= tokens.Keys && forall k :: k in seen <==> k in tokens && k !in todo && !Reserved(k)
        invariant (forall k :: k in keys <==> k in seen) && |keys| == |seen|
        decreases |todo|
      {
        var k :| k in todo;
        todo := todo - {k};
        if !Reserved(k) {
          keys := keys + [k];
          seen := seen + {k};
        }
      }
      assert seen == OutboundKeys(tokens);
    }

    // The callers, their prefix stripped.
    method InboundKeyList() returns (names: seq<Name>)
      requires exists t :: Holds(tokens, t)
      ensures forall c :: c in names <==> c in InboundNames(tokens)
      ensures |names| == |InboundNames(tokens)|
    {
      ghost var t :| Holds(tokens, t);
      names := [];
      var todo := tokens.Keys;
      ghost var seen: set<Name> := {};
      while todo != {}
        invariant todo <= tokens.Keys
        invariant forall c :: c in seen ==> InboundKey(c) in tokens && InboundKey(c) !in todo
        invariant forall k :: k in tokens && k !in todo && Reserved(k) ==> k[4..] in seen
        invariant (forall c :: c in names <==> c in seen) && |names| == |seen|
        decreases |todo|
      {
        var k :| k in todo;
        todo := todo - {k};
        if Reserved(k) {
          assert k == InboundKey(k[4..]);
          names := names + [k[4..]];
          seen := seen + {k[4..]};
        }
      }
      assert seen == InboundNames(tokens) by {
        forall c | c in seen ensures c in InboundNames(tokens) { assert InboundKey(c)[4..] == c; }
      }
    }
  }
}
