/** The values the wire carries, the JSON tree they are mapped to, and sorted objects. */
module RpcValues {
  import B64 = Base64
  import opened Wrappers

  const INT64_MIN := -0x8000_0000_0000_0000
  const INT64_MAX := 0x7FFF_FFFF_FFFF_FFFF
  const UINT64_MAX := 0xFFFF_FFFF_FFFF_FFFF

  type Int64 = x: int | INT64_MIN <= x <= INT64_MAX
  type UInt64 = x: int | 0 <= x <= UINT64_MAX

  datatype Field<T> = Field(key: string, val: T)

  datatype Value =
    | Null
    | Bool(b: bool)
    | Int(i: Int64)
    | UInt(u: UInt64)
    | Double(d: real)
    | Str(s: string)
    | Bytes(data: B64.Bytes)
    | List(items: seq<Value>)
    | Map(entries: seq<Field<Value>>)

  // A number is held as signed, unsigned or floating; an object's keys are in order.
  datatype Json =
    | JNull
    | JBool(b: bool)
    | JSigned(i: Int64)
    | JUnsigned(u: UInt64)
    | JFloat(d: real)
    | JString(s: string)
    | JArray(items: seq<Json>)
    | JObject(fields: seq<Field<Json>>)
    | JBinary(data: B64.Bytes)

  datatype Error = InvalidBase64 | NotAnObject | TypeMismatch | UnknownTag

  // The unsigned alternative is only for what the signed one cannot hold.
  function MakeInteger(u: UInt64): Value {
    if u <= INT64_MAX then Int(u) else UInt(u)
  }

  // ------------------------------------------------------------------- key order

  predicate Less(a: string, b: string) {
    b != [] && (a == [] || a[0] < b[0] || (a[0] == b[0] && Less(a[1..], b[1..])))
  }

  lemma {:induction false} LessIsStrict(a: string, b: string)
    ensures !(Less(a, b) && Less(b, a)) && !Less(a, a)
  {
    if a != [] {
      LessIsStrict(a[1..], if b != [] then b[1..] else []);
    }
  }

  lemma {:induction false} LessIsTotal(a: string, b: string)
    ensures a == b || Less(a, b) || Less(b, a)
  {
    if a != [] && b != [] && a[0] == b[0] {
      LessIsTotal(a[1..], b[1..]);
      assert a == [a[0]] + a[1..] && b == [b[0]] + b[1..];
    }
  }

  lemma {:induction false} LessIsTransitive(a: string, b: string, c: string)
    requires Less(a, b) && Less(b, c)
    ensures Less(a, c)
  {
    if a != [] && a[0] == b[0] == c[0] { LessIsTransitive(a[1..], b[1..], c[1..]); }
  }

  // ---------------------------------------------------------------------- objects

  // obj[k] = v on an object kept in key order.
  function Put<T>(s: seq<Field<T>>, k: string, v: T): seq<Field<T>> {
    if s == [] then [Field(k, v)]
    else if s[0].key == k then [Field(k, v)] + s[1..]
    else if Less(k, s[0].key) then [Field(k, v)] + s
    else [s[0]] + Put(s[1..], k, v)
  }

  function Find<T>(s: seq<Field<T>>, k: string): Option<T> {
    if s == [] then None else if s[0].key == k then Some(s[0].val) else Find(s[1..], k)
  }

  ghost predicate Above<T>(k: string, s: seq<Field<T>>) {
    forall f :: f in s ==> Less(k, f.key)
  }

  ghost predicate Sorted<T>(s: seq<Field<T>>) {
    s == [] || (Above(s[0].key, s[1..]) && Sorted(s[1..]))
  }

  lemma {:induction false} FindAfterPut<T>(s: seq<Field<T>>, k: string, v: T, n: string)
    ensures Find(Put(s, k, v), n) == if n == k then Some(v) else Find(s, n)
  {
    if s != [] && s[0].key != k && !Less(k, s[0].key) {
      FindAfterPut(s[1..], k, v, n);
      assert Put(s, k, v)[1..] == Put(s[1..], k, v);
    }
  }

  lemma {:induction false} PutMembers<T>(s: seq<Field<T>>, k: string, v: T)
    ensures forall f :: f in Put(s, k, v) ==> f == Field(k, v) || f in s
    ensures Field(k, v) in Put(s, k, v)
    ensures forall f :: f in s && f.key != k ==> f in Put(s, k, v)
  {
    if s != [] {
      assert s == [s[0]] + s[1..];
      if s[0].key != k && !Less(k, s[0].key) { PutMembers(s[1..], k, v); }
    }
  }

  lemma {:induction false} PutKeepsSorted<T>(s: seq<Field<T>>, k: string, v: T)
    requires Sorted(s)
    ensures Sorted(Put(s, k, v))
  {
    if s != [] {
      if s[0].key == k {
        assert Put(s, k, v)[1..] == s[1..];
      } else if Less(k, s[0].key) {
        assert Put(s, k, v)[1..] == s;
        forall f | f in s ensures Less(k, f.key) {
          if f != s[0] {
            assert f in s[1..];
            LessIsTransitive(k, s[0].key, f.key);
          }
        }
      } else {
        PutKeepsSorted(s[1..], k, v);
        PutMembers(s[1..], k, v);
        LessIsTotal(s[0].key, k);
        assert Put(s, k, v)[1..] == Put(s[1..], k, v);
      }
    }
  }

  // Putting keys in order only ever appends.
  lemma {:induction false} PutLast<T>(s: seq<Field<T>>, k: string, v: T)
    requires Sorted(s + [Field(k, v)])
    ensures Put(s, k, v) == s + [Field(k, v)] && Sorted(s)
  {
    if s != [] {
      var all := s + [Field(k, v)];
      assert all[1..] == s[1..] + [Field(k, v)];
      assert Field(k, v) in all[1..];
      LessIsStrict(s[0].key, k);
      PutLast(s[1..], k, v);
      assert Above(s[0].key, s[1..]) by { assert forall f :: f in s[1..] ==> f in all[1..]; }
    }
  }
}
