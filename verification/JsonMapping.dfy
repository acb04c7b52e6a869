/** RpcValue to JSON and back.  A round trip settles a value (keys sorted, the last of a
    repeated key kept, integers canonical), and loses it in exactly one case: a map whose
    only entry is a string named "_bytes", which is how byte strings are written. */
module JsonMapping {
  import opened RpcValues
  import B64 = Base64
  import opened Wrappers

  const TAG := "_bytes"

  // ---------------------------------------------------------------------- the mapping

  function Encode(v: Value): Json {
    match v
    case Null => JNull
    case Bool(b) => JBool(b)
    case Int(i) => JSigned(i)
    case UInt(u) => JUnsigned(u)
    case Double(d) => JFloat(d)
    case Str(s) => JString(s)
    case Bytes(data) => JObject([Field(TAG, JString(B64.Encode(data)))])
    case List(items) => JArray(EncodeList(items))
    case Map(entries) => JObject(ObjectOf(entries))
  }

  function EncodeList(items: seq<Value>): (r: seq<Json>)
    ensures |r| == |items|
    ensures forall i :: 0 <= i < |items| ==> r[i] == Encode(items[i])
  {
    if items == [] then [] else EncodeList(items[..|items| - 1]) + [Encode(items[|items| - 1])]
  }

  // Keys are assigned in the entries' order, so the last of a repeated key wins.
  function ObjectOf(entries: seq<Field<Value>>): seq<Field<Json>> {
    if entries == [] then []
    else
      var last := entries[|entries| - 1];
      Put(ObjectOf(entries[..|entries| - 1]), last.key, Encode(last.val))
  }

  predicate IsTaggedBytes(fields: seq<Field<Json>>) {
    |fields| == 1 && fields[0].key == TAG && fields[0].val.JString?
  }

  function Decode(j: Json): (r: Result<Value, Error>)
    ensures r.Err? ==> r.error == InvalidBase64
  {
    match j
    case JNull => Ok(Null)
    case JBool(b) => Ok(Bool(b))
    case JUnsigned(u) => Ok(MakeInteger(u))
    case JSigned(i) => Ok(Int(i))
    case JFloat(d) => Ok(Double(d))
    case JString(s) => Ok(Str(s))
    case JArray(items) =>
      (match DecodeList(items)
       case Ok(values) => Ok(List(values))
       case Err(e) => Err(e))
    case JObject(fields) =>
      if IsTaggedBytes(fields) then
        match B64.Strict(fields[0].val.s)
        case Some(data) => Ok(Bytes(data))
        case None => Err(InvalidBase64)
      else
        (match DecodeFields(fields)
         case Ok(entries) => Ok(Map(entries))
         case Err(e) => Err(e))
    case JBinary(data) => Ok(Bytes(data))
  }

  function DecodeList(items: seq<Json>): (r: Result<seq<Value>, Error>)
    ensures r.Err? ==> r.error == InvalidBase64
    ensures r.Ok? <==> forall i :: 0 <= i < |items| ==> Decode(items[i]).Ok?
    ensures r.Ok? ==> |r.value| == |items| && forall i :: 0 <= i < |items| ==> Decode(items[i]) == Ok(r.value[i])
  {
    if items == [] then Ok([])
    else
      match DecodeList(items[..|items| - 1])
      case Err(e) => Err(e)
      case Ok(values) =>
        match Decode(items[|items| - 1])
        case Err(e) => Err(e)
        case Ok(v) => Ok(values + [v])
  }

  function DecodeFields(fields: seq<Field<Json>>): (r: Result<seq<Field<Value>>, Error>)
    ensures r.Err? ==> r.error == InvalidBase64
    ensures r.Ok? <==> forall i :: 0 <= i < |fields| ==> Decode(fields[i].val).Ok?
    ensures r.Ok? ==> |r.value| == |fields| && forall i :: 0 <= i < |fields| ==>
              r.value[i].key == fields[i].key && Decode(fields[i].val) == Ok(r.value[i].val)
  {
    if fields == [] then Ok([])
    else
      var before, last := fields[..|fields| - 1], fields[|fields| - 1];
      match DecodeFields(before)
      case Err(e) => Err(e)
      case Ok(entries) =>
        match Decode(last.val)
        case Err(e) => Err(e)
        case Ok(v) => Ok(entries + [Field(last.key, v)])
  }

  /** How a scalar is written: as itself, and bytes as an object with the one key "_bytes". */
  lemma ScalarWrittenAs(v: Value)
    ensures v.Null? ==> Encode(v) == JNull
    ensures v.Bool? ==> Encode(v) == JBool(v.b)
    ensures v.Int? ==> Encode(v) == JSigned(v.i)
    ensures v.UInt? ==> Encode(v) == JUnsigned(v.u)
    ensures v.Double? ==> Encode(v) == JFloat(v.d)
    ensures v.Str? ==> Encode(v) == JString(v.s)
    ensures v.Bytes? ==> Encode(v) == JObject([Field("_bytes", JString(B64.Encode(v.data)))])
  {
  }

  /** And how a leaf is read: binary, which only the other codec has, as bytes. */
  lemma ScalarReadAs(j: Json)
    ensures j.JNull? ==> Decode(j) == Ok(Null)
    ensures j.JBool? ==> Decode(j) == Ok(Bool(j.b))
    ensures j.JSigned? ==> Decode(j) == Ok(Int(j.i))
    ensures j.JUnsigned? ==> Decode(j) == Ok(if j.u <= 0x7FFF_FFFF_FFFF_FFFF then Int(j.u) else UInt(j.u))
    ensures j.JFloat? ==> Decode(j) == Ok(Double(j.d))
    ensures j.JString? ==> Decode(j) == Ok(Str(j.s))
    ensures j.JBinary? ==> Decode(j) == Ok(Bytes(j.data))
  {
  }

  /** A list is written item by item, and a map with the last entry of each key, in order. */
  lemma MapWrittenAs(items: seq<Value>, entries: seq<Field<Value>>, k: string)
    ensures Encode(List(items)).JArray? && Encode(Map(entries)).JObject?
    ensures |Encode(List(items)).items| == |items| && forall i :: 0 <= i < |items| ==> Encode(List(items)).items[i] == Encode(items[i])
    ensures Sorted(Encode(Map(entries)).fields)
    ensures Find(Encode(Map(entries)).fields, k) == if Last(entries, k).Some? then Some(Encode(Last(entries, k).value)) else None
  {
    ObjectFinds(entries, k);
    hide ObjectOf, Sorted, EncodeList;
  }

  // The last entry of a key.
  function Last(entries: seq<Field<Value>>, k: string): Option<Value> {
    if entries == [] then None
    else if entries[|entries| - 1].key == k then Some(entries[|entries| - 1].val) else Last(entries[..|entries| - 1], k)
  }

  lemma {:induction false} ObjectFinds(entries: seq<Field<Value>>, k: string)
    ensures Sorted(ObjectOf(entries))
    ensures Find(ObjectOf(entries), k) == if Last(entries, k).Some? then Some(Encode(Last(entries, k).value)) else None
  {
    if entries != [] {
      var init, last := entries[..|entries| - 1], entries[|entries| - 1];
      ObjectFinds(init, k);
      hide Encode, Sorted;
      FindAfterPut(ObjectOf(init), last.key, Encode(last.val), k);
      PutKeepsSorted(ObjectOf(init), last.key, Encode(last.val));
    }
  }

  // ------------------------------------------------------------------ as it is performed

  method ValueToJson(v: Value) returns (j: Json)
    ensures j == Encode(v)
    decreases v
  {
    match v
    case Null => j := JNull;
    case Bool(b) => j := JBool(b);
    case Int(i) => j := JSigned(i);
    case UInt(u) => j := JUnsigned(u);
    case Double(d) => j := JFloat(d);
    case Str(s) => j := JString(s);
    case Bytes(data) =>
      var text := B64.EncodeLoop(data);
      j := JObject([Field(TAG, JString(text))]);
    case List(items) =>
      var arr: seq<Json> := [];
      for i := 0 to |items|
        invariant arr == EncodeList(items[..i])
      {
        var item := ValueToJson(items[i]);
        assert items[..i + 1][..i] == items[..i];
        arr := arr + [item];
      }
      assert items[..|items|] == items;
      j := JArray(arr);
    case Map(entries) =>
      var obj: seq<Field<Json>> := [];
      for i := 0 to |entries|
        invariant obj == ObjectOf(entries[..i])
      {
        var val := ValueToJson(entries[i].val);
        assert entries[..i + 1][..i] == entries[..i];
        obj := Put(obj, entries[i].key, val);
      }
      assert entries[..|entries|] == entries;
      j := JObject(obj);
  }

  method JsonToValue(j: Json) returns (r: Result<Value, Error>)
    ensures r == Decode(j)
    decreases j
  {
    match j
    case JNull => r := Ok(Null);
    case JBool(b) => r := Ok(Bool(b));
    case JUnsigned(u) => r := Ok(MakeInteger(u));
    case JSigned(i) => r := Ok(Int(i));
    case JFloat(d) => r := Ok(Double(d));
    case JString(s) => r := Ok(Str(s));
    case JBinary(data) => r := Ok(Bytes(data));
    case JArray(items) =>
      var list: seq<Value> := [];
      for i := 0 to |items|
        invariant DecodeList(items[..i]) == Ok(list)
      {
        var item := JsonToValue(items[i]);
        assert items[..i + 1][..i] == items[..i];
        if item.Err? { return Err(item.error); }
        list := list + [item.value];
      }
      assert items[..|items|] == items;
      r := Ok(List(list));
    case JObject(fields) =>
      if IsTaggedBytes(fields) {
        var ok, data := B64.DecodeCheckedLoop(fields[0].val.s);
        r := if ok then Ok(Bytes(data)) else Err(InvalidBase64);
      } else {
        var entries: seq<Field<Value>> := [];
        for i := 0 to |fields|
          invariant DecodeFields(fields[..i]) == Ok(entries)
        {
          var val := JsonToValue(fields[i].val);
          assert fields[..i + 1][..i] == fields[..i];
          if val.Err? { return Err(val.error); }
          entries := entries + [Field(fields[i].key, val.value)];
        }
        assert fields[..|fields|] == fields;
        r := Ok(Map(entries));
      }
  }

  // ---------------------------------------------------------- signed and unsigned alike

  // A JSON reader may hold a number the other way: the tree with every integer that fits
  // held as signed.
  function Untag(j: Json): Json {
    match j
    case JUnsigned(u) => if u <= INT64_MAX then JSigned(u) else j
    case JArray(items) => JArray(seq(|items|, i requires 0 <= i < |items| => Untag(items[i])))
    case JObject(fields) => JObject(UntagFields(fields))
    case _ => j
  }

  function UntagFields(fields: seq<Field<Json>>): (r: seq<Field<Json>>)
    ensures |r| == |fields|
    ensures forall i :: 0 <= i < |fields| ==> r[i] == Field(fields[i].key, Untag(fields[i].val))
  {
    if fields == [] then [] else [Field(fields[0].key, Untag(fields[0].val))] + UntagFields(fields[1..])
  }

  /** Integers are read alike whether the tree holds them as signed or as unsigned. */
  lemma {:induction false} TagsDoNotMatter(j: Json)
    ensures Decode(Untag(j)) == Decode(j)
  {
    match j
    case JArray(items) =>
      forall i | 0 <= i < |items| ensures Decode(Untag(items[i])) == Decode(items[i]) { TagsDoNotMatter(items[i]); }
      var u := Untag(j).items;
      assert forall i :: 0 <= i < |items| ==> Decode(u[i]) == Decode(items[i]);
      SameLists(u, items);
    case JObject(fields) =>
      forall i | 0 <= i < |fields| ensures Decode(Untag(fields[i].val)) == Decode(fields[i].val) { TagsDoNotMatter(fields[i].val); }
      var u := UntagFields(fields);
      assert IsTaggedBytes(u) == IsTaggedBytes(fields);
      assert forall i :: 0 <= i < |fields| ==> Decode(u[i].val) == Decode(fields[i].val);
      SameFields(u, fields);
    case _ =>
  }

  lemma SameLists(a: seq<Json>, b: seq<Json>)
    requires |a| == |b| && forall i :: 0 <= i < |a| ==> Decode(a[i]) == Decode(b[i])
    ensures DecodeList(a) == DecodeList(b)
  {
    var x, y := DecodeList(a), DecodeList(b);
    assert x.Ok? <==> y.Ok? by {
      if x.Ok? { assert forall i :: 0 <= i < |b| ==> Decode(b[i]) == Decode(a[i]); }
    }
    if x.Ok? {
      forall i | 0 <= i < |a| ensures x.value[i] == y.value[i] {
        assert Decode(a[i]) == Ok(x.value[i]) && Decode(b[i]) == Ok(y.value[i]);
      }
      assert x.value == y.value;
    }
  }

  lemma SameFields(a: seq<Field<Json>>, b: seq<Field<Json>>)
    requires |a| == |b| && forall i :: 0 <= i < |a| ==> a[i].key == b[i].key && Decode(a[i].val) == Decode(b[i].val)
    ensures DecodeFields(a) == DecodeFields(b)
  {
    var x, y := DecodeFields(a), DecodeFields(b);
    assert x.Ok? <==> y.Ok? by {
      if x.Ok? { assert forall i :: 0 <= i < |b| ==> Decode(b[i].val) == Decode(a[i].val); }
    }
    if x.Ok? {
      forall i | 0 <= i < |a| ensures x.value[i] == y.value[i] {
        assert Decode(a[i].val) == Ok(x.value[i].val) && Decode(b[i].val) == Ok(y.value[i].val);
      }
      assert x.value == y.value;
    }
  }

  // ------------------------------------------------------------------- settled values

  // Canonical integers, and maps with each key once and in order.
  ghost predicate Settled(v: Value) {
    match v
    case UInt(u) => u > INT64_MAX
    case List(items) => forall i :: 0 <= i < |items| ==> Settled(items[i])
    case Map(entries) => Sorted(entries) && forall i :: 0 <= i < |entries| ==> Settled(entries[i].val)
    case _ => true
  }

  // What crossing makes of a value.
  function Settle(v: Value): Value {
    match v
    case UInt(u) => MakeInteger(u)
    case List(items) => List(seq(|items|, i requires 0 <= i < |items| => Settle(items[i])))
    case Map(entries) => Map(SettleEntries(entries))
    case _ => v
  }

  function SettleEntries(entries: seq<Field<Value>>): seq<Field<Value>> {
    if entries == [] then []
    else
      var last := entries[|entries| - 1];
      Put(SettleEntries(entries[..|entries| - 1]), last.key, Settle(last.val))
  }

  // A map that is written exactly as a byte string is, here or anywhere inside.
  predicate NoLookalike(v: Value) {
    match v
    case List(items) => forall i :: 0 <= i < |items| ==> NoLookalike(items[i])
    case Map(entries) =>
      && !(|entries| == 1 && entries[0].key == TAG && entries[0].val.Str?)
      && forall i :: 0 <= i < |entries| ==> NoLookalike(entries[i].val)
    case _ => true
  }

  // On an object already in order, assigning the keys one by one changes nothing.
  lemma {:induction false} ObjectOfSorted(entries: seq<Field<Value>>)
    requires Sorted(entries)
    ensures var o := ObjectOf(entries);
            && |o| == |entries|
            && forall i :: 0 <= i < |entries| ==> o[i] == Field(entries[i].key, Encode(entries[i].val))
  {
    if entries != [] {
      hide Encode, Sorted;
      var n := |entries| - 1;
      var init, last := entries[..n], entries[n];
      var o := ObjectOf(init);
      assert ObjectOf(entries) == Put(o, last.key, Encode(last.val)) && entries == init + [last];
      hide ObjectOf, Put;
      PutLast(init, last.key, last.val);
      ObjectOfSorted(init);
      KeysDecideOrder(init + [last], o + [Field(last.key, Encode(last.val))]);
      PutLast(o, last.key, Encode(last.val));
    }
  }

  lemma {:induction false} KeysDecideOrder<S, T>(a: seq<Field<S>>, b: seq<Field<T>>)
    requires |a| == |b| && (forall i :: 0 <= i < |a| ==> a[i].key == b[i].key) && Sorted(a)
    ensures Sorted(b)
  {
    if a != [] {
      forall f | f in b[1..] ensures Less(b[0].key, f.key) {
        var i :| 0 <= i < |b[1..]| && b[1..][i] == f;
        assert a[1..][i].key == f.key;
        assert a[1..][i] in a[1..];
      }
      KeysDecideOrder(a[1..], b[1..]);
    }
  }

  /** A settled value comes back exactly as it went, unless it looks like bytes. */
  lemma {:induction false} SettledRoundTripIff(v: Value)
    requires Settled(v)
    ensures Decode(Encode(v)) == Ok(v) <==> NoLookalike(v)
    decreases v
  {
    SettledInside(v);
    hide *;
    match v
    case List(items) =>
      forall i | 0 <= i < |items| ensures Decode(Encode(items[i])) == Ok(items[i]) <==> NoLookalike(items[i]) {
        SettledRoundTripIff(items[i]);
      }
      ListRoundTripIff(items);
    case Map(entries) =>
      forall i | 0 <= i < |entries|
        ensures Decode(Encode(entries[i].val)) == Ok(entries[i].val) <==> NoLookalike(entries[i].val)
      {
        SettledRoundTripIff(entries[i].val);
      }
      MapRoundTripIff(entries);
    case _ =>
      ScalarRoundTripIff(v);
  }

  lemma SettledInside(v: Value)
    requires Settled(v)
    ensures v.List? ==> forall i :: 0 <= i < |v.items| ==> Settled(v.items[i])
    ensures v.Map? ==> Sorted(v.entries) && forall i :: 0 <= i < |v.entries| ==> Settled(v.entries[i].val)
  {
  }

  lemma ScalarRoundTripIff(v: Value)
    requires !v.List? && !v.Map? && Settled(v)
    ensures Decode(Encode(v)) == Ok(v) <==> NoLookalike(v)
  {
    if v.Bytes? { B64.DecodersInvertEncode(v.data); }
  }

  lemma ListRoundTripIff(items: seq<Value>)
    requires forall i :: 0 <= i < |items| ==> (Decode(Encode(items[i])) == Ok(items[i]) <==> NoLookalike(items[i]))
    ensures Decode(Encode(List(items))) == Ok(List(items)) <==> NoLookalike(List(items))
  {
    ListRoundTrip(items);
    hide EncodeList, DecodeList;
  }

  lemma MapRoundTripIff(entries: seq<Field<Value>>)
    requires Sorted(entries)
    requires forall i :: 0 <= i < |entries| ==>
               (Decode(Encode(entries[i].val)) == Ok(entries[i].val) <==> NoLookalike(entries[i].val))
    ensures Decode(Encode(Map(entries))) == Ok(Map(entries)) <==> NoLookalike(Map(entries))
  {
    hide Encode, Decode, Sorted;
    MapRoundTrip(entries);
  }

  lemma ListRoundTrip(items: seq<Value>)
    ensures DecodeList(EncodeList(items)) == Ok(items) <==> forall i :: 0 <= i < |items| ==> Decode(Encode(items[i])) == Ok(items[i])
  {
    hide Encode, Decode, EncodeList, DecodeList;
    var e := EncodeList(items);
    var d := DecodeList(e);
    if forall i :: 0 <= i < |items| ==> Decode(Encode(items[i])) == Ok(items[i]) {
      assert d.Ok?;
      forall i | 0 <= i < |items| ensures d.value[i] == items[i] { assert Decode(e[i]) == Ok(d.value[i]); }
      assert d.value == items;
    }
    if d == Ok(items) {
      forall i | 0 <= i < |items| ensures Decode(Encode(items[i])) == Ok(items[i]) { assert Decode(e[i]) == Ok(d.value[i]); }
    }
  }

  lemma FieldsRoundTrip(entries: seq<Field<Value>>, o: seq<Field<Json>>)
    requires |o| == |entries| && forall i :: 0 <= i < |entries| ==> o[i] == Field(entries[i].key, Encode(entries[i].val))
    ensures DecodeFields(o) == Ok(entries) <==> forall i :: 0 <= i < |entries| ==> Decode(Encode(entries[i].val)) == Ok(entries[i].val)
  {
    hide Encode, Decode, DecodeFields;
    var d := DecodeFields(o);
    if forall i :: 0 <= i < |entries| ==> Decode(Encode(entries[i].val)) == Ok(entries[i].val) {
      assert d.Ok?;
      forall i | 0 <= i < |entries| ensures d.value[i] == entries[i] { assert Decode(o[i].val) == Ok(d.value[i].val); }
      assert d.value == entries;
    }
    if d == Ok(entries) {
      forall i | 0 <= i < |entries| ensures Decode(Encode(entries[i].val)) == Ok(entries[i].val) {
        assert Decode(o[i].val) == Ok(d.value[i].val);
      }
    }
  }

  lemma ObjectDecodes(o: seq<Field<Json>>, entries: seq<Field<Value>>)
    ensures Decode(JObject(o)) == Ok(Map(entries)) <==> !IsTaggedBytes(o) && DecodeFields(o) == Ok(entries)
  {
  }

  lemma MapRoundTrip(entries: seq<Field<Value>>)
    requires Sorted(entries)
    ensures Decode(Encode(Map(entries))) == Ok(Map(entries)) <==>
              !(|entries| == 1 && entries[0].key == TAG && entries[0].val.Str?)
              && forall i :: 0 <= i < |entries| ==> Decode(Encode(entries[i].val)) == Ok(entries[i].val)
  {
    hide Encode, Decode, Sorted, ObjectOf, DecodeFields;
    var o := ObjectOf(entries);
    EncodedShape(Map(entries));
    ObjectOfSorted(entries);
    if |entries| == 1 { EncodedShape(entries[0].val); }
    ObjectDecodes(o, entries);
    FieldsRoundTrip(entries, o);
  }

  lemma EncodedShape(v: Value)
    ensures Encode(v).JString? <==> v.Str?
    ensures v.Map? ==> Encode(v) == JObject(ObjectOf(v.entries))
  {
  }

  // -------------------------------------------------------------- settling is what happens

  lemma {:induction false} SettleSettles(v: Value)
    ensures Settled(Settle(v))
  {
    match v
    case List(items) =>
      forall i | 0 <= i < |items| ensures Settled(Settle(items[i])) { SettleSettles(items[i]); }
    case Map(entries) => EntriesSettle(entries);
    case _ =>
  }

  lemma {:induction false} EntriesSettle(entries: seq<Field<Value>>)
    ensures Sorted(SettleEntries(entries))
    ensures forall f :: f in SettleEntries(entries) ==> Settled(f.val)
  {
    if entries != [] {
      hide Settled, Settle, Sorted;
      var last := entries[|entries| - 1];
      EntriesSettle(entries[..|entries| - 1]);
      SettleSettles(last.val);
      PutKeepsSorted(SettleEntries(entries[..|entries| - 1]), last.key, Settle(last.val));
      PutMembers(SettleEntries(entries[..|entries| - 1]), last.key, Settle(last.val));
    } else {
      assert Sorted<Value>([]);
    }
  }

  // The settled entries as the tree holds them, integers signed.
  function Written(entries: seq<Field<Value>>): (r: seq<Field<Json>>)
    ensures |r| == |entries|
    ensures forall i :: 0 <= i < |entries| ==> r[i] == Field(entries[i].key, Untag(Encode(entries[i].val)))
  {
    if entries == [] then [] else [Field(entries[0].key, Untag(Encode(entries[0].val)))] + Written(entries[1..])
  }

  lemma {:induction false} UntagPut(o: seq<Field<Json>>, k: string, j: Json)
    ensures UntagFields(Put(o, k, j)) == Put(UntagFields(o), k, Untag(j))
  {
    hide Untag;
    if o != [] {
      assert UntagFields(o)[1..] == UntagFields(o[1..]);
      if o[0].key == k {
        assert Put(o, k, j)[1..] == o[1..];
      } else if Less(k, o[0].key) {
        assert Put(o, k, j)[1..] == o;
      } else {
        UntagPut(o[1..], k, j);
        assert Put(o, k, j)[1..] == Put(o[1..], k, j);
      }
    } else {
      assert Put(o, k, j)[1..] == [];
    }
  }

  lemma {:induction false} WrittenPut(e: seq<Field<Value>>, k: string, v: Value)
    ensures Written(Put(e, k, v)) == Put(Written(e), k, Untag(Encode(v)))
  {
    hide Untag, Encode;
    if e != [] {
      assert Written(e)[1..] == Written(e[1..]);
      if e[0].key == k {
        assert Put(e, k, v)[1..] == e[1..];
      } else if Less(k, e[0].key) {
        assert Put(e, k, v)[1..] == e;
      } else {
        WrittenPut(e[1..], k, v);
        assert Put(e, k, v)[1..] == Put(e[1..], k, v);
      }
    } else {
      assert Put(e, k, v)[1..] == [];
    }
  }

  // A value and its settled form are written alike, up to how integers are held.
  lemma SettledWritten(entries: seq<Field<Value>>)
    ensures UntagFields(ObjectOf(SettleEntries(entries))) == Written(SettleEntries(entries))
  {
    hide Untag, Encode, Settle;
    EntriesSettle(entries);
    ObjectOfSorted(SettleEntries(entries));
  }

  lemma ListWrittenAlike(items: seq<Value>)
    requires forall i :: 0 <= i < |items| ==> Untag(Encode(items[i])) == Untag(Encode(Settle(items[i])))
    ensures Untag(Encode(List(items))) == Untag(Encode(Settle(List(items))))
  {
    var v := List(items);
    var a, b := Encode(v).items, Encode(Settle(v)).items;
    assert forall i :: 0 <= i < |items| ==> a[i] == Encode(items[i]) && b[i] == Encode(Settle(items[i]));
    assert Untag(Encode(v)).items == Untag(Encode(Settle(v))).items;
  }

  lemma MapWrittenAlike(entries: seq<Field<Value>>)
    requires UntagFields(ObjectOf(entries)) == Written(SettleEntries(entries))
    ensures Untag(Encode(Map(entries))) == Untag(Encode(Settle(Map(entries))))
  {
    SettledWritten(entries);
    hide UntagFields, Written, SettleEntries, ObjectOf;
  }

  lemma ScalarWrittenAlike(v: Value)
    requires !v.List? && !v.Map?
    ensures Untag(Encode(v)) == Untag(Encode(Settle(v)))
  {
  }

  // A value and what it settles to are written alike.
  lemma {:induction false} WrittenAlike(v: Value)
    ensures Untag(Encode(v)) == Untag(Encode(Settle(v)))
    decreases v, 1
  {
    hide *;
    match v
    case List(items) =>
      forall i | 0 <= i < |items| ensures Untag(Encode(items[i])) == Untag(Encode(Settle(items[i]))) { WrittenAlike(items[i]); }
      ListWrittenAlike(items);
    case Map(entries) =>
      EntriesWrittenAlike(entries);
      MapWrittenAlike(entries);
    case _ =>
      ScalarWrittenAlike(v);
  }

  lemma {:induction false} EntriesWrittenAlike(entries: seq<Field<Value>>)
    ensures UntagFields(ObjectOf(entries)) == Written(SettleEntries(entries))
    decreases entries, 0
  {
    if entries != [] {
      hide Untag, Encode, Settle;
      var init, last := entries[..|entries| - 1], entries[|entries| - 1];
      EntriesWrittenAlike(init);
      WrittenAlike(last.val);
      UntagPut(ObjectOf(init), last.key, Encode(last.val));
      WrittenPut(SettleEntries(init), last.key, Settle(last.val));
    }
  }

  /** The round trip, exactly: through any tree that differs only in how it holds its
      integers, a value comes back settled if and only if, once settled, no map in it is a
      single string under the key of a byte string. */
  lemma RoundTripExactly(v: Value, j: Json)
    requires Untag(j) == Untag(Encode(v))
    ensures Decode(j) == Ok(Settle(v)) <==> NoLookalike(Settle(v))
  {
    hide Untag, Encode, Decode, Settle, NoLookalike, Settled;
    TagsDoNotMatter(j);
    TagsDoNotMatter(Encode(Settle(v)));
    WrittenAlike(v);
    SettleSettles(v);
    SettledRoundTripIff(Settle(v));
  }

  /** What has crossed once crosses unchanged. */
  lemma {:induction false} SettledIsFixed(v: Value)
    requires Settled(v)
    ensures Settle(v) == v
  {
    match v
    case List(items) =>
      forall i | 0 <= i < |items| ensures Settle(items[i]) == items[i] { SettledIsFixed(items[i]); }
      assert Settle(v).items == items;
    case Map(entries) => EntriesFixed(entries);
    case _ =>
  }

  lemma {:induction false} EntriesFixed(entries: seq<Field<Value>>)
    requires Sorted(entries) && forall i :: 0 <= i < |entries| ==> Settled(entries[i].val)
    ensures SettleEntries(entries) == entries
  {
    if entries != [] {
      hide Settled, Settle, Sorted;
      var init, last := entries[..|entries| - 1], entries[|entries| - 1];
      assert entries == init + [last];
      PutLast(init, last.key, last.val);
      EntriesFixed(init);
      SettledIsFixed(last.val);
    }
  }

  // --------------------------------------------------------------- nothing else is lost

  ghost predicate Lossless(v: Value) {
    match v
    case UInt(u) => u > INT64_MAX
    case List(items) => forall i :: 0 <= i < |items| ==> Lossless(items[i])
    case Map(entries) =>
      && (forall i, k :: 0 <= i < k < |entries| ==> entries[i].key != entries[k].key)
      && forall i :: 0 <= i < |entries| ==> Lossless(entries[i].val)
    case _ => true
  }

  // The same value, its maps' entries in another order.
  ghost predicate SameUpToOrder(v: Value, w: Value) {
    match v
    case List(items) =>
      && w.List? && |w.items| == |items|
      && forall i :: 0 <= i < |items| ==> SameUpToOrder(items[i], w.items[i])
    case Map(entries) =>
      && w.Map? && |w.entries| == |entries|
      && forall i :: 0 <= i < |entries| ==>
           Find(w.entries, entries[i].key).Some? && SameUpToOrder(entries[i].val, Find(w.entries, entries[i].key).value)
    case _ => w == v
  }

  /** With canonical integers and each key once, settling only reorders. */
  lemma {:induction false} SettlingOnlyReorders(v: Value)
    requires Lossless(v)
    ensures SameUpToOrder(v, Settle(v))
  {
    match v
    case List(items) =>
      forall i | 0 <= i < |items| ensures SameUpToOrder(items[i], Settle(items[i])) { SettlingOnlyReorders(items[i]); }
    case Map(entries) =>
      forall i | 0 <= i < |entries| ensures SameUpToOrder(entries[i].val, Settle(entries[i].val)) { SettlingOnlyReorders(entries[i].val); }
      EntriesFound(entries);
    case _ =>
  }

  lemma {:induction false} EntriesFound(entries: seq<Field<Value>>)
    requires forall i, k :: 0 <= i < k < |entries| ==> entries[i].key != entries[k].key
    ensures |SettleEntries(entries)| == |entries|
    ensures forall i :: 0 <= i < |entries| ==> Find(SettleEntries(entries), entries[i].key) == Some(Settle(entries[i].val))
    ensures forall n :: (forall i :: 0 <= i < |entries| ==> entries[i].key != n) ==> Find(SettleEntries(entries), n) == None
  {
    if entries != [] {
      hide Settle;
      var init, last := entries[..|entries| - 1], entries[|entries| - 1];
      EntriesFound(init);
      var s := SettleEntries(init);
      forall n { FindAfterPut(s, last.key, Settle(last.val), n); }
      PutNew(s, last.key, Settle(last.val));
    }
  }

  lemma {:induction false} PutNew<T>(s: seq<Field<T>>, k: string, v: T)
    requires Find(s, k) == None
    ensures |Put(s, k, v)| == |s| + 1
  {
    if s != [] && s[0].key != k && !Less(k, s[0].key) { PutNew(s[1..], k, v); }
  }

  // The one way to hold a number of the two integer ranges together.
  function Canonical(n: int): Value
    requires INT64_MIN <= n <= UINT64_MAX
  {
    if n <= INT64_MAX then Int(n) else UInt(n)
  }

  /** Integers are exact over both ranges, however the tree holds them. */
  lemma IntegersAreExact(n: int)
    requires INT64_MIN <= n <= UINT64_MAX
    ensures n <= INT64_MAX ==> Decode(JSigned(n)) == Ok(Canonical(n))
    ensures n >= 0 ==> Decode(JUnsigned(n)) == Ok(Canonical(n))
    ensures Decode(Encode(Canonical(n))) == Ok(Canonical(n))
  {
  }

  /** The one loss: a map holding just a string named like the tag comes back as bytes,
      or not at all. */
  lemma LookalikeIsNotAMap(text: string)
    ensures var v := Map([Field(TAG, Str(text))]);
            Decode(Encode(v)) == match B64.Strict(text) case Some(data) => Ok(Bytes(data)) case None => Err(InvalidBase64)
  {
    var entries := [Field(TAG, Str(text))];
    assert entries[..0] == [];
    assert ObjectOf(entries) == [Field(TAG, JString(text))];
  }
}
