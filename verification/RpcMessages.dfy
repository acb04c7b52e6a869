/** The eight wire messages as JSON objects, and back. */
module RpcMessages {
  import opened RpcValues
  import opened JsonMapping
  import opened Wrappers

  datatype MethodMetadata = MethodMetadata(name: string, signature: string, returnType: string,
                                           isInvokable: bool, parameters: seq<Value>)

  datatype Message =
    | Call(id: UInt64, authToken: string, obj: string, method_: string, args: seq<Value>, caller: string)
    | ResultMessage(id: UInt64, ok: bool, value: Value, err: string, errCode: string)
    | Subscribe(obj: string, event: string)
    | Unsubscribe(obj: string, event: string)
    | Event(obj: string, event: string, data: seq<Value>)
    | Token(authToken: string, moduleName: string, token: string)
    | Methods(id: UInt64, authToken: string, obj: string)
    | MethodsResult(id: UInt64, ok: bool, methods: seq<MethodMetadata>, err: string)

  type Object = seq<Field<Json>>

  function TypeOf(m: Message): nat {
    match m
    case Call(_, _, _, _, _, _) => 1
    case ResultMessage(_, _, _, _, _) => 2
    case Subscribe(_, _) => 3
    case Unsubscribe(_, _) => 4
    case Event(_, _, _) => 5
    case Token(_, _, _) => 6
    case Methods(_, _, _) => 7
    case MethodsResult(_, _, _, _) => 8
  }

  // --------------------------------------------------------------------- to JSON

  function MethodToJson(m: MethodMetadata): Json {
    var o := Put(Put(Put([], "name", JString(m.name)), "signature", JString(m.signature)), "returnType", JString(m.returnType));
    JObject(Put(Put(o, "isInvokable", JBool(m.isInvokable)), "parameters", JArray(EncodeList(m.parameters))))
  }

  function MethodsToJson(ms: seq<MethodMetadata>): (r: seq<Json>)
    ensures |r| == |ms| && forall i :: 0 <= i < |ms| ==> r[i] == MethodToJson(ms[i])
  {
    if ms == [] then [] else [MethodToJson(ms[0])] + MethodsToJson(ms[1..])
  }

  function ToFields(m: Message): Object {
    match m
    case Call(id, authToken, obj, method_, args, caller) =>
      var o := Put(Put(Put([], "id", JUnsigned(id)), "authToken", JString(authToken)), "object", JString(obj));
      var o1 := Put(Put(o, "method", JString(method_)), "args", JArray(EncodeList(args)));
      if caller != "" then Put(o1, "caller", JString(caller)) else o1
    case ResultMessage(id, ok, value, err, errCode) =>
      var o := Put(Put([], "id", JUnsigned(id)), "ok", JBool(ok));
      if ok then Put(o, "value", Encode(value)) else Put(Put(o, "err", JString(err)), "errCode", JString(errCode))
    case Subscribe(obj, event) => Put(Put([], "object", JString(obj)), "event", JString(event))
    case Unsubscribe(obj, event) => Put(Put([], "object", JString(obj)), "event", JString(event))
    case Event(obj, event, data) =>
      Put(Put(Put([], "object", JString(obj)), "event", JString(event)), "data", JArray(EncodeList(data)))
    case Token(authToken, moduleName, token) =>
      Put(Put(Put([], "authToken", JString(authToken)), "moduleName", JString(moduleName)), "token", JString(token))
    case Methods(id, authToken, obj) =>
      Put(Put(Put([], "id", JUnsigned(id)), "authToken", JString(authToken)), "object", JString(obj))
    case MethodsResult(id, ok, methods, err) =>
      var o := Put(Put([], "id", JUnsigned(id)), "ok", JBool(ok));
      if ok then Put(o, "methods", JArray(MethodsToJson(methods))) else Put(o, "err", JString(err))
  }

  // ------------------------------------------------------------------- from JSON

  function Text(o: Object, key: string): Result<string, Error> {
    var found: Option<Json> := Find(o, key);
    match found
    case None => Ok("")
    case Some(JString(s)) => Ok(s)
    case _ => Err(TypeMismatch)
  }

  function Flag(o: Object, key: string, default_: bool): Result<bool, Error> {
    var found: Option<Json> := Find(o, key);
    match found
    case None => Ok(default_)
    case Some(JBool(b)) => Ok(b)
    case _ => Err(TypeMismatch)
  }

  // Any number converts: a negative one wraps, a fraction is cut.
  function Id(o: Object): Result<UInt64, Error> {
    var found: Option<Json> := Find(o, "id");
    match found
    case None => Ok(0)
    case Some(JUnsigned(u)) => Ok(u)
    case Some(JSigned(i)) => Ok(if i >= 0 then i else i + UINT64_MAX + 1)
    case Some(JFloat(d)) => if 0.0 <= d < (UINT64_MAX + 1) as real then Ok(d.Floor) else Err(TypeMismatch)
    case _ => Err(TypeMismatch)
  }

  // What is missing, or not an array, is no arguments.
  function Values(o: Object, key: string): Result<seq<Value>, Error> {
    var found: Option<Json> := Find(o, key);
    match found
    case Some(JArray(items)) => DecodeList(items)
    case _ => Ok([])
  }

  function MethodFromJson(j: Json): Result<MethodMetadata, Error> {
    if !j.JObject? then Err(TypeMismatch)
    else
      var name :- Text(j.fields, "name");
      var signature :- Text(j.fields, "signature");
      var returnType :- Text(j.fields, "returnType");
      var isInvokable :- Flag(j.fields, "isInvokable", true);
      var parameters :- Values(j.fields, "parameters");
      Ok(MethodMetadata(name, signature, returnType, isInvokable, parameters))
  }

  function MethodsFromJson(items: seq<Json>): Result<seq<MethodMetadata>, Error> {
    if items == [] then Ok([])
    else
      var m :- MethodFromJson(items[0]);
      var rest :- MethodsFromJson(items[1..]);
      Ok([m] + rest)
  }

  function FromJson(tag: nat, j: Json): Result<Message, Error> {
    if !j.JObject? then Err(NotAnObject)
    else
      var o := j.fields;
      match tag
      case 1 =>
        var id :- Id(o);
        var authToken :- Text(o, "authToken");
        var obj :- Text(o, "object");
        var method_ :- Text(o, "method");
        var caller :- Text(o, "caller");
        var args :- Values(o, "args");
        Ok(Call(id, authToken, obj, method_, args, caller))
      case 2 =>
        var id :- Id(o);
        var ok :- Flag(o, "ok", false);
        if ok then
          var value :- if Find(o, "value").Some? then Decode(Find(o, "value").value) else Ok(Null);
          Ok(ResultMessage(id, true, value, "", ""))
        else
          var err :- Text(o, "err");
          var errCode :- Text(o, "errCode");
          Ok(ResultMessage(id, false, Null, err, errCode))
      case 3 =>
        var obj :- Text(o, "object");
        var event :- Text(o, "event");
        Ok(Subscribe(obj, event))
      case 4 =>
        var obj :- Text(o, "object");
        var event :- Text(o, "event");
        Ok(Unsubscribe(obj, event))
      case 5 =>
        var obj :- Text(o, "object");
        var event :- Text(o, "event");
        var data :- Values(o, "data");
        Ok(Event(obj, event, data))
      case 6 =>
        var authToken :- Text(o, "authToken");
        var moduleName :- Text(o, "moduleName");
        var token :- Text(o, "token");
        Ok(Token(authToken, moduleName, token))
      case 7 =>
        var id :- Id(o);
        var authToken :- Text(o, "authToken");
        var obj :- Text(o, "object");
        Ok(Methods(id, authToken, obj))
      case 8 =>
        var id :- Id(o);
        var ok :- Flag(o, "ok", false);
        if ok then
          var methods :- if Find(o, "methods").Some? && Find(o, "methods").value.JArray?
                         then MethodsFromJson(Find(o, "methods").value.items) else Ok([]);
          Ok(MethodsResult(id, true, methods, ""))
        else
          var err :- Text(o, "err");
          Ok(MethodsResult(id, false, [], err))
      case _ => Err(UnknownTag)
  }

  // ------------------------------------------------------------------ the round trip

  function SettleAll(values: seq<Value>): seq<Value> {
    seq(|values|, i requires 0 <= i < |values| => Settle(values[i]))
  }

  predicate NoLookalikes(values: seq<Value>) {
    forall i :: 0 <= i < |values| ==> NoLookalike(Settle(values[i]))
  }

  function NormalMethods(ms: seq<MethodMetadata>): (r: seq<MethodMetadata>)
    ensures |r| == |ms|
  {
    if ms == [] then [] else [ms[0].(parameters := SettleAll(ms[0].parameters))] + NormalMethods(ms[1..])
  }

  // What a message is on the other side: values settled, and what the ok flag makes
  // meaningless not sent.
  function Normal(m: Message): Message {
    match m
    case Call(_, _, _, _, args, _) => m.(args := SettleAll(args))
    case ResultMessage(id, ok, value, err, errCode) =>
      if ok then ResultMessage(id, true, Settle(value), "", "") else ResultMessage(id, false, Null, err, errCode)
    case Event(_, _, data) => m.(data := SettleAll(data))
    case MethodsResult(id, ok, methods, err) =>
      if ok then MethodsResult(id, true, NormalMethods(methods), "") else MethodsResult(id, false, [], err)
    case _ => m
  }

  predicate CleanMethods(ms: seq<MethodMetadata>) {
    ms == [] || (NoLookalikes(ms[0].parameters) && CleanMethods(ms[1..]))
  }

  // No value that is sent looks like bytes.
  predicate Clean(m: Message) {
    match m
    case Call(_, _, _, _, args, _) => NoLookalikes(args)
    case ResultMessage(_, ok, value, _, _) => ok ==> NoLookalike(Settle(value))
    case Event(_, _, data) => NoLookalikes(data)
    case MethodsResult(_, ok, methods, _) => ok ==> CleanMethods(methods)
    case _ => true
  }

  lemma {:induction false} UntagFind(o: Object, key: string)
    ensures Find(UntagFields(o), key) == match Find(o, key) case None => None case Some(j) => Some(Untag(j))
  {
    hide Untag;
    if o != [] {
      assert UntagFields(o)[1..] == UntagFields(o[1..]);
      UntagFind(o[1..], key);
    }
  }

  // The same object, its integers held either way.
  ghost predicate Alike(a: Object, b: Object) {
    UntagFields(a) == UntagFields(b)
  }

  lemma AlikeFinds(a: Object, b: Object, key: string)
    requires Alike(a, b)
    ensures Find(a, key).None? <==> Find(b, key).None?
    ensures Find(a, key).Some? ==> Untag(Find(a, key).value) == Untag(Find(b, key).value)
  {
    UntagFind(a, key);
    UntagFind(b, key);
  }

  lemma ListShapes(values: seq<Value>, items: seq<Json>)
    ensures Encode(List(values)) == JArray(EncodeList(values)) && Settle(List(values)) == List(SettleAll(values))
    ensures NoLookalike(List(SettleAll(values))) <==> NoLookalikes(values)
    ensures forall x :: Decode(JArray(items)) == Ok(List(x)) <==> DecodeList(items) == Ok(x)
  {
    hide DecodeList, EncodeList;
    assert forall i :: 0 <= i < |values| ==> SettleAll(values)[i] == Settle(values[i]);
  }

  lemma ListRoundTripExactly(values: seq<Value>, items: seq<Json>)
    requires Untag(JArray(items)) == Untag(JArray(EncodeList(values)))
    ensures DecodeList(items) == Ok(SettleAll(values)) <==> NoLookalikes(values)
  {
    hide Encode, EncodeList, Settle, SettleAll, NoLookalike, NoLookalikes, Decode, DecodeList, Untag;
    ListShapes(values, items);
    RoundTripExactly(List(values), JArray(items));
  }

  lemma PutFinds(s: Object, k: string, j: Json)
    ensures forall n :: Find(Put(s, k, j), n) == if n == k then Some(j) else Find(s, n)
  {
    forall n { FindAfterPut(s, k, j, n); }
  }

  lemma TextAlike(o: Object, f: Object, key: string)
    requires Alike(o, f)
    ensures Text(o, key) == Text(f, key) && Flag(o, key, true) == Flag(f, key, true) && Flag(o, key, false) == Flag(f, key, false)
  {
    AlikeFinds(o, f, key);
  }

  lemma IdAlike(o: Object, f: Object)
    requires Alike(o, f)
    ensures Id(o) == Id(f)
  {
    AlikeFinds(o, f, "id");
  }

  lemma ValuesAlike(o: Object, f: Object, key: string, values: seq<Value>)
    requires Alike(o, f) && Find(f, key) == Some(JArray(EncodeList(values)))
    ensures Values(o, key) == Ok(SettleAll(values)) <==> NoLookalikes(values)
  {
    AlikeFinds(o, f, key);
    var j := Find(o, key).value;
    ArrayAlike(j, EncodeList(values));
    ListRoundTripExactly(values, j.items);
  }

  lemma ArrayAlike(j: Json, items: seq<Json>)
    requires Untag(j) == Untag(JArray(items))
    ensures j.JArray? && |j.items| == |items| && forall i :: 0 <= i < |items| ==> Untag(j.items[i]) == Untag(items[i])
  {
    if j.JArray? {
      forall i | 0 <= i < |items| ensures Untag(j.items[i]) == Untag(items[i]) {
        assert Untag(j).items[i] == Untag(JArray(items)).items[i];
      }
    }
  }

  // --------------------------------------------------------------- message by message

  lemma CallRoundTrip(m: Message, o: Object)
    requires m.Call? && Alike(o, ToFields(m))
    ensures FromJson(1, JObject(o)) == Ok(Normal(m)) <==> Clean(m)
  {
    var f := ToFields(m);
    CallFinds(m);
    IdAlike(o, f);
    TextAlike(o, f, "authToken");
    TextAlike(o, f, "object");
    TextAlike(o, f, "method");
    TextAlike(o, f, "caller");
    ValuesAlike(o, f, "args", m.args);
    hide EncodeList, ToFields, SettleAll, NoLookalikes, Values, Find, Alike;
  }

  lemma CallFinds(m: Message)
    requires m.Call?
    ensures var f := ToFields(m);
            && Find(f, "id") == Some(JUnsigned(m.id)) && Find(f, "authToken") == Some(JString(m.authToken))
            && Find(f, "object") == Some(JString(m.obj)) && Find(f, "method") == Some(JString(m.method_))
            && Find(f, "args") == Some(JArray(EncodeList(m.args)))
            && Find(f, "caller") == if m.caller == "" then None else Some(JString(m.caller))
  {
    hide Put, EncodeList, Find;
    var o3 := Put(Put(Put([], "id", JUnsigned(m.id)), "authToken", JString(m.authToken)), "object", JString(m.obj));
    var o4 := Put(o3, "method", JString(m.method_));
    var o5 := Put(o4, "args", JArray(EncodeList(m.args)));
    ThreeFinds("id", JUnsigned(m.id), "authToken", JString(m.authToken), "object", JString(m.obj));
    PutFinds(o3, "method", JString(m.method_));
    PutFinds(o4, "args", JArray(EncodeList(m.args)));
    PutFinds(o5, "caller", JString(m.caller));
  }

  lemma TwoFinds(k1: string, j1: Json, k2: string, j2: Json)
    requires k1 != k2
    ensures var f := Put(Put([], k1, j1), k2, j2); Find(f, k1) == Some(j1) && Find(f, k2) == Some(j2)
    ensures forall n :: n != k1 && n != k2 ==> Find(Put(Put([], k1, j1), k2, j2), n) == None
  {
    PutFinds([], k1, j1);
    PutFinds(Put([], k1, j1), k2, j2);
    hide Put;
  }

  lemma ThreeFinds(k1: string, j1: Json, k2: string, j2: Json, k3: string, j3: Json)
    requires k1 != k2 && k1 != k3 && k2 != k3
    ensures var f := Put(Put(Put([], k1, j1), k2, j2), k3, j3);
            Find(f, k1) == Some(j1) && Find(f, k2) == Some(j2) && Find(f, k3) == Some(j3)
    ensures forall n :: n != k1 && n != k2 && n != k3 ==> Find(Put(Put(Put([], k1, j1), k2, j2), k3, j3), n) == None
  {
    TwoFinds(k1, j1, k2, j2);
    PutFinds(Put(Put([], k1, j1), k2, j2), k3, j3);
    hide Put;
  }

  lemma ResultRoundTrip(m: Message, o: Object)
    requires m.ResultMessage? && Alike(o, ToFields(m))
    ensures FromJson(2, JObject(o)) == Ok(Normal(m)) <==> Clean(m)
  {
    hide Put, Find, Encode, Decode, Settle, NoLookalike, Alike, Id, Untag;
    var f := ToFields(m);
    var base := Put(Put([], "id", JUnsigned(m.id)), "ok", JBool(m.ok));
    ThreeFinds("id", JUnsigned(m.id), "ok", JBool(m.ok), "value", Encode(m.value));
    ThreeFinds("id", JUnsigned(m.id), "ok", JBool(m.ok), "err", JString(m.err));
    PutFinds(Put(base, "err", JString(m.err)), "errCode", JString(m.errCode));
    IdFound(f, m.id);
    IdAlike(o, f);
    TextAlike(o, f, "ok");
    if m.ok {
      AlikeFinds(o, f, "value");
      RoundTripExactly(m.value, Find(o, "value").value);
    } else {
      TextAlike(o, f, "err");
      TextAlike(o, f, "errCode");
    }
  }

  lemma SubscribeRoundTrip(m: Message, o: Object)
    requires (m.Subscribe? || m.Unsubscribe?) && Alike(o, ToFields(m))
    ensures FromJson(TypeOf(m), JObject(o)) == Ok(m)
  {
    TwoFinds("object", JString(m.obj), "event", JString(m.event));
    TextAlike(o, ToFields(m), "object");
    TextAlike(o, ToFields(m), "event");
    hide Put, Find, Alike;
  }

  lemma EventRoundTrip(m: Message, o: Object)
    requires m.Event? && Alike(o, ToFields(m))
    ensures FromJson(5, JObject(o)) == Ok(Normal(m)) <==> Clean(m)
  {
    hide Put, Find, Alike, Values, EncodeList, SettleAll, NoLookalikes;
    ThreeFinds("object", JString(m.obj), "event", JString(m.event), "data", JArray(EncodeList(m.data)));
    TextAlike(o, ToFields(m), "object");
    TextAlike(o, ToFields(m), "event");
    ValuesAlike(o, ToFields(m), "data", m.data);
  }

  lemma TokenRoundTrip(m: Message, o: Object)
    requires m.Token? && Alike(o, ToFields(m))
    ensures FromJson(6, JObject(o)) == Ok(m)
  {
    hide Put, Find, Alike;
    ThreeFinds("authToken", JString(m.authToken), "moduleName", JString(m.moduleName), "token", JString(m.token));
    TextAlike(o, ToFields(m), "authToken");
    TextAlike(o, ToFields(m), "moduleName");
    TextAlike(o, ToFields(m), "token");
  }

  lemma MethodsRoundTrip(m: Message, o: Object)
    requires m.Methods? && Alike(o, ToFields(m))
    ensures FromJson(7, JObject(o)) == Ok(m)
  {
    ThreeFinds("id", JUnsigned(m.id), "authToken", JString(m.authToken), "object", JString(m.obj));
    IdAlike(o, ToFields(m));
    TextAlike(o, ToFields(m), "authToken");
    TextAlike(o, ToFields(m), "object");
    hide Put, Find, Alike, Id;
  }

  lemma MetadataFinds(m: MethodMetadata)
    ensures var f := MethodToJson(m).fields;
            && Find(f, "name") == Some(JString(m.name)) && Find(f, "signature") == Some(JString(m.signature))
            && Find(f, "returnType") == Some(JString(m.returnType)) && Find(f, "isInvokable") == Some(JBool(m.isInvokable))
            && Find(f, "parameters") == Some(JArray(EncodeList(m.parameters)))
  {
    var o1 := Put([], "name", JString(m.name));
    var o2 := Put(o1, "signature", JString(m.signature));
    var o3 := Put(o2, "returnType", JString(m.returnType));
    var o4 := Put(o3, "isInvokable", JBool(m.isInvokable));
    PutFinds([], "name", JString(m.name));
    PutFinds(o1, "signature", JString(m.signature));
    PutFinds(o2, "returnType", JString(m.returnType));
    PutFinds(o3, "isInvokable", JBool(m.isInvokable));
    PutFinds(o4, "parameters", JArray(EncodeList(m.parameters)));
    hide Put, EncodeList;
  }

  lemma MetadataRoundTrip(m: MethodMetadata, j: Json)
    requires Untag(j) == Untag(MethodToJson(m))
    ensures MethodFromJson(j) == Ok(m.(parameters := SettleAll(m.parameters))) <==> NoLookalikes(m.parameters)
    ensures MethodFromJson(j).Ok? ==> MethodFromJson(j).value == m.(parameters := MethodFromJson(j).value.parameters)
  {
    assert j.JObject?;
    var f := MethodToJson(m).fields;
    assert Alike(j.fields, f);
    MetadataFinds(m);
    TextAlike(j.fields, f, "name");
    TextAlike(j.fields, f, "signature");
    TextAlike(j.fields, f, "returnType");
    TextAlike(j.fields, f, "isInvokable");
    ValuesAlike(j.fields, f, "parameters", m.parameters);
    hide Untag, MethodToJson, Find, Alike, Values, EncodeList, SettleAll, NoLookalikes;
  }

  lemma OneMoreMethod(m: MethodMetadata, ms: seq<MethodMetadata>, items: seq<Json>)
    requires items != [] && Untag(items[0]) == Untag(MethodToJson(m))
    ensures MethodsFromJson(items) == Ok(NormalMethods([m] + ms)) <==>
              NoLookalikes(m.parameters) && MethodsFromJson(items[1..]) == Ok(NormalMethods(ms))
  {
    MetadataRoundTrip(m, items[0]);
    hide MethodFromJson, Untag, MethodToJson, NoLookalikes, SettleAll;
    assert ([m] + ms)[1..] == ms;
    var one, rest := MethodFromJson(items[0]), MethodsFromJson(items[1..]);
    if one.Ok? && rest.Ok? {
      var all := [one.value] + rest.value;
      assert all[0] == one.value && all[1..] == rest.value;
      assert NormalMethods([m] + ms)[1..] == NormalMethods(ms);
    }
  }

  lemma {:induction false} MetadatasRoundTrip(ms: seq<MethodMetadata>, items: seq<Json>)
    requires |items| == |ms| && forall i :: 0 <= i < |ms| ==> Untag(items[i]) == Untag(MethodToJson(ms[i]))
    ensures MethodsFromJson(items) == Ok(NormalMethods(ms)) <==> CleanMethods(ms)
  {
    if ms != [] {
      hide Untag, MethodToJson, NoLookalikes, MethodsFromJson, NormalMethods;
      assert ms == [ms[0]] + ms[1..];
      assert Untag(items[0]) == Untag(MethodToJson(ms[0]));
      OneMoreMethod(ms[0], ms[1..], items);
      forall i | 0 <= i < |ms[1..]| ensures Untag(items[1..][i]) == Untag(MethodToJson(ms[1..][i])) {
        assert Untag(items[i + 1]) == Untag(MethodToJson(ms[i + 1]));
      }
      MetadatasRoundTrip(ms[1..], items[1..]);
    }
  }

  lemma SentMethods(o: Object, f: Object, ms: seq<MethodMetadata>)
    requires Alike(o, f) && Find(f, "methods") == Some(JArray(MethodsToJson(ms)))
    ensures Find(o, "methods").Some? && Find(o, "methods").value.JArray?
    ensures MethodsFromJson(Find(o, "methods").value.items) == Ok(NormalMethods(ms)) <==> CleanMethods(ms)
  {
    AlikeFinds(o, f, "methods");
    var j := Find(o, "methods").value;
    ArrayAlike(j, MethodsToJson(ms));
    hide Untag, MethodToJson, MethodsToJson, MethodsFromJson, NormalMethods, CleanMethods, Alike, Find;
    MetadatasRoundTrip(ms, j.items);
  }

  lemma MethodsResultRoundTrip(m: Message, o: Object)
    requires m.MethodsResult? && Alike(o, ToFields(m))
    ensures FromJson(8, JObject(o)) == Ok(Normal(m)) <==> Clean(m)
  {
    hide Put, Find, Alike, Id, MethodsToJson, MethodsFromJson, NormalMethods, CleanMethods;
    var f := ToFields(m);
    ThreeFinds("id", JUnsigned(m.id), "ok", JBool(m.ok), "methods", JArray(MethodsToJson(m.methods)));
    ThreeFinds("id", JUnsigned(m.id), "ok", JBool(m.ok), "err", JString(m.err));
    IdAlike(o, f);
    TextAlike(o, f, "ok");
    IdFound(f, m.id);
    if m.ok {
      SentMethods(o, f, m.methods);
    } else {
      TextAlike(o, f, "err");
    }
  }

  lemma IdFound(f: Object, id: UInt64)
    requires Find(f, "id") == Some(JUnsigned(id))
    ensures Id(f) == Ok(id)
  {
  }

  /** A message read back, through any tree that differs only in how it holds integers, is
      the message sent, its values settled and the fields its ok flag silences cleared; if
      and only if nothing sent in it looks like bytes. */
  lemma MessageRoundTrip(m: Message, o: Object)
    requires Alike(o, ToFields(m))
    ensures FromJson(TypeOf(m), JObject(o)) == Ok(Normal(m)) <==> Clean(m)
  {
    hide FromJson, Alike, ToFields;
    match m
    case Call(_, _, _, _, _, _) => CallRoundTrip(m, o);
    case ResultMessage(_, _, _, _, _) => ResultRoundTrip(m, o);
    case Subscribe(_, _) => SubscribeRoundTrip(m, o);
    case Unsubscribe(_, _) => SubscribeRoundTrip(m, o);
    case Event(_, _, _) => EventRoundTrip(m, o);
    case Token(_, _, _) => TokenRoundTrip(m, o);
    case Methods(_, _, _) => MethodsRoundTrip(m, o);
    case MethodsResult(_, _, _, _) => MethodsResultRoundTrip(m, o);
  }

  /** A call that names no caller is written without the key, and read back naming none:
      absence and emptiness are the same frame. */
  lemma NoCallerNoKey(m: Message)
    requires m.Call?
    ensures Find(ToFields(m), "caller").None? <==> m.caller == ""
  {
    CallFinds(m);
  }

  // ------------------------------------------------------------ the keys on the wire

  /** The keys of each message and what stands under them. */
  function Wire(m: Message): map<string, Json> {
    match m
    case Call(id, authToken, obj, method_, args, caller) =>
      var all := map["id" := JUnsigned(id), "authToken" := JString(authToken), "object" := JString(obj),
                     "method" := JString(method_), "args" := JArray(EncodeList(args))];
      if caller == "" then all else all["caller" := JString(caller)]
    case ResultMessage(id, ok, value, err, errCode) =>
      if ok then map["id" := JUnsigned(id), "ok" := JBool(true), "value" := Encode(value)]
      else map["id" := JUnsigned(id), "ok" := JBool(false), "err" := JString(err), "errCode" := JString(errCode)]
    case Subscribe(obj, event) => map["object" := JString(obj), "event" := JString(event)]
    case Unsubscribe(obj, event) => map["object" := JString(obj), "event" := JString(event)]
    case Event(obj, event, data) => map["object" := JString(obj), "event" := JString(event), "data" := JArray(EncodeList(data))]
    case Token(authToken, moduleName, token) =>
      map["authToken" := JString(authToken), "moduleName" := JString(moduleName), "token" := JString(token)]
    case Methods(id, authToken, obj) => map["id" := JUnsigned(id), "authToken" := JString(authToken), "object" := JString(obj)]
    case MethodsResult(id, ok, methods, err) =>
      if ok then map["id" := JUnsigned(id), "ok" := JBool(true), "methods" := JArray(MethodsToJson(methods))]
      else map["id" := JUnsigned(id), "ok" := JBool(false), "err" := JString(err)]
  }

  // An object that holds exactly these keys, in order.
  ghost predicate Shows(o: Object, keys: map<string, Json>) {
    Sorted(o) && forall n :: Find(o, n) == if n in keys then Some(keys[n]) else None
  }

  lemma ShowsPut(o: Object, keys: map<string, Json>, k: string, j: Json)
    requires Shows(o, keys)
    ensures Shows(Put(o, k, j), keys[k := j])
  {
    PutKeepsSorted(o, k, j);
    PutFinds(o, k, j);
    hide Put, Find, Sorted;
  }

  lemma ShowsTwo(k1: string, j1: Json, k2: string, j2: Json)
    ensures Shows(Put(Put([], k1, j1), k2, j2), map[k1 := j1][k2 := j2])
  {
    ShowsPut([], map[], k1, j1);
    assert map[][k1 := j1] == map[k1 := j1];
    ShowsPut(Put([], k1, j1), map[k1 := j1], k2, j2);
  }

  lemma ShowsThree(k1: string, j1: Json, k2: string, j2: Json, k3: string, j3: Json)
    ensures Shows(Put(Put(Put([], k1, j1), k2, j2), k3, j3), map[k1 := j1][k2 := j2][k3 := j3])
  {
    ShowsTwo(k1, j1, k2, j2);
    ShowsPut(Put(Put([], k1, j1), k2, j2), map[k1 := j1][k2 := j2], k3, j3);
  }

  lemma CallShows(m: Message)
    requires m.Call?
    ensures Shows(ToFields(m), Wire(m))
  {
    hide Shows, Put, EncodeList;
    var o3 := Put(Put(Put([], "id", JUnsigned(m.id)), "authToken", JString(m.authToken)), "object", JString(m.obj));
    var w3 := map["id" := JUnsigned(m.id)]["authToken" := JString(m.authToken)]["object" := JString(m.obj)];
    ShowsThree("id", JUnsigned(m.id), "authToken", JString(m.authToken), "object", JString(m.obj));
    ShowsPut(o3, w3, "method", JString(m.method_));
    var o4, w4 := Put(o3, "method", JString(m.method_)), w3["method" := JString(m.method_)];
    ShowsPut(o4, w4, "args", JArray(EncodeList(m.args)));
    var o5, w5 := Put(o4, "args", JArray(EncodeList(m.args))), w4["args" := JArray(EncodeList(m.args))];
    ShowsPut(o5, w5, "caller", JString(m.caller));
    assert Wire(m) == if m.caller == "" then w5 else w5["caller" := JString(m.caller)];
  }

  lemma ResultShows(m: Message)
    requires m.ResultMessage? || m.MethodsResult?
    ensures Shows(ToFields(m), Wire(m))
  {
    hide Shows, Put, Encode, MethodsToJson;
    var base, w := Put(Put([], "id", JUnsigned(m.id)), "ok", JBool(m.ok)), map["id" := JUnsigned(m.id)]["ok" := JBool(m.ok)];
    ShowsTwo("id", JUnsigned(m.id), "ok", JBool(m.ok));
    if m.ResultMessage? {
      ShowsPut(base, w, "value", Encode(m.value));
      ShowsPut(base, w, "err", JString(m.err));
      ShowsPut(Put(base, "err", JString(m.err)), w["err" := JString(m.err)], "errCode", JString(m.errCode));
      assert Wire(m) == if m.ok then w["value" := Encode(m.value)] else w["err" := JString(m.err)]["errCode" := JString(m.errCode)];
    } else {
      ShowsPut(base, w, "methods", JArray(MethodsToJson(m.methods)));
      ShowsPut(base, w, "err", JString(m.err));
      assert Wire(m) == if m.ok then w["methods" := JArray(MethodsToJson(m.methods))] else w["err" := JString(m.err)];
    }
  }

  /** Each message is written under its own type number, with exactly its keys, in order. */
  lemma WrittenOnTheWire(m: Message)
    ensures Shows(ToFields(m), Wire(m))
    ensures TypeOf(m) == if m.Call? then 1 else if m.ResultMessage? then 2 else if m.Subscribe? then 3 else if m.Unsubscribe? then 4
                         else if m.Event? then 5 else if m.Token? then 6 else if m.Methods? then 7 else 8
  {
    hide Shows, Put, EncodeList;
    match m
    case Call(_, _, _, _, _, _) => CallShows(m);
    case ResultMessage(_, _, _, _, _) | MethodsResult(_, _, _, _) => ResultShows(m);
    case Subscribe(obj, event) =>
      ShowsTwo("object", JString(obj), "event", JString(event));
      assert Wire(m) == map["object" := JString(obj)]["event" := JString(event)];
    case Unsubscribe(obj, event) =>
      ShowsTwo("object", JString(obj), "event", JString(event));
      assert Wire(m) == map["object" := JString(obj)]["event" := JString(event)];
    case Event(obj, event, data) =>
      ShowsThree("object", JString(obj), "event", JString(event), "data", JArray(EncodeList(data)));
      assert Wire(m) == map["object" := JString(obj)]["event" := JString(event)]["data" := JArray(EncodeList(data))];
    case Token(authToken, moduleName, token) =>
      ShowsThree("authToken", JString(authToken), "moduleName", JString(moduleName), "token", JString(token));
      assert Wire(m) == map["authToken" := JString(authToken)]["moduleName" := JString(moduleName)]["token" := JString(token)];
    case Methods(id, authToken, obj) =>
      ShowsThree("id", JUnsigned(id), "authToken", JString(authToken), "object", JString(obj));
      assert Wire(m) == map["id" := JUnsigned(id)]["authToken" := JString(authToken)]["object" := JString(obj)];
  }

  /** An id of any numeric kind converts: a negative one wraps to 64 bits, a fraction is cut;
      a missing one is zero, and anything else is refused. */
  lemma IdConverts(o: Object)
    ensures var found: Option<Json> := Find(o, "id");
            && (found.None? ==> Id(o) == Ok(0))
            && (found.Some? && found.value.JUnsigned? ==> Id(o) == Ok(found.value.u))
            && (found.Some? && found.value.JSigned? ==> Id(o) == Ok(found.value.i % 0x1_0000_0000_0000_0000))
            && (found.Some? && found.value.JFloat? && 0.0 <= found.value.d < 18446744073709551616.0 ==> Id(o) == Ok(found.value.d.Floor))
            && (found.Some? && !found.value.JUnsigned? && !found.value.JSigned? && !found.value.JFloat? ==> Id(o) == Err(TypeMismatch))
  {
  }

  /** What a peer that sends no keys is taken to have said. */
  lemma MissingKeysHaveDefaults(tag: nat)
    ensures FromJson(tag, JObject([])) ==
              if tag == 1 then Ok(Call(0, "", "", "", [], ""))
              else if tag == 2 then Ok(ResultMessage(0, false, Null, "", ""))
              else if tag == 3 then Ok(Subscribe("", ""))
              else if tag == 4 then Ok(Unsubscribe("", ""))
              else if tag == 5 then Ok(Event("", "", []))
              else if tag == 6 then Ok(Token("", "", ""))
              else if tag == 7 then Ok(Methods(0, "", ""))
              else if tag == 8 then Ok(MethodsResult(0, false, [], ""))
              else Err(UnknownTag)
    ensures MethodFromJson(JObject([])) == Ok(MethodMetadata("", "", "", true, []))
    ensures FromJson(tag, JNull) == Err(NotAnObject)
  {
  }

  // ------------------------------------------------------- keys nobody here has heard of

  const KEYS: set<string> := {"id", "authToken", "object", "method", "args", "caller", "ok", "value", "err", "errCode",
                              "event", "data", "moduleName", "token", "methods"}

  lemma ReadAlike(a: Object, b: Object, key: string)
    requires Find(a, key) == Find(b, key)
    ensures Text(a, key) == Text(b, key) && Flag(a, key, false) == Flag(b, key, false) && Values(a, key) == Values(b, key)
  {
  }

  lemma IdReadAlike(a: Object, b: Object)
    requires Find(a, "id") == Find(b, "id")
    ensures Id(a) == Id(b)
  {
  }

  /** A key no decoder reads, from a newer peer, changes nothing. */
  lemma UnknownKeysAreIgnored(tag: nat, o: Object, key: string, j: Json)
    requires key !in KEYS
    ensures FromJson(tag, JObject(Put(o, key, j))) == FromJson(tag, JObject(o))
  {
    hide Find, Put, Id, Text, Flag, Values, Decode, MethodsFromJson;
    var o' := Put(o, key, j);
    PutFinds(o, key, j);
    forall k | k in KEYS
      ensures Text(o', k) == Text(o, k) && Flag(o', k, false) == Flag(o, k, false) && Values(o', k) == Values(o, k) && Find(o', k) == Find(o, k)
    {
      ReadAlike(o', o, k);
    }
    IdReadAlike(o', o);
  }
}
