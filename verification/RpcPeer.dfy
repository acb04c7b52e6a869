/** The peer object itself: the registries of PendingCalls and EventSubscriptions as
    fields that its methods update.  A method runs here without interference; what
    interleaving does to the same critical sections is proved over the step relations
    of those two modules. */
module RpcPeer {
  import P = PendingCalls
  import E = EventSubscriptions
  import opened Wrappers

  datatype Message = Call(id: P.Id) | Methods(id: P.Id) | Subscription(frame: E.Frame)

  // One invocation of a pending handler.
  datatype Answer = Answer(handler: P.Handler, result: P.Result)

  class RpcPeer {
    var calls: map<P.Id, P.Handler>
    var methods: map<P.Id, P.Handler>
    var eventSubs: map<E.Key, seq<E.Subscription>>
    var subKeys: map<E.SubId, E.Key>
    var nextSubId: E.SubId
    var nextId: P.Id
    var stopped: bool
    var emitted: seq<Message>
    // Whoever hears of a failure: the owner's handler, and the host if there is one.
    var errorHandler: Option<P.Handler>
    const hosted: bool
    var transportClosed: bool
    var hostNotices: nat

    function Pending(): P.Registry
      reads this
    {
      P.Registry(calls, methods)
    }

    function Subs(): E.Registry
      reads this
    {
      E.Registry(eventSubs, subKeys)
    }

    ghost predicate Valid()
      reads this
    {
      && E.Consistent(Subs())
      && (forall id :: id in subKeys ==> id < nextSubId)
      && (forall id :: id in calls || id in methods ==> id < nextId)
      && calls.Keys !! methods.Keys
      && transportClosed == stopped && hostNotices == (if stopped && hosted then 1 else 0)
    }

    constructor (hosted: bool)
      ensures this.hosted == hosted && errorHandler == None
      ensures Valid() && Pending() == P.EMPTY && Subs() == E.EMPTY && !stopped && emitted == []
    {
      calls, methods, eventSubs, subKeys := map[], map[], map[], map[];
      nextSubId, nextId, stopped, emitted := 1, 1, false, [];
      this.hosted := hosted;
      errorHandler, transportClosed, hostNotices := None, false, 0;
    }

    method SetErrorHandler(h: P.Handler)
      requires Valid()
      modifies `errorHandler
      ensures Valid() && errorHandler == Some(h)
    {
      errorHandler := Some(h);
    }

    method NextId() returns (id: P.Id)
      requires Valid()
      modifies `nextId
      ensures Valid()
      ensures id == old(nextId) && nextId == id + 1
      ensures id !in calls && id !in methods
    {
      id := nextId;
      nextId := nextId + 1;
    }

    method CancelPending(id: P.Id)
      requires Valid()
      modifies `calls, `methods
      ensures Valid()
      ensures Pending() == old(Pending()).Cancel(id)
    {
      calls := calls - {id};
      methods := methods - {id};
    }

    // Extract-and-erase: the one way a handler leaves the map to be run.
    method Take(kind: P.Kind, id: P.Id) returns (h: seq<P.Handler>)
      requires Valid()
      modifies `calls, `methods
      ensures Valid()
      ensures Pending() == old(Pending()).Remove(kind, id)
      ensures h == if id in old(Pending()).Of(kind) then [old(Pending()).Of(kind)[id]] else []
    {
      if kind.Call? {
        h := if id in calls then [calls[id]] else [];
        calls := calls - {id};
      } else {
        h := if id in methods then [methods[id]] else [];
        methods := methods - {id};
      }
    }

    /** Register first, then re-check the stopped flag.  `id` comes from NextId(), so
        nothing is pending under it. */
    method Send(kind: P.Kind, id: P.Id, handler: P.Handler) returns (answers: seq<Answer>)
      requires Valid() && id < nextId && id !in calls && id !in methods
      modifies `calls, `methods, `emitted
      ensures Valid()
      ensures old(stopped) ==>
                && answers == [Answer(handler, P.Result(id, false, "connection stopped", if kind.Call? then "TRANSPORT_CLOSED" else "", 0))]
                && Pending() == old(Pending()) && emitted == old(emitted)
      ensures !old(stopped) ==>
                && answers == []
                && Pending() == old(Pending()).Register(kind, id, handler)
                && emitted == old(emitted) + [if kind.Call? then Call(id) else Methods(id)]
    {
      answers := [];
      if kind.Call? { calls := calls[id := handler]; } else { methods := methods[id := handler]; }
      if stopped {
        var mine := Take(kind, id);
        if mine != [] { answers := [Answer(mine[0], P.StoppedResult(kind, id))]; }
        assert Pending().Of(P.Call) == old(calls) && Pending().Of(P.Methods) == old(methods);
        return;
      }
      emitted := emitted + [if kind.Call? then Call(id) else Methods(id)];
    }

    /** A decoded Result or MethodsResult goes to whoever registered its id. */
    method DispatchResult(kind: P.Kind, result: P.Result) returns (answers: seq<Answer>)
      requires Valid()
      modifies `calls, `methods
      ensures Valid()
      ensures Pending() == old(Pending()).Remove(kind, result.id)
      ensures answers == if result.id in old(Pending()).Of(kind)
                         then [Answer(old(Pending()).Of(kind)[result.id], result)] else []
    {
      var h := Take(kind, result.id);
      answers := if h == [] then [] else [Answer(h[0], result)];
    }

    /** One Event frame, every local subscriber under its name or the wildcard. */
    method DispatchEvent(obj: string, event: string) returns (cbs: seq<E.Subscription>)
      requires Valid()
      ensures cbs == (if E.Key(obj, event) in eventSubs then eventSubs[E.Key(obj, event)] else []) +
                     (if event != "" && E.Key(obj, "") in eventSubs then eventSubs[E.Key(obj, "")] else [])
      ensures cbs == E.Listeners(Subs(), obj, event)
      ensures E.DistinctIds(cbs)
      ensures forall id :: E.Registered(cbs, id) <==> E.Wants(Subs(), id, obj, event)
    {
      cbs := [];
      var key := E.Key(obj, event);
      if key in eventSubs { cbs := cbs + eventSubs[key]; }
      // For an empty name the wildcard key is the named key.
      if event != "" {
        var wild := E.Key(obj, "");
        if wild in eventSubs { cbs := cbs + eventSubs[wild]; }
      }
      E.EveryListenerOnce(Subs(), obj, event);
    }

    method SendSubscribe(key: E.Key, cb: E.Callback) returns (id: E.SubId)
      requires Valid()
      modifies `eventSubs, `subKeys, `nextSubId, `emitted
      ensures Valid()
      ensures id == old(nextSubId) && nextSubId == id + 1 && id !in old(subKeys)
      ensures eventSubs == old(eventSubs)[key := (if key in old(eventSubs) then old(eventSubs)[key] else []) + [E.Subscription(id, cb)]]
      ensures subKeys == old(subKeys)[id := key]
      ensures emitted == old(emitted) + if stopped then [] else [Subscription(E.Subscribe(key))]
    {
      id := nextSubId;
      nextSubId := nextSubId + 1;
      E.AddKeepsConsistent(Subs(), id, key, cb);
      var subs := if key in eventSubs then eventSubs[key] else [];
      eventSubs := eventSubs[key := subs + [E.Subscription(id, cb)]];
      subKeys := subKeys[id := key];
      if !stopped { emitted := emitted + [Subscription(E.Subscribe(key))]; }
    }

    /** Withdraws one registration; the frame goes out only with the last one for its key. */
    method SendUnsubscribe(id: E.SubId)
      requires Valid()
      modifies `eventSubs, `subKeys, `emitted
      ensures Valid()
      ensures subKeys == old(subKeys) - {id}
      ensures E.OthersLeft(old(eventSubs), eventSubs, id)
      ensures Subs() == E.Withdraw(old(Subs()), id).0
      ensures emitted == old(emitted) + Wrap(if stopped then [] else E.Withdraw(old(Subs()), id).1)
    {
      hide E.Consistent, E.Withdraw, E.Without, E.OthersLeft;
      ghost var before := Subs();
      E.WithdrawKeepsConsistent(before, id);
      E.WithdrawnLists(before, id);
      var last := DropRegistration(id);
      assert eventSubs == E.Withdraw(before, id).0.subs && before.subs == old(eventSubs);
      if last.Some? && !stopped { emitted := emitted + [Subscription(E.Unsubscribe(last.value))]; }
    }

    // The critical section: takes one registration out, and says for which key it was the last.
    method DropRegistration(id: E.SubId) returns (last: Option<E.Key>)
      modifies `eventSubs, `subKeys
      ensures Subs() == E.Withdraw(old(Subs()), id).0
      ensures E.Withdraw(old(Subs()), id).1 == if last.Some? then [E.Unsubscribe(last.value)] else []
    {
      if id !in subKeys { return None; }
      var key := subKeys[id];
      subKeys := subKeys - {id};
      if key in eventSubs {
        var left := RemoveIf(eventSubs[key], id);
        if left != [] {
          eventSubs := eventSubs[key := left];
          return None;
        }
        eventSubs := eventSubs - {key};
      }
      return Some(key);
    }

    // Takes every registration out under the mutex, and then answers what was pending.
    method SweepAll(reason: string) returns (answers: seq<Answer>)
      requires calls.Keys !! methods.Keys
      modifies `calls, `methods, `eventSubs, `subKeys
      ensures Pending() == P.EMPTY && Subs() == E.EMPTY
      ensures DistinctIds(answers) && forall a :: a in answers <==> SweepAnswers(old(Pending()), reason, a)
    {
      var sweptCalls, sweptMethods := calls, methods;
      calls, methods, eventSubs, subKeys := map[], map[], map[], map[];
      answers := SweepMap(P.Call, sweptCalls, reason, []);
      answers := SweepMap(P.Methods, sweptMethods, reason, answers);
    }

    /** Answers every pending caller once, with a transport error, forgets every
        registration, closes the transport, and tells the host and then the owner's handler,
        once.  Only the first teardown does anything. */
    method Fail(reason: string) returns (answers: seq<Answer>, reported: Option<P.Handler>)
      requires Valid()
      modifies this
      ensures Valid() && stopped && emitted == old(emitted)
      ensures old(stopped) ==>
                && answers == [] && Pending() == old(Pending()) && Subs() == old(Subs())
                && reported == None && errorHandler == old(errorHandler) && hostNotices == old(hostNotices)
      ensures !old(stopped) ==>
                && Pending() == P.EMPTY && Subs() == E.EMPTY
                && DistinctIds(answers)
                && (forall id :: id in old(calls) ==>
                      Answer(old(calls)[id], P.Result(id, false, reason, "TRANSPORT_ERROR", 0)) in answers)
                && (forall id :: id in old(methods) ==> Answer(old(methods)[id], P.Result(id, false, reason, "", 0)) in answers)
                && (forall a :: a in answers ==>
                      && !a.result.ok && a.result.err == reason && (a.result.id in old(calls) || a.result.id in old(methods))
                      && a.result.errCode == if a.result.id in old(calls) then "TRANSPORT_ERROR" else "")
                && transportClosed && hostNotices == old(hostNotices) + (if hosted then 1 else 0)
                && reported == old(errorHandler) && errorHandler == None
    {
      answers, reported := [], None;
      if stopped { return; }
      stopped := true;
      reported := errorHandler;
      errorHandler := None;
      hide DistinctIds, SweepAnswers, P.SweptResult;
      ghost var before := Pending();
      answers := SweepAll(reason);
      SweptLiterally(before, reason, answers);
      transportClosed := true;
      if hosted { hostNotices := hostNotices + 1; }
    }
  }

  function Wrap(frames: seq<E.Frame>): seq<Message> {
    seq(|frames|, i requires 0 <= i < |frames| => Subscription(frames[i]))
  }

  predicate DistinctIds(s: seq<Answer>) {
    forall i, j :: 0 <= i < j < |s| ==> s[i].result.id != s[j].result.id
  }

  predicate AnswersIn(k: P.Kind, m: map<P.Id, P.Handler>, reason: string, a: Answer) {
    a.result.id in m && a == Answer(m[a.result.id], P.SweptResult(k, a.result.id, reason))
  }

  predicate SweepAnswers(r: P.Registry, reason: string, a: Answer) {
    AnswersIn(P.Call, r.calls, reason, a) || AnswersIn(P.Methods, r.methods, reason, a)
  }

  // Who is answered by a teardown, and with what.
  lemma SweptLiterally(r: P.Registry, reason: string, answers: seq<Answer>)
    requires r.calls.Keys !! r.methods.Keys && forall a :: a in answers <==> SweepAnswers(r, reason, a)
    ensures forall id :: id in r.calls ==> Answer(r.calls[id], P.Result(id, false, reason, "TRANSPORT_ERROR", 0)) in answers
    ensures forall id :: id in r.methods ==> Answer(r.methods[id], P.Result(id, false, reason, "", 0)) in answers
    ensures forall a :: a in answers ==>
              && !a.result.ok && a.result.err == reason && (a.result.id in r.calls || a.result.id in r.methods)
              && a.result.errCode == if a.result.id in r.calls then "TRANSPORT_ERROR" else ""
  {
    forall id | id in r.calls ensures Answer(r.calls[id], P.Result(id, false, reason, "TRANSPORT_ERROR", 0)) in answers {
      assert SweepAnswers(r, reason, Answer(r.calls[id], P.Result(id, false, reason, "TRANSPORT_ERROR", 0)));
    }
    forall id | id in r.methods ensures Answer(r.methods[id], P.Result(id, false, reason, "", 0)) in answers {
      assert SweepAnswers(r, reason, Answer(r.methods[id], P.Result(id, false, reason, "", 0)));
    }
  }

  method SweepMap(k: P.Kind, m: map<P.Id, P.Handler>, reason: string, before: seq<Answer>)
    returns (out: seq<Answer>)
    requires DistinctIds(before) && forall a :: a in before ==> a.result.id !in m
    ensures DistinctIds(out)
    ensures forall a :: a in out <==> a in before || AnswersIn(k, m, reason, a)
  {
    out := before;
    var left := m.Keys;
    while left != {}
      invariant left <= m.Keys && DistinctIds(out)
      invariant forall a :: a in out <==> a in before || (AnswersIn(k, m, reason, a) && a.result.id !in left)
      decreases left
    {
      var id :| id in left;
      left := left - {id};
      assert forall i :: 0 <= i < |out| ==> out[i] in out;
      out := out + [Answer(m[id], P.SweptResult(k, id, reason))];
    }
  }

  /** Erases the registrations carrying `id`, keeping the order of the others. */
  method RemoveIf(subs: seq<E.Subscription>, id: E.SubId) returns (left: seq<E.Subscription>)
    ensures left == E.Without(subs, id)
  {
    left := [];
    for i := 0 to |subs|
      invariant left + E.Without(subs[i..], id) == E.Without(subs, id)
    {
      assert subs[i..][1..] == subs[i + 1..];
      if subs[i].id != id { left := left + [subs[i]]; }
    }
  }
}
