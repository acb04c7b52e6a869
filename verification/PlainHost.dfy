/** The host's sink table and the fan-out of one emission over it. */
module PlainHost {
  import opened EventSubscriptions
  import opened Wrappers

  // "Write this frame back down that connection."
  datatype Sink = Sink(conn: Conn, serial: nat)

  type Events = map<string, map<Conn, Sink>>
  type Sinks = map<string, Events>

  function LookupEvent(m: Events, event: string, c: Conn): Option<Sink> {
    if event in m && c in m[event] then Some(m[event][c]) else None
  }

  function Lookup(m: Sinks, obj: string, event: string, c: Conn): Option<Sink> {
    if obj in m then LookupEvent(m[obj], event, c) else None
  }

  // The flat table the nested maps stand for.
  function Table(m: Sinks): set<Entry> {
    set obj, event, c | obj in m && event in m[obj] && c in m[obj][event] :: Entry(Key(obj, event), c)
  }

  // No level of the table ever holds an empty map, and each sink writes to its own connection.
  ghost predicate WellFormedEvents(m: Events) {
    && (forall e :: e in m ==> m[e] != map[])
    && (forall e, c: Conn :: LookupEvent(m, e, c).Some? ==> LookupEvent(m, e, c).value.conn == c)
  }

  ghost predicate WellFormed(m: Sinks) {
    forall o :: o in m ==> m[o] != map[] && WellFormedEvents(m[o])
  }

  lemma TableMember(m: Sinks, obj: string, event: string, c: Conn)
    ensures Entry(Key(obj, event), c) in Table(m) <==> Lookup(m, obj, event, c).Some?
  {
  }

  // ------------------------------------------------------ one object's event map

  function PutEvent(m: Events, event: string, c: Conn, sink: Sink): Events {
    m[event := (if event in m then m[event] else map[])[c := sink]]
  }

  function DropEvent(m: Events, event: string, c: Conn): Events {
    if event !in m then m
    else if m[event] - {c} == map[] then m - {event}
    else m[event := m[event] - {c}]
  }

  lemma PutEventLookup(m: Events, event: string, c: Conn, sink: Sink)
    requires WellFormedEvents(m) && sink.conn == c
    ensures WellFormedEvents(PutEvent(m, event, c, sink))
    ensures forall e, d: Conn :: LookupEvent(PutEvent(m, event, c, sink), e, d)
              == if (e, d) == (event, c) then Some(sink) else LookupEvent(m, e, d)
  {
    var m' := PutEvent(m, event, c, sink);
    assert c in m'[event];
    forall e, d: Conn | LookupEvent(m', e, d).Some? ensures LookupEvent(m', e, d).value.conn == d {
      if (e, d) != (event, c) { assert LookupEvent(m', e, d) == LookupEvent(m, e, d); }
    }
  }

  lemma DropEventLookup(m: Events, event: string, c: Conn)
    requires WellFormedEvents(m)
    ensures WellFormedEvents(DropEvent(m, event, c))
    ensures forall e, d: Conn :: LookupEvent(DropEvent(m, event, c), e, d)
              == if (e, d) == (event, c) then None else LookupEvent(m, e, d)
  {
    var m' := DropEvent(m, event, c);
    assert event in m ==> forall d: Conn :: d in m[event] && d != c ==> d in (m[event] - {c}).Keys;
    forall e, d: Conn | LookupEvent(m', e, d).Some? ensures LookupEvent(m', e, d).value.conn == d {
      assert LookupEvent(m', e, d) == LookupEvent(m, e, d);
    }
  }

  // Files an object's event map, or drops the object with its last sink.
  function ReplaceObject(m: Sinks, obj: string, events: Events): Sinks {
    if events == map[] then m - {obj} else m[obj := events]
  }

  lemma ReplaceObjectLookup(m: Sinks, obj: string, events: Events)
    requires WellFormed(m) && WellFormedEvents(events)
    ensures WellFormed(ReplaceObject(m, obj, events))
    ensures m.Keys - {obj} <= ReplaceObject(m, obj, events).Keys <= m.Keys + {obj}
    ensures forall o, e, d: Conn :: Lookup(ReplaceObject(m, obj, events), o, e, d)
              == if o == obj then LookupEvent(events, e, d) else Lookup(m, o, e, d)
  {
    assert events == map[] ==> forall e, d: Conn :: LookupEvent(events, e, d) == None;
  }

  lemma PutObjectLookup(m: Sinks, obj: string, event: string, c: Conn, sink: Sink)
    requires WellFormed(m) && sink.conn == c
    ensures var m' := m[obj := PutEvent(if obj in m then m[obj] else map[], event, c, sink)];
            && WellFormed(m')
            && forall o, e, d: Conn :: Lookup(m', o, e, d) == if (o, e, d) == (obj, event, c) then Some(sink) else Lookup(m, o, e, d)
  {
    var events := if obj in m then m[obj] else map[];
    PutEventLookup(events, event, c, sink);
    assert event in PutEvent(events, event, c, sink);
  }

  lemma PutTable(m: Sinks, m': Sinks, obj: string, event: string, c: Conn, sink: Sink)
    requires forall o, e, d: Conn :: Lookup(m', o, e, d) == if (o, e, d) == (obj, event, c) then Some(sink) else Lookup(m, o, e, d)
    ensures Table(m') == Handle(Table(m), Subscribe(Key(obj, event)), c)
  {
    hide Table, Lookup, WellFormed;
    forall x ensures x in Table(m') <==> x in Table(m) + {Entry(Key(obj, event), c)} {
      assert x == Entry(Key(x.key.obj, x.key.event), x.conn);
      TableMember(m, x.key.obj, x.key.event, x.conn);
      TableMember(m', x.key.obj, x.key.event, x.conn);
    }
  }

  lemma DropTable(m: Sinks, m': Sinks, obj: string, event: string, c: Conn)
    requires forall o, e, d: Conn :: Lookup(m', o, e, d) == if (o, e, d) == (obj, event, c) then None else Lookup(m, o, e, d)
    ensures Table(m') == Handle(Table(m), Unsubscribe(Key(obj, event)), c)
  {
    hide Table, Lookup;
    forall x ensures x in Table(m') <==> x in Table(m) - {Entry(Key(obj, event), c)} {
      assert x == Entry(Key(x.key.obj, x.key.event), x.conn);
      TableMember(m, x.key.obj, x.key.event, x.conn);
      TableMember(m', x.key.obj, x.key.event, x.conn);
    }
  }

  lemma SweptTable(m: Sinks, m': Sinks, c: Conn)
    requires forall o, e, d: Conn :: Lookup(m', o, e, d) == if d == c then None else Lookup(m, o, e, d)
    ensures Table(m') == set x | x in Table(m) && x.conn != c
  {
    hide Table, Lookup;
    forall x ensures x in Table(m') <==> x in Table(m) && x.conn != c {
      assert x == Entry(Key(x.key.obj, x.key.event), x.conn);
      TableMember(m, x.key.obj, x.key.event, x.conn);
      TableMember(m', x.key.obj, x.key.event, x.conn);
    }
  }

  lemma ObjectWellFormed(m: Sinks, obj: string)
    requires WellFormed(m) && obj in m
    ensures WellFormedEvents(m[obj])
  {
  }

  lemma AbsentObjects(m: Sinks)
    ensures forall o, e, d: Conn :: o !in m ==> Lookup(m, o, e, d) == None
  {
  }

  // One object swept: the rest as before.
  lemma SweptObject(m0: Sinks, m: Sinks, objs: set<string>, obj: string, events: Events, c: Conn)
    requires WellFormed(m) && WellFormedEvents(events) && obj in m && obj !in objs
    requires forall o, e, d: Conn :: Lookup(m, o, e, d) == if o !in objs + {obj} && d == c then None else Lookup(m0, o, e, d)
    requires forall e, d: Conn :: LookupEvent(events, e, d) == if d == c then None else LookupEvent(m[obj], e, d)
    ensures WellFormed(ReplaceObject(m, obj, events))
    ensures m.Keys - {obj} <= ReplaceObject(m, obj, events).Keys <= m.Keys + {obj}
    ensures forall o, e, d: Conn :: Lookup(ReplaceObject(m, obj, events), o, e, d)
              == if o !in objs && d == c then None else Lookup(m0, o, e, d)
  {
    ReplaceObjectLookup(m, obj, events);
    hide ReplaceObject, LookupEvent, WellFormed;
    var m' := ReplaceObject(m, obj, events);
    forall o, e, d: Conn ensures Lookup(m', o, e, d) == if o !in objs && d == c then None else Lookup(m0, o, e, d) {
      assert Lookup(m, o, e, d) == if o !in objs + {obj} && d == c then None else Lookup(m0, o, e, d);
      if o == obj { assert Lookup(m, obj, e, d) == LookupEvent(m[obj], e, d); }
    }
  }

  class PlainTransportHost {
    var sinks: Sinks

    constructor ()
      ensures WellFormed(sinks) && Table(sinks) == {}
    {
      sinks := map[];
    }

    method OnSubscribe(obj: string, event: string, sink: Sink, c: Conn)
      requires WellFormed(sinks) && sink.conn == c
      modifies this
      ensures WellFormed(sinks)
      ensures forall o, e, d: Conn :: Lookup(sinks, o, e, d)
                == if (o, e, d) == (obj, event, c) then Some(sink) else Lookup(old(sinks), o, e, d)
      ensures Table(sinks) == Handle(old(Table(sinks)), Subscribe(Key(obj, event)), c)
    {
      hide WellFormed, Table;
      var events := if obj in sinks then sinks[obj] else map[];
      PutObjectLookup(sinks, obj, event, c, sink);
      sinks := sinks[obj := PutEvent(events, event, c, sink)];
      PutTable(old(sinks), sinks, obj, event, c, sink);
    }

    method OnUnsubscribe(obj: string, event: string, c: Conn)
      requires WellFormed(sinks)
      modifies this
      ensures WellFormed(sinks)
      ensures forall o, e, d: Conn :: Lookup(sinks, o, e, d)
                == if (o, e, d) == (obj, event, c) then None else Lookup(old(sinks), o, e, d)
      ensures Table(sinks) == Handle(old(Table(sinks)), Unsubscribe(Key(obj, event)), c)
    {
      hide Table;
      ghost var before := sinks;
      if obj !in sinks {
        DropTable(before, sinks, obj, event, c);
        return;
      }
      var events := DropEvent(sinks[obj], event, c);
      DropEventLookup(sinks[obj], event, c);
      ReplaceObjectLookup(sinks, obj, events);
      sinks := ReplaceObject(sinks, obj, events);
      DropTable(before, sinks, obj, event, c);
    }

    /** Sweeps one connection out of every object's event map. */
    method OnConnectionClosed(c: Conn)
      requires WellFormed(sinks)
      modifies this
      ensures WellFormed(sinks)
      ensures forall o, e, d: Conn :: Lookup(sinks, o, e, d) == if d == c then None else Lookup(old(sinks), o, e, d)
      ensures Table(sinks) == set x | x in old(Table(sinks)) && x.conn != c
    {
      hide Table, LookupEvent, Lookup, WellFormed, WellFormedEvents, ReplaceObject;
      AbsentObjects(sinks);
      var objs := sinks.Keys;
      while objs != {}
        invariant objs <= sinks.Keys <= old(sinks).Keys
        invariant WellFormed(sinks)
        invariant forall o, e, d: Conn :: Lookup(sinks, o, e, d)
                    == if o !in objs && d == c then None else Lookup(old(sinks), o, e, d)
        decreases objs
      {
        var obj :| obj in objs;
        objs := objs - {obj};
        ObjectWellFormed(sinks, obj);
        var events := SweepEvents(sinks[obj], c);
        SweptObject(old(sinks), sinks, objs, obj, events, c);
        sinks := ReplaceObject(sinks, obj, events);
      }
      SweptTable(old(sinks), sinks, c);
    }

    /** One frame per matching connection, whether it matches by name, by wildcard or both. */
    method FanOutEvent(name: string, event: string) returns (out: seq<Sink>)
      requires WellFormed(sinks)
      ensures DistinctConns(out)
      ensures Conns(out) == Receivers(Table(sinks), name, event)
      ensures forall s :: s in out ==> Lookup(sinks, name, event, s.conn) == Some(s) || Lookup(sinks, name, "", s.conn) == Some(s)
    {
      out := [];
      var seen: set<Conn> := {};
      if name in sinks {
        if event in sinks[name] {
          WellKeyed(sinks[name], event);
          out, seen := CollectUnseen(sinks[name][event], out, seen);
        }
        // The event's own name IS the wildcard when it is empty.
        if event != "" && "" in sinks[name] {
          WellKeyed(sinks[name], "");
          out, seen := CollectUnseen(sinks[name][""], out, seen);
        }
      }
      ReceiversAre(sinks, name, event, seen);
    }
  }

  function Conns(s: seq<Sink>): set<Conn> {
    set x | x in s :: x.conn
  }

  predicate DistinctConns(s: seq<Sink>) {
    forall i, j :: 0 <= i < j < |s| ==> s[i].conn != s[j].conn
  }

  lemma WellKeyed(m: Events, event: string)
    requires WellFormedEvents(m) && event in m
    ensures forall c :: c in m[event] ==> m[event][c].conn == c
  {
    forall c | c in m[event] ensures m[event][c].conn == c {
      assert LookupEvent(m, event, c).Some?;
    }
  }

  lemma ReceiversAre(m: Sinks, name: string, event: string, seen: set<Conn>)
    requires forall c :: c in seen <==> Lookup(m, name, event, c).Some? || Lookup(m, name, "", c).Some?
    ensures seen == Receivers(Table(m), name, event)
  {
    forall c ensures c in seen <==> c in Receivers(Table(m), name, event) {
      TableMember(m, name, event, c);
      TableMember(m, name, "", c);
      if c in seen {
        var k := if Lookup(m, name, event, c).Some? then Key(name, event) else Key(name, "");
        assert Entry(k, c) in Table(m) && Entry(k, c).conn == c;
      }
    }
  }

  method SweepEvents(events: Events, c: Conn) returns (left: Events)
    requires WellFormedEvents(events)
    ensures WellFormedEvents(left)
    ensures forall e, d: Conn :: LookupEvent(left, e, d) == if d == c then None else LookupEvent(events, e, d)
  {
    left := events;
    var names := events.Keys;
    while names != {}
      invariant names <= left.Keys <= events.Keys
      invariant WellFormedEvents(left)
      invariant forall e, d: Conn :: LookupEvent(left, e, d) == if e !in names && d == c then None else LookupEvent(events, e, d)
      decreases names
    {
      var e :| e in names;
      names := names - {e};
      DropEventLookup(left, e, c);
      left := DropEvent(left, e, c);
    }
  }

  /** Appends the sinks of connections not seen before, in any order. */
  method CollectUnseen(conns: map<Conn, Sink>, before: seq<Sink>, seenBefore: set<Conn>)
    returns (out: seq<Sink>, seen: set<Conn>)
    requires forall c :: c in conns ==> conns[c].conn == c
    requires seenBefore == Conns(before) && DistinctConns(before)
    ensures seen == seenBefore + conns.Keys == Conns(out) && DistinctConns(out)
    ensures forall s :: s in out <==> s in before || (s.conn !in seenBefore && s.conn in conns && s == conns[s.conn])
  {
    out, seen := before, seenBefore;
    var left := conns.Keys;
    while left != {}
      invariant left <= conns.Keys
      invariant seen == seenBefore + (conns.Keys - left) == Conns(out) && DistinctConns(out)
      invariant forall s :: s in out <==> s in before || (s.conn !in seenBefore && s.conn in conns.Keys - left && s == conns[s.conn])
      decreases left
    {
      var c :| c in left;
      left := left - {c};
      if c !in seen {
        assert forall i :: 0 <= i < |out| ==> out[i].conn in Conns(out);
        AppendConn(out, conns[c]);
        out := out + [conns[c]];
        seen := seen + {c};
      }
    }
  }

  lemma AppendConn(s: seq<Sink>, x: Sink)
    ensures Conns(s + [x]) == Conns(s) + {x.conn}
    ensures forall y :: y in s + [x] <==> y in s || y == x
  {
    assert forall y :: y in s + [x] <==> y in s || y == x;
    forall c | c in Conns(s) + {x.conn} ensures c in Conns(s + [x]) {
      if c in Conns(s) {
        var y :| y in s && y.conn == c;
        assert y in s + [x];
      } else {
        assert x in s + [x];
      }
    }
  }
}
