/** Event subscriptions end to end: the consumer's registry (many local
    subscriptions behind one connection), the Subscribe/Unsubscribe frames it puts
    on the wire, and the host's table of one sink per (object, event, connection). */
module EventSubscriptions {

  type SubId = nat
  type Callback = nat
  type Conn = nat

  datatype Key = Key(obj: string, event: string)
  datatype Subscription = Subscription(id: SubId, callback: Callback)
  datatype Frame = Subscribe(key: Key) | Unsubscribe(key: Key)

  /** The consumer's two indexes, both guarded by the connection's mutex. */
  datatype Registry = Registry(subs: map<Key, seq<Subscription>>, keys: map<SubId, Key>)

  const EMPTY := Registry(map[], map[])

  // The subscriptions under a key, in registration order.
  function Under(r: Registry, k: Key): seq<Subscription> {
    if k in r.subs then r.subs[k] else []
  }

  function Without(s: seq<Subscription>, id: SubId): seq<Subscription> {
    if s == [] then []
    else if s[0].id == id then Without(s[1..], id)
    else [s[0]] + Without(s[1..], id)
  }

  function Add(r: Registry, id: SubId, k: Key, cb: Callback): Registry {
    Registry(r.subs[k := Under(r, k) + [Subscription(id, cb)]], r.keys[id := k])
  }

  // The registry after withdrawing `id`, and the frames that go out with it.
  function Withdraw(r: Registry, id: SubId): (Registry, seq<Frame>) {
    if id !in r.keys then (r, [])
    else
      var k := r.keys[id];
      var left := Without(Under(r, k), id);
      if left != [] then (Registry(r.subs[k := left], r.keys - {id}), [])
      else (Registry(r.subs - {k}, r.keys - {id}), [Unsubscribe(k)])
  }

  // ------------------------------------------------------- the two indexes agree

  predicate Registered(s: seq<Subscription>, id: SubId) {
    exists i :: 0 <= i < |s| && s[i].id == id
  }

  predicate DistinctIds(s: seq<Subscription>) {
    forall i, j :: 0 <= i < j < |s| ==> s[i].id != s[j].id
  }

  /** Mutually inverse, no empty list, no id twice. */
  ghost predicate Consistent(r: Registry) {
    && (forall k :: k in r.subs ==> r.subs[k] != [] && DistinctIds(r.subs[k]))
    && (forall k, id :: k in r.subs && Registered(r.subs[k], id) ==> id in r.keys && r.keys[id] == k)
    && (forall id :: id in r.keys ==> r.keys[id] in r.subs && Registered(r.subs[r.keys[id]], id))
  }

  // Withdrawing leaves every other subscription as it was, callback and place included.
  lemma {:induction false} WithoutMembers(s: seq<Subscription>, id: SubId)
    ensures forall x :: x in Without(s, id) <==> x in s && x.id != id
  {
    if s != [] {
      WithoutMembers(s[1..], id);
      assert s == [s[0]] + s[1..];
    }
  }

  lemma WithdrawnMembers(r: Registry, id: SubId, k: Key, x: Subscription)
    requires Consistent(r)
    ensures x in Under(Withdraw(r, id).0, k) <==> x in Under(r, k) && x.id != id
  {
    if x in Under(r, k) {
      var i :| 0 <= i < |Under(r, k)| && Under(r, k)[i] == x;
      assert Registered(r.subs[k], x.id);
    }
    if id in r.keys { WithoutMembers(Under(r, r.keys[id]), id); }
  }

  // Under every key, what is left is what was there but for `id`.
  ghost predicate OthersLeft(m: map<Key, seq<Subscription>>, m': map<Key, seq<Subscription>>, id: SubId) {
    forall k, x :: k in m' && x in m'[k] <==> k in m && x in m[k] && x.id != id
  }

  lemma WithdrawnLists(r: Registry, id: SubId)
    requires Consistent(r)
    ensures var r' := Withdraw(r, id).0;
            r'.keys == r.keys - {id} && OthersLeft(r.subs, r'.subs, id)
  {
    var r' := Withdraw(r, id).0;
    forall k, x ensures k in r'.subs && x in r'.subs[k] <==> k in r.subs && x in r.subs[k] && x.id != id {
      WithdrawnMembers(r, id, k, x);
    }
  }

  lemma {:induction false} WithoutCuts(s: seq<Subscription>, i: nat)
    requires DistinctIds(s) && i < |s|
    ensures Without(s, s[i].id) == s[..i] + s[i + 1..]
  {
    if i == 0 {
      NoneToDrop(s[1..], s[0].id);
    } else {
      WithoutCuts(s[1..], i - 1);
      assert s[1..][..i - 1] == s[1..i] && s[1..][i..] == s[i + 1..];
    }
  }

  lemma {:induction false} NoneToDrop(s: seq<Subscription>, id: SubId)
    requires forall x :: x in s ==> x.id != id
    ensures Without(s, id) == s
  {
    if s != [] { NoneToDrop(s[1..], id); }
  }

  lemma {:induction false} WithoutKeepsTheRest(s: seq<Subscription>, id: SubId)
    ensures forall other :: Registered(Without(s, id), other) <==> Registered(s, other) && other != id
    ensures DistinctIds(s) ==> DistinctIds(Without(s, id))
  {
    if s != [] {
      WithoutKeepsTheRest(s[1..], id);
      var rest := Without(s[1..], id);
      forall other ensures Registered(Without(s, id), other) <==> Registered(s, other) && other != id {
        RegisteredSplit(s, other);
        if s[0].id != id {
          RegisteredSplit([s[0]] + rest, other);
          assert ([s[0]] + rest)[1..] == rest;
        }
      }
      if DistinctIds(s) && s[0].id != id {
        forall j | 0 <= j < |rest| ensures rest[j].id != s[0].id {
          assert Registered(rest, rest[j].id);
          assert Registered(s[1..], rest[j].id);
        }
      }
    }
  }

  lemma RegisteredSplit(s: seq<Subscription>, id: SubId)
    requires s != []
    ensures Registered(s, id) <==> s[0].id == id || Registered(s[1..], id)
  {
    if Registered(s, id) {
      var i :| 0 <= i < |s| && s[i].id == id;
      if i > 0 { assert s[1..][i - 1].id == id; }
    }
    if Registered(s[1..], id) {
      var i :| 0 <= i < |s[1..]| && s[1..][i].id == id;
      assert s[i + 1].id == id;
    }
  }

  lemma AddKeepsConsistent(r: Registry, id: SubId, k: Key, cb: Callback)
    requires Consistent(r) && id !in r.keys
    ensures Consistent(Add(r, id, k, cb))
  {
    var r' := Add(r, id, k, cb);
    var was, now := Under(r, k), r'.subs[k];
    assert now[|was|].id == id;
    forall other ensures Registered(now, other) <==> Registered(was, other) || other == id {
      if Registered(was, other) {
        var i :| 0 <= i < |was| && was[i].id == other;
        assert now[i].id == other;
      }
    }
    forall i | 0 <= i < |was| ensures was[i].id != id {
      assert Registered(was, was[i].id);
    }
  }

  lemma WithdrawKeepsConsistent(r: Registry, id: SubId)
    requires Consistent(r)
    ensures Consistent(Withdraw(r, id).0)
  {
    if id in r.keys {
      var k := r.keys[id];
      var left := Without(r.subs[k], id);
      WithoutKeepsTheRest(r.subs[k], id);
      var r' := Withdraw(r, id).0;
      forall other | other in r'.keys
        ensures r'.keys[other] in r'.subs && Registered(r'.subs[r'.keys[other]], other)
      {
        if r.keys[other] == k { assert Registered(left, other); }
      }
    }
  }

  // ------------------------------------------------------------- wire and host

  /** One entry of the host's table. */
  datatype Entry = Entry(key: Key, conn: Conn)

  function Handle(table: set<Entry>, f: Frame, c: Conn): set<Entry> {
    match f
    case Subscribe(k) => table + {Entry(k, c)}
    case Unsubscribe(k) => table - {Entry(k, c)}
  }

  // What the host's table becomes once every frame of `wire` has been handled.
  function Replay(table: set<Entry>, wire: seq<Frame>, c: Conn): set<Entry>
    decreases |wire|
  {
    if wire == [] then table else Replay(Handle(table, wire[0], c), wire[1..], c)
  }

  function KeysOf(table: set<Entry>, c: Conn): set<Key> {
    set e | e in table && e.conn == c :: e.key
  }

  lemma KeysOfMember(table: set<Entry>, c: Conn, k: Key)
    ensures k in KeysOf(table, c) <==> Entry(k, c) in table
  {
    assert Entry(k, c) in table ==> Entry(k, c).key in KeysOf(table, c);
  }

  lemma {:induction false} ReplayAppend(table: set<Entry>, wire: seq<Frame>, f: Frame, c: Conn)
    ensures Replay(table, wire + [f], c) == Handle(Replay(table, wire, c), f, c)
    decreases |wire|
  {
    if wire == [] {
      assert [f][1..] == [];
      assert wire + [f] == [f];
    } else {
      assert (wire + [f])[1..] == wire[1..] + [f];
      ReplayAppend(Handle(table, wire[0], c), wire[1..], f, c);
    }
  }

  /** Two tables that agree on connection `c` still agree on it after the same replay. */
  lemma {:induction false} ReplayIsLocal(t1: set<Entry>, t2: set<Entry>, wire: seq<Frame>, c: Conn)
    requires forall k :: Entry(k, c) in t1 <==> Entry(k, c) in t2
    ensures forall k :: Entry(k, c) in Replay(t1, wire, c) <==> Entry(k, c) in Replay(t2, wire, c)
    decreases |wire|
  {
    if wire != [] {
      ReplayIsLocal(Handle(t1, wire[0], c), Handle(t2, wire[0], c), wire[1..], c);
    }
  }

  /** One consumer, its connection's wire, and the host's whole table.  `minted` are
      the ids taken from the counter by threads still waiting for the mutex. */
  datatype Link = Link(conn: Conn, reg: Registry, open: bool, nextSub: SubId,
                       minted: set<SubId>, wire: seq<Frame>, table: set<Entry>)

  datatype Step =
    | MintSubId
    | SendSubscribe(id: SubId, key: Key, callback: Callback)
    | SendUnsubscribe(id: SubId)
    | HostHandles                                   // the oldest frame reaches the host
    | OtherFrame(frame: Frame, other: Conn)         // traffic of another connection
    | OtherClosed(other: Conn)
    | Close                                         // fail(): the stopped flag
    | ClearAfterClose                               // fail(): the sweep under the mutex

  ghost predicate Enabled(s: Link, step: Step) {
    match step
    case SendSubscribe(id, _, _) => id in s.minted
    case HostHandles => s.wire != []
    case OtherFrame(_, other) => other != s.conn
    case OtherClosed(other) => other != s.conn
    case ClearAfterClose => !s.open
    case _ => true
  }

  // Frames are dropped once the peer is stopped.
  function Written(s: Link, frames: seq<Frame>): seq<Frame> {
    if s.open then s.wire + frames else s.wire
  }

  function Apply(s: Link, step: Step): Link
    requires Enabled(s, step)
  {
    match step
    case MintSubId =>
      s.(nextSub := s.nextSub + 1, minted := s.minted + {s.nextSub})
    case SendSubscribe(id, k, cb) =>
      s.(reg := Add(s.reg, id, k, cb), minted := s.minted - {id}, wire := Written(s, [Subscribe(k)]))
    case SendUnsubscribe(id) =>
      var (reg, frames) := Withdraw(s.reg, id);
      s.(reg := reg, wire := Written(s, frames))
    case HostHandles =>
      s.(table := Handle(s.table, s.wire[0], s.conn), wire := s.wire[1..])
    case OtherFrame(f, other) =>
      s.(table := Handle(s.table, f, other))
    case OtherClosed(other) =>
      s.(table := set e | e in s.table && e.conn != other)
    case Close =>
      s.(open := false)
    case ClearAfterClose =>
      s.(reg := EMPTY)
  }

  ghost predicate InSync(s: Link) {
    forall k :: Entry(k, s.conn) in Replay(s.table, s.wire, s.conn) <==> k in s.reg.subs
  }

  ghost predicate Inv(s: Link) {
    && Consistent(s.reg)
    && (forall id :: id in s.minted ==> id < s.nextSub && id !in s.reg.keys)
    && (forall id :: id in s.reg.keys ==> id < s.nextSub)
    && (s.open ==> InSync(s))
  }

  lemma StepKeepsInv(s: Link, step: Step)
    requires Inv(s) && Enabled(s, step)
    ensures Inv(Apply(s, step))
  {
    var s' := Apply(s, step);
    match step
    case MintSubId =>
    case SendSubscribe(id, k, cb) =>
      AddKeepsConsistent(s.reg, id, k, cb);
      ReplayAppend(s.table, s.wire, Subscribe(k), s.conn);
    case SendUnsubscribe(id) =>
      WithdrawKeepsConsistent(s.reg, id);
      var frames := Withdraw(s.reg, id).1;
      if frames != [] {
        ReplayAppend(s.table, s.wire, frames[0], s.conn);
        assert frames == [frames[0]];
      } else {
        assert s.wire + frames == s.wire;
      }
    case HostHandles =>
    case OtherFrame(f, other) =>
      ReplayIsLocal(s.table, s'.table, s.wire, s.conn);
    case OtherClosed(other) =>
      ReplayIsLocal(s.table, s'.table, s.wire, s.conn);
    case Close =>
    case ClearAfterClose =>
  }

  // A run, with the step taken from each of its states.
  ghost predicate IsRun(run: seq<Link>, steps: seq<Step>) {
    && |run| == |steps| + 1
    && run[0].reg == EMPTY && run[0].open && run[0].minted == {} && run[0].wire == []
    && KeysOf(run[0].table, run[0].conn) == {}
    && forall i :: 0 <= i < |steps| ==> Enabled(run[i], steps[i]) && run[i + 1] == Apply(run[i], steps[i])
  }

  lemma {:induction false} RunKeepsInv(run: seq<Link>, steps: seq<Step>, n: nat)
    requires IsRun(run, steps) && n < |run|
    ensures Inv(run[n])
  {
    if n == 0 {
      var s := run[0];
      forall k ensures Entry(k, s.conn) !in s.table { KeysOfMember(s.table, s.conn, k); }
    } else {
      RunKeepsInv(run, steps, n - 1);
      StepKeepsInv(run[n - 1], steps[n - 1]);
    }
  }

  /** On an open connection the frames in flight always bring the host's sinks for it
      to exactly the keys that still have a local registration. */
  lemma WireConverges(run: seq<Link>, steps: seq<Step>, n: nat)
    requires IsRun(run, steps) && n < |run| && run[n].open
    ensures KeysOf(Replay(run[n].table, run[n].wire, run[n].conn), run[n].conn) == run[n].reg.subs.Keys
  {
    RunKeepsInv(run, steps, n);
    var s := run[n];
    var t := Replay(s.table, s.wire, s.conn);
    forall k ensures k in KeysOf(t, s.conn) <==> k in s.reg.subs {
      KeysOfMember(t, s.conn, k);
    }
  }

  lemma IndexesStayInverse(run: seq<Link>, steps: seq<Step>, n: nat)
    requires IsRun(run, steps) && n < |run|
    ensures Consistent(run[n].reg)
  {
    RunKeepsInv(run, steps, n);
  }

  /** Every subscription is written, not only the first for its key: whatever the host's
      table has lost, once the frames in flight are handled it has this one again. */
  lemma ResubscribingHeals(s: Link, table: set<Entry>, id: SubId, k: Key, cb: Callback)
    requires Enabled(s, SendSubscribe(id, k, cb)) && s.open
    ensures Entry(k, s.conn) in Replay(table, Apply(s, SendSubscribe(id, k, cb)).wire, s.conn)
  {
    ReplayAppend(table, s.wire, Subscribe(k), s.conn);
  }

  // ------------------------------------------------------------ event delivery

  // The connections one emission writes a frame to.
  function Receivers(table: set<Entry>, obj: string, event: string): set<Conn> {
    set e | e in table && (e.key == Key(obj, event) || e.key == Key(obj, "")) :: e.conn
  }

  // The local subscriptions one Event frame is dispatched to.
  function Listeners(r: Registry, obj: string, event: string): seq<Subscription> {
    Under(r, Key(obj, event)) + (if event != "" then Under(r, Key(obj, "")) else [])
  }

  predicate Wants(r: Registry, id: SubId, obj: string, event: string) {
    id in r.keys && (r.keys[id] == Key(obj, event) || r.keys[id] == Key(obj, ""))
  }

  /** Every subscription under the name or the wildcard is called, and called once. */
  lemma EveryListenerOnce(r: Registry, obj: string, event: string)
    requires Consistent(r)
    ensures DistinctIds(Listeners(r, obj, event))
    ensures forall id :: Registered(Listeners(r, obj, event), id) <==> Wants(r, id, obj, event)
  {
    var named, wild := Under(r, Key(obj, event)), if event != "" then Under(r, Key(obj, "")) else [];
    var all := Listeners(r, obj, event);
    forall id ensures Registered(all, id) <==> Registered(named, id) || Registered(wild, id) {
      if Registered(named, id) {
        var i :| 0 <= i < |named| && named[i].id == id;
        assert all[i].id == id;
      }
      if Registered(wild, id) {
        var i :| 0 <= i < |wild| && wild[i].id == id;
        assert all[|named| + i].id == id;
      }
    }
    forall i, j | 0 <= i < |named| && 0 <= j < |wild| ensures named[i].id != wild[j].id {
      assert Registered(named, named[i].id) && r.keys[named[i].id] == Key(obj, event);
      assert Registered(wild, wild[j].id) && r.keys[wild[j].id] == Key(obj, "");
    }
  }

  lemma ReceivedIffWanted(s: Link, obj: string, event: string)
    requires Inv(s) && s.open && s.wire == []
    ensures s.conn in Receivers(s.table, obj, event) <==> exists id :: Wants(s.reg, id, obj, event)
  {
    assert forall k :: Entry(k, s.conn) in s.table <==> k in s.reg.subs;
    if s.conn in Receivers(s.table, obj, event) {
      var e :| e in s.table && e.conn == s.conn && (e.key == Key(obj, event) || e.key == Key(obj, ""));
      assert e == Entry(e.key, s.conn);
      var first := s.reg.subs[e.key][0];
      assert Registered(s.reg.subs[e.key], first.id);
      assert Wants(s.reg, first.id, obj, event);
    }
    if id :| Wants(s.reg, id, obj, event) {
      assert Entry(s.reg.keys[id], s.conn) in s.table;
    }
  }

  // ---------------------------------------------------------------- whose callbacks

  lemma FiledByStep(s: Link, step: Step, k: Key, x: Subscription)
    requires Inv(s) && Enabled(s, step)
    ensures x in Under(Apply(s, step).reg, k) <==>
              step == SendSubscribe(x.id, k, x.callback) ||
              (x in Under(s.reg, k) && step != SendUnsubscribe(x.id) && step != ClearAfterClose)
  {
    match step
    case SendSubscribe(id, key, cb) =>
      hide InSync, Consistent;
      assert x in Under(s.reg, key) + [Subscription(id, cb)] <==> x in Under(s.reg, key) || x == Subscription(id, cb);
    case SendUnsubscribe(id) =>
      WithdrawnMembers(s.reg, id, k, x);
      hide InSync, Consistent, Withdraw;
    case _ =>
  }

  // Subscribed by the step, with that callback, and neither withdrawn nor swept by `n`.
  predicate Stands(steps: seq<Step>, i: nat, n: nat, k: Key, x: Subscription)
    requires i < n <= |steps|
  {
    && steps[i] == SendSubscribe(x.id, k, x.callback)
    && forall j :: i < j < n ==> steps[j] != SendUnsubscribe(x.id) && steps[j] != ClearAfterClose
  }

  ghost predicate Standing(steps: seq<Step>, n: nat, k: Key, x: Subscription)
    requires n <= |steps|
  {
    exists i :: 0 <= i < n && Stands(steps, i, n, k, x)
  }

  /** Over every run, what is filed under a key is exactly what was subscribed to it, with
      the callback it was subscribed with, and not withdrawn since. */
  lemma {:induction false} FiledIffSubscribed(run: seq<Link>, steps: seq<Step>, n: nat, k: Key, x: Subscription)
    requires IsRun(run, steps) && n < |run|
    ensures x in Under(run[n].reg, k) <==> Standing(steps, n, k, x)
  {
    if n > 0 {
      hide Inv, Apply, Enabled, Under, Standing;
      FiledIffSubscribed(run, steps, n - 1, k, x);
      RunKeepsInv(run, steps, n - 1);
      FiledByStep(run[n - 1], steps[n - 1], k, x);
      StandsOn(steps, n, k, x);
    }
  }

  lemma StandsOn(steps: seq<Step>, n: nat, k: Key, x: Subscription)
    requires 0 < n <= |steps|
    ensures Standing(steps, n, k, x) <==>
              steps[n - 1] == SendSubscribe(x.id, k, x.callback) ||
              (Standing(steps, n - 1, k, x) && steps[n - 1] != SendUnsubscribe(x.id) && steps[n - 1] != ClearAfterClose)
  {
    var m := n - 1;
    if steps[m] == SendSubscribe(x.id, k, x.callback) { assert Stands(steps, m, n, k, x); }
    if i :| 0 <= i < m && Stands(steps, i, m, k, x) {
      if steps[n - 1] != SendUnsubscribe(x.id) && steps[n - 1] != ClearAfterClose { assert Stands(steps, i, n, k, x); }
    }
    if i :| 0 <= i < n && Stands(steps, i, n, k, x) {
      if i < n - 1 { assert Stands(steps, i, n - 1, k, x); }
    }
  }

  /** So one event frame calls exactly the callbacks subscribed to its name, or to every
      event of its object, and still standing. */
  lemma CallsTheSubscribed(run: seq<Link>, steps: seq<Step>, n: nat, obj: string, event: string, x: Subscription)
    requires IsRun(run, steps) && n < |run|
    ensures x in Listeners(run[n].reg, obj, event) <==>
              Standing(steps, n, Key(obj, event), x) || Standing(steps, n, Key(obj, ""), x)
  {
    FiledIffSubscribed(run, steps, n, Key(obj, event), x);
    FiledIffSubscribed(run, steps, n, Key(obj, ""), x);
    hide IsRun, Standing, Under;
    assert x in Listeners(run[n].reg, obj, event) <==> x in Under(run[n].reg, Key(obj, event)) || x in Under(run[n].reg, Key(obj, ""));
  }

  /** Once the wire is quiet, an emission reaches this connection exactly when some
      local subscription asks for the event by name or by wildcard. */
  lemma EmissionReachesExactlyTheSubscribed(run: seq<Link>, steps: seq<Step>, n: nat, obj: string, event: string)
    requires IsRun(run, steps) && n < |run| && run[n].open && run[n].wire == []
    ensures run[n].conn in Receivers(run[n].table, obj, event)
       <==> exists id :: Wants(run[n].reg, id, obj, event)
  {
    RunKeepsInv(run, steps, n);
    ReceivedIffWanted(run[n], obj, event);
  }
}
