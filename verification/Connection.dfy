/** One connection: the read loop that turns chunks into frames, the strand's write queue,
    and the two of them at the ends of one byte stream. */
module Connection {
  import opened Framing

  // ---------------------------------------------------------------------- reading

  datatype Reading = Reading(buf: seq<Byte>, delivered: seq<Frame>, stopped: bool)

  function OnBytes(c: Reading, chunk: seq<Byte>): Reading {
    if c.stopped then c
    else
      var d := Drain(c.buf + chunk);
      Reading(d.rest, c.delivered + d.frames, d.stop.Corrupt?)
  }

  function OnChunks(c: Reading, chunks: seq<seq<Byte>>): Reading
    decreases |chunks|
  {
    if chunks == [] then c else OnChunks(OnBytes(c, chunks[0]), chunks[1..])
  }

  function Joined(chunks: seq<seq<Byte>>): seq<Byte> {
    if chunks == [] then [] else chunks[0] + Joined(chunks[1..])
  }

  class RpcConnection {
    const reader: FrameReader
    var delivered: seq<Frame>
    var stopped: bool

    constructor ()
      ensures View() == Reading([], [], false) && fresh(reader)
    {
      reader := new FrameReader();
      delivered := [];
      stopped := false;
    }

    ghost function View(): Reading
      reads this, reader
    {
      Reading(reader.buf, delivered, stopped)
    }

    // A read completed: append, then hand over every whole frame there is.
    method OnRead(chunk: seq<Byte>)
      modifies this, reader
      ensures View() == OnBytes(old(View()), chunk)
    {
      hide Drain, Take;
      if stopped { return; }
      reader.Append(chunk);
      DrainOnce(reader.buf);
      ghost var all := Drain(reader.buf);
      ghost var before := delivered;
      var r := reader.Next();
      while r.Got?
        invariant !stopped && r.Got? ==> reader.buf == r.rest
        invariant !stopped
        invariant r.Got? ==> before + all.frames == delivered + [r.frame] + Drain(r.rest).frames
        invariant r.Got? ==> Drain(r.rest).rest == all.rest && Drain(r.rest).stop == all.stop
        invariant !r.Got? ==> before + all.frames == delivered && reader.buf == all.rest && r == all.stop
        decreases r.Got?, |reader.buf|
      {
        delivered := delivered + [r.frame];
        DrainOnce(reader.buf);
        assert delivered + Drain(reader.buf).frames == before + all.frames;
        r := reader.Next();
      }
      if r.Corrupt? { stopped := true; }
    }
  }

  // Nothing delivered is lost or changed by reading `first` and then `more`.
  lemma OneChunk(c: Reading, first: seq<Byte>, more: seq<Byte>)
    requires !c.stopped
    ensures var c1, whole := OnBytes(c, first), Drain(c.buf + first + more);
            && (c1.stopped ==> c1.delivered == c.delivered + whole.frames && whole.stop.Corrupt?)
            && (!c1.stopped ==> var d := Drain(c1.buf + more);
                                c1.delivered + d.frames == c.delivered + whole.frames && d.stop == whole.stop
                                && Drain(c1.buf) == Drained([], c1.buf, NeedMore))
  {
    DrainSplits(c.buf + first, more);
    DrainStops(c.buf + first);
    hide Drain;
    var d1 := Drain(c.buf + first);
    var d := Drain(d1.rest + more);
    assert c.delivered + (d1.frames + d.frames) == (c.delivered + d1.frames) + d.frames;
  }

  /** How the stream was cut into chunks does not matter: the frames handed over, and
      whether the connection was failed, depend on the bytes alone. */
  lemma {:induction false} ChunksDoNotMatter(c: Reading, chunks: seq<seq<Byte>>)
    requires !c.stopped && Drain(c.buf) == Drained([], c.buf, NeedMore)
    ensures OnChunks(c, chunks).delivered == c.delivered + Drain(c.buf + Joined(chunks)).frames
    ensures OnChunks(c, chunks).stopped == Drain(c.buf + Joined(chunks)).stop.Corrupt?
    decreases |chunks|
  {
    if chunks == [] {
      assert c.buf + Joined(chunks) == c.buf;
    } else {
      hide Drain, OnBytes;
      var more := Joined(chunks[1..]);
      assert c.buf + Joined(chunks) == c.buf + chunks[0] + more;
      OneChunk(c, chunks[0], more);
      var c1 := OnBytes(c, chunks[0]);
      if c1.stopped {
        StoppedStays(c1, chunks[1..]);
      } else {
        ChunksDoNotMatter(c1, chunks[1..]);
      }
    }
  }

  lemma {:induction false} DrainStops(buf: seq<Byte>)
    ensures Drain(Drain(buf).rest) == Drained([], Drain(buf).rest, Drain(buf).stop)
    decreases |buf|
  {
    if Take(buf).Got? { DrainStops(Take(buf).rest); }
  }

  lemma {:induction false} StoppedStays(c: Reading, chunks: seq<seq<Byte>>)
    requires c.stopped
    ensures OnChunks(c, chunks) == c
    decreases |chunks|
  {
    if chunks != [] { StoppedStays(c, chunks[1..]); }
  }

  // ---------------------------------------------------------------------- writing

  /** The write side on its strand.  `asked` is every frame passed to writeFrame while it
      still took any, `accepted` those its handlers queued; `outstanding` counts the
      async_writes in flight, `sent` how much of the front frame has gone out, and
      `wire` is every byte that has. */
  datatype Writer = Writer(asked: seq<seq<Byte>>, posted: seq<seq<Byte>>, accepted: seq<seq<Byte>>,
                           queue: seq<seq<Byte>>, writing: bool, outstanding: nat, sent: nat,
                           wire: seq<Byte>, stopped: bool)

  datatype Step =
    | WriteFrame(frame: seq<Byte>)
    | RunPosted
    | Progress(k: nat)
    | Written(ok: bool)
    | Fail

  ghost predicate Enabled(w: Writer, st: Step) {
    match st
    case WriteFrame(_) => true
    case RunPosted => w.posted != []
    case Progress(k) => w.outstanding > 0 && w.queue != [] && w.sent + k <= |w.queue[0]|
    case Written(ok) => w.outstanding > 0 && (ok ==> w.queue != [] && w.sent == |w.queue[0]|)
    case Fail => true
  }

  // Starts the one async_write, unless the connection is going down.
  function DoWrite(w: Writer): Writer {
    if w.stopped then w.(writing := false) else w.(outstanding := w.outstanding + 1, sent := 0)
  }

  function Apply(w: Writer, st: Step): Writer
    requires Enabled(w, st)
  {
    match st
    case WriteFrame(f) => if w.stopped then w else w.(asked := w.asked + [f], posted := w.posted + [f])
    case RunPosted =>
      var w1 := w.(posted := w.posted[1..]);
      if w.stopped then w1
      else
        var w2 := w1.(queue := w.queue + [w.posted[0]], accepted := w.accepted + [w.posted[0]]);
        if w.writing then w2 else DoWrite(w2.(writing := true))
    case Progress(k) => w.(sent := w.sent + k, wire := w.wire + w.queue[0][w.sent..w.sent + k])
    case Written(ok) =>
      var w1 := w.(outstanding := w.outstanding - 1);
      if !ok then w1.(stopped := true)
      else
        var w2 := w1.(queue := w.queue[1..], sent := 0);
        if w2.queue == [] then w2.(writing := false) else DoWrite(w2)
    case Fail => w.(stopped := true)
  }

  // The frames already out, and the part of the front one that is.
  ghost predicate WireOk(w: Writer, done: seq<seq<Byte>>) {
    && w.accepted == done + w.queue
    && (w.queue == [] ==> w.sent == 0)
    && (w.queue != [] ==> w.sent <= |w.queue[0]|)
    && w.wire == Joined(done) + if w.queue == [] then [] else w.queue[0][..w.sent]
  }

  ghost predicate Inv(w: Writer) {
    && (exists done :: WireOk(w, done))
    && w.outstanding <= 1
    && (w.outstanding == 1 ==> w.writing && w.queue != [])
    && (!w.stopped ==> w.asked == w.accepted + w.posted && (w.writing <==> w.queue != []) && (w.writing <==> w.outstanding == 1))
    && w.accepted <= w.asked
  }

  const IDLE := Writer([], [], [], [], false, 0, 0, [], false)

  lemma IdleInv()
    ensures Inv(IDLE)
  {
    assert WireOk(IDLE, []);
  }

  lemma {:induction false} JoinedSnoc(a: seq<seq<Byte>>, f: seq<Byte>)
    ensures Joined(a + [f]) == Joined(a) + f
  {
    if a == [] {
      assert a + [f] == [f];
      assert [f][1..] == [];
    } else {
      assert (a + [f])[1..] == a[1..] + [f];
      JoinedSnoc(a[1..], f);
    }
  }

  lemma StepKeepsInv(w: Writer, st: Step)
    requires Inv(w) && Enabled(w, st)
    ensures Inv(Apply(w, st))
  {
    var done :| WireOk(w, done);
    var w' := Apply(w, st);
    match st
    case WriteFrame(f) => assert WireOk(w', done);
    case RunPosted => PostedKeeps(w, done);
    case Progress(k) => ProgressKeeps(w, k, done);
    case Written(ok) => WrittenKeeps(w, ok, done);
    case Fail => assert WireOk(w', done);
  }

  lemma ProgressKeeps(w: Writer, k: nat, done: seq<seq<Byte>>)
    requires Inv(w) && WireOk(w, done) && Enabled(w, Progress(k))
    ensures Inv(Apply(w, Progress(k)))
  {
    assert w.queue[0][..w.sent + k] == w.queue[0][..w.sent] + w.queue[0][w.sent..w.sent + k];
    assert WireOk(Apply(w, Progress(k)), done);
  }

  lemma PostedKeeps(w: Writer, done: seq<seq<Byte>>)
    requires Inv(w) && WireOk(w, done) && w.posted != []
    ensures Inv(Apply(w, RunPosted))
  {
    var w' := Apply(w, RunPosted);
    if !w.stopped {
      assert w'.accepted == done + w'.queue;
      assert w.posted == [w.posted[0]] + w.posted[1..];
    }
    assert WireOk(w', done);
  }

  lemma WrittenKeeps(w: Writer, ok: bool, done: seq<seq<Byte>>)
    requires Inv(w) && WireOk(w, done) && Enabled(w, Written(ok))
    ensures Inv(Apply(w, Written(ok)))
  {
    if ok {
      JoinedSnoc(done, w.queue[0]);
      assert w.queue[0][..w.sent] == w.queue[0];
      assert done + w.queue == (done + [w.queue[0]]) + w.queue[1..];
      assert WireOk(Apply(w, Written(ok)), done + [w.queue[0]]);
    } else {
      assert WireOk(Apply(w, Written(ok)), done);
    }
  }

  ghost predicate Run(w: Writer, steps: seq<Step>)
    decreases |steps|
  {
    steps == [] || (Enabled(w, steps[0]) && Run(Apply(w, steps[0]), steps[1..]))
  }

  function End(w: Writer, steps: seq<Step>): Writer
    requires Run(w, steps)
    decreases |steps|
  {
    if steps == [] then w else End(Apply(w, steps[0]), steps[1..])
  }

  lemma {:induction false} RunKeepsInv(w: Writer, steps: seq<Step>)
    requires Inv(w) && Run(w, steps)
    ensures Inv(End(w, steps))
    decreases |steps|
  {
    if steps != [] {
      StepKeepsInv(w, steps[0]);
      hide Inv;
      RunKeepsInv(Apply(w, steps[0]), steps[1..]);
    }
  }

  lemma {:induction false} JoinedPrefix(a: seq<seq<Byte>>, b: seq<seq<Byte>>)
    ensures Joined(a + b) == Joined(a) + Joined(b)
  {
    if a == [] {
      assert a + b == b;
    } else {
      assert (a + b)[1..] == a[1..] + b;
      JoinedPrefix(a[1..], b);
    }
  }

  lemma WireWithin(w: Writer, done: seq<seq<Byte>>)
    requires WireOk(w, done)
    ensures w.wire <= Joined(w.accepted)
  {
    JoinedPrefix(done, w.queue);
    if w.queue != [] {
      assert Joined(w.queue) == w.queue[0] + Joined(w.queue[1..]);
      assert w.queue[0] == w.queue[0][..w.sent] + w.queue[0][w.sent..];
    }
  }

  lemma AcceptedWithin(accepted: seq<seq<Byte>>, asked: seq<seq<Byte>>)
    requires accepted <= asked
    ensures Joined(accepted) <= Joined(asked)
  {
    var later := asked[|accepted|..];
    assert asked == accepted + later;
    JoinedPrefix(accepted, later);
  }

  /** At every moment of every run there is at most one write in flight, and what has gone
      out is a prefix of the frames in the order they were asked for. */
  lemma OneWriteAtATimeInOrder(steps: seq<Step>)
    requires Run(IDLE, steps)
    ensures End(IDLE, steps).outstanding <= 1
    ensures End(IDLE, steps).wire <= Joined(End(IDLE, steps).asked)
  {
    IdleInv();
    RunKeepsInv(IDLE, steps);
    var w := End(IDLE, steps);
    hide Run, End, WireOk, Joined;
    var done :| WireOk(w, done);
    WireWithin(w, done);
    AcceptedWithin(w.accepted, w.asked);
  }

  /** A connection that did not fail and has come to rest has written everything. */
  lemma RestMeansAllWritten(steps: seq<Step>)
    requires Run(IDLE, steps)
    ensures var w := End(IDLE, steps); !w.stopped && w.posted == [] && w.outstanding == 0 ==> w.wire == Joined(w.asked)
  {
    IdleInv();
    RunKeepsInv(IDLE, steps);
    var w := End(IDLE, steps);
    hide Run, End, Joined;
    var done :| WireOk(w, done);
    assert done + [] == done;
    assert w.accepted + [] == w.accepted;
  }

  // The write side as the connection performs it; the ghost fields are the record.
  class StrandWriter {
    var writeQueue: seq<seq<Byte>>
    var writing: bool
    var stopped: bool
    var posted: seq<seq<Byte>>
    ghost var asked: seq<seq<Byte>>
    ghost var accepted: seq<seq<Byte>>
    ghost var outstanding: nat
    ghost var sent: nat
    ghost var wire: seq<Byte>

    constructor ()
      ensures View() == IDLE
    {
      writeQueue, writing, stopped, posted := [], false, false, [];
      asked, accepted, outstanding, sent, wire := [], [], 0, 0, [];
    }

    ghost function View(): Writer
      reads this
    {
      Writer(asked, posted, accepted, writeQueue, writing, outstanding, sent, wire, stopped)
    }

    method WriteFrame(frame: seq<Byte>)
      modifies this
      ensures View() == Apply(old(View()), Step.WriteFrame(frame))
    {
      if stopped { return; }
      posted := posted + [frame];
      asked := asked + [frame];
    }

    // The handler a WriteFrame posted, on the strand.
    method RunPosted()
      requires posted != []
      modifies this
      ensures View() == Apply(old(View()), Step.RunPosted)
    {
      var frame := posted[0];
      posted := posted[1..];
      if stopped { return; }
      writeQueue := writeQueue + [frame];
      accepted := accepted + [frame];
      if !writing {
        writing := true;
        StartWrite();
      }
    }

    method StartWrite()
      modifies this
      ensures View() == DoWrite(old(View()))
    {
      if stopped {
        writing := false;
        return;
      }
      outstanding := outstanding + 1;
      sent := 0;
    }

    // An async_write completed.
    method OnWritten(ok: bool)
      requires outstanding > 0 && (ok ==> writeQueue != [] && sent == |writeQueue[0]|)
      modifies this
      ensures View() == Apply(old(View()), Written(ok))
    {
      outstanding := outstanding - 1;
      if !ok {
        stopped := true;
        return;
      }
      writeQueue := writeQueue[1..];
      sent := 0;
      if writeQueue == [] {
        writing := false;
      } else {
        StartWrite();
      }
    }
  }

  // ------------------------------------------------------------------ end to end

  function Encoded(fs: seq<Frame>): seq<seq<Byte>>
    requires AllFit(fs)
  {
    seq(|fs|, i requires 0 <= i < |fs| => Bytes(fs[i]))
  }

  lemma {:induction false} JoinedIsStream(fs: seq<Frame>)
    requires AllFit(fs)
    ensures Joined(Encoded(fs)) == Stream(fs)
  {
    if fs != [] {
      assert forall f :: f in fs[1..] ==> f in fs;
      assert Encoded(fs)[1..] == Encoded(fs[1..]);
      JoinedIsStream(fs[1..]);
    }
  }

  /** Reading any prefix of a well-formed stream yields a prefix of its frames, and never
      an error. */
  lemma {:induction false} PrefixOfStream(fs: seq<Frame>, p: seq<Byte>)
    requires AllFit(fs) && p <= Stream(fs)
    ensures Drain(p).frames <= fs && Drain(p).stop == NeedMore
    ensures p == Stream(fs) ==> Drain(p).frames == fs
    decreases |fs|
  {
    DrainOnce(p);
    if fs == [] {
      return;
    }
    hide Take, Bytes, Drain, Fits;
    assert forall f :: f in fs[1..] ==> f in fs;
    var b := Bytes(fs[0]);
    assert Stream(fs) == b + Stream(fs[1..]);
    if |p| < |b| {
      ShortIsPending(fs[0], p, Stream(fs));
    } else {
      var rest := p[|b|..];
      assert p == b + rest;
      assert rest <= Stream(fs[1..]) by { assert Stream(fs)[|b|..] == Stream(fs[1..]); }
      TakeReadsBytes(fs[0], rest);
      PrefixOfStream(fs[1..], rest);
      assert fs == [fs[0]] + fs[1..];
    }
  }

  lemma ShortIsPending(f: Frame, p: seq<Byte>, s: seq<Byte>)
    requires Fits(f) && |p| < |Bytes(f)| && Bytes(f) <= s && p <= s
    ensures Take(p) == NeedMore
  {
    var n := 1 + |f.payload|;
    if |p| >= 4 {
      assert p[..4] == s[..4] == Bytes(f)[..4] == Be32(n);
      Be32RoundTrip(n, p[4..]);
      assert p == Be32(n) + p[4..];
    }
  }

  lemma NothingYet()
    ensures Drain([]) == Drained([], [], NeedMore)
  {
  }

  /** End to end: whatever the writer's run, and however the bytes that went out are cut
      into chunks, the other end is handed a prefix of the frames in the order they were
      asked for, without error; and all of them if all of the bytes arrive. */
  lemma FramesArriveInOrder(fs: seq<Frame>, steps: seq<Step>, chunks: seq<seq<Byte>>)
    requires AllFit(fs) && Run(IDLE, steps) && End(IDLE, steps).asked == Encoded(fs)
    requires Joined(chunks) <= End(IDLE, steps).wire
    ensures var c := OnChunks(Reading([], [], false), chunks);
            && c.delivered <= fs && !c.stopped
            && (Joined(chunks) == Joined(Encoded(fs)) ==> c.delivered == fs)
  {
    OneWriteAtATimeInOrder(steps);
    hide Run, End, OnChunks, Drain, Joined, Encoded, Stream, AllFit;
    JoinedIsStream(fs);
    NothingYet();
    PrefixOfStream(fs, Joined(chunks));
    ChunksDoNotMatter(Reading([], [], false), chunks);
    assert [] + Joined(chunks) == Joined(chunks);
  }
}
