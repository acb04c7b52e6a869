/** Length-prefixed frames: the encoder, the incremental reader and the loop around it,
    and the strand's write queue at the other end. */
module Framing {
  import opened Wrappers

  type Byte = x: int | 0 <= x < 256

  // The greatest length a prefix may name: one tag byte and the payload.
  const CAP := 16 * 1024 * 1024

  datatype Error = TooLarge | ZeroLength | OverCap
  datatype Frame = Frame(tag: Byte, payload: seq<Byte>)

  // ---------------------------------------------------------------- one frame as bytes

  // Big-endian, as a 32-bit length is shifted out.
  function Be32(n: nat): seq<Byte>
    requires n < 0x1_0000_0000
  {
    [n / 0x100_0000, n / 0x1_0000 % 256, n / 0x100 % 256, n % 256]
  }

  function ReadBe32(b: seq<Byte>): nat
    requires |b| >= 4
  {
    (b[0] as int) * 0x100_0000 + (b[1] as int) * 0x1_0000 + (b[2] as int) * 0x100 + b[3] as int
  }

  lemma Be32RoundTrip(n: nat, rest: seq<Byte>)
    requires n < 0x1_0000_0000
    ensures ReadBe32(Be32(n) + rest) == n
  {
    assert n == n / 0x100 * 0x100 + n % 0x100;
    assert n / 0x100 == n / 0x1_0000 * 0x100 + n / 0x100 % 0x100;
    assert n / 0x1_0000 == n / 0x100_0000 * 0x100 + n / 0x1_0000 % 0x100;
  }

  lemma ReadBe32RoundTrip(b: seq<Byte>)
    requires |b| >= 4
    ensures ReadBe32(b) < 0x1_0000_0000 && Be32(ReadBe32(b)) == b[..4]
  {
    var n := ReadBe32(b);
    assert n / 0x100 == (b[0] as int) * 0x1_0000 + (b[1] as int) * 0x100 + b[2] as int && n % 0x100 == b[3];
    assert n / 0x1_0000 == (b[0] as int) * 0x100 + b[1] as int && n / 0x100 % 0x100 == b[2];
    assert n / 0x100_0000 == b[0] && n / 0x1_0000 % 0x100 == b[1];
  }

  predicate Fits(f: Frame) {
    1 + |f.payload| <= CAP
  }

  function Bytes(f: Frame): seq<Byte>
    requires Fits(f)
  {
    Be32(1 + |f.payload|) + [f.tag] + f.payload
  }

  function Encode(f: Frame): Result<seq<Byte>, Error> {
    if Fits(f) then Ok(Bytes(f)) else Err(TooLarge)
  }

  method EncodeFrame(tag: Byte, payload: seq<Byte>) returns (r: Result<seq<Byte>, Error>)
    ensures r.Ok? <==> 1 + |payload| <= 16 * 1024 * 1024
    ensures r.Ok? ==>
              var n := 1 + |payload|;
              r.value == [n / 0x100_0000, n / 0x1_0000 % 256, n / 0x100 % 256, n % 256, tag] + payload
    ensures r == Encode(Frame(tag, payload))
  {
    var bodyLen := 1 + |payload|;
    if bodyLen > CAP { return Err(TooLarge); }
    var out: seq<Byte> := [];
    out := out + [bodyLen / 0x100_0000];
    out := out + [bodyLen / 0x1_0000 % 256];
    out := out + [bodyLen / 0x100 % 256];
    out := out + [bodyLen % 256];
    assert out == Be32(bodyLen);
    out := out + [tag];
    out := out + payload;
    return Ok(out);
  }

  // ----------------------------------------------------------------------- the reader

  datatype Next = NeedMore | Got(frame: Frame, rest: seq<Byte>) | Corrupt(error: Error)

  function Take(buf: seq<Byte>): (r: Next)
    ensures r.Got? ==> |r.rest| < |buf|
  {
    if |buf| < 4 then NeedMore
    else
      var n := ReadBe32(buf);
      if n == 0 then Corrupt(ZeroLength)
      else if n > CAP then Corrupt(OverCap)
      else if |buf| < 4 + n then NeedMore
      else Got(Frame(buf[4], buf[5..4 + n]), buf[4 + n..])
  }

  lemma TakeIsBytes(buf: seq<Byte>)
    requires Take(buf).Got?
    ensures Fits(Take(buf).frame) && buf == Bytes(Take(buf).frame) + Take(buf).rest
  {
    var n := ReadBe32(buf);
    ReadBe32RoundTrip(buf);
    assert buf == buf[..4] + [buf[4]] + buf[5..4 + n] + buf[4 + n..];
  }

  class FrameReader {
    var buf: seq<Byte>

    constructor ()
      ensures buf == []
    {
      buf := [];
    }

    method Append(chunk: seq<Byte>)
      modifies this
      ensures buf == old(buf) + chunk
    {
      buf := buf + chunk;
    }

    // One frame, if the buffer holds a whole one; an error is thrown for good.
    method Next() returns (r: Next)
      modifies this
      ensures r.Got? ==>
                var n := 1 + |r.frame.payload|;
                && n <= 16 * 1024 * 1024
                && old(buf) == [n / 0x100_0000, n / 0x1_0000 % 256, n / 0x100 % 256, n % 256, r.frame.tag] + r.frame.payload + r.rest
      ensures r == Take(old(buf))
      ensures buf == if r.Got? then r.rest else old(buf)
    {
      if Take(buf).Got? { TakeIsBytes(buf); }
      hide ReadBe32;
      if |buf| < 4 { return NeedMore; }
      var bodyLen := ReadBe32(buf);
      if bodyLen == 0 { return Corrupt(ZeroLength); }
      if bodyLen > CAP { return Corrupt(OverCap); }
      var total := 4 + bodyLen;
      if |buf| < total { return NeedMore; }
      var tag := buf[4];
      var payload := buf[5..total];
      buf := buf[total..];
      return Got(Frame(tag, payload), buf);
    }
  }

  // Everything a reader yields from these bytes: the frames, then what stopped it.
  datatype Drained = Drained(frames: seq<Frame>, rest: seq<Byte>, stop: Next)

  function Drain(buf: seq<Byte>): (d: Drained)
    decreases |buf|
  {
    match Take(buf)
    case Got(f, rest) => var d := Drain(rest); Drained([f] + d.frames, d.rest, d.stop)
    case other => Drained([], buf, other)
  }

  lemma TakeExtends(a: seq<Byte>, b: seq<Byte>)
    ensures Take(a).Got? ==> Take(a + b) == Got(Take(a).frame, Take(a).rest + b)
    ensures Take(a).Corrupt? ==> Take(a + b) == Take(a)
  {
    if |a| >= 4 {
      assert (a + b)[..4] == a[..4];
      assert ReadBe32(a + b) == ReadBe32(a);
      if Take(a).Got? {
        var n := ReadBe32(a);
        assert (a + b)[5..4 + n] == a[5..4 + n] && (a + b)[4 + n..] == a[4 + n..] + b;
      }
    }
  }

  /** Bytes that come later change nothing about the frames already complete, and nothing
      at all once the stream is corrupt. */
  lemma {:induction false} DrainSplits(a: seq<Byte>, b: seq<Byte>)
    ensures Drain(a).stop.Corrupt? ==> Drain(a + b).frames == Drain(a).frames && Drain(a + b).stop == Drain(a).stop
    ensures Drain(a).stop.NeedMore? ==>
              var d := Drain(Drain(a).rest + b); Drain(a + b) == Drained(Drain(a).frames + d.frames, d.rest, d.stop)
    ensures !Drain(a).stop.Got?
    decreases |a|
  {
    TakeExtends(a, b);
    hide Take;
    if Take(a).Got? {
      DrainSplits(Take(a).rest, b);
    }
  }

  // --------------------------------------------- append and next, in any interleaving

  datatype Op = Append(chunk: seq<Byte>) | Pull

  // What a reader holding `buf` hands over, and what it is left with, if nothing throws.
  datatype Pulled = Pulled(frames: seq<Frame>, buf: seq<Byte>, thrown: bool)

  function Perform(ops: seq<Op>, buf: seq<Byte>): Pulled
    decreases |ops|
  {
    if ops == [] then Pulled([], buf, false)
    else match ops[0]
      case Append(chunk) => Perform(ops[1..], buf + chunk)
      case Pull =>
        match Take(buf)
        case NeedMore => Perform(ops[1..], buf)
        case Corrupt(_) => Pulled([], buf, true)
        case Got(f, rest) => var p := Perform(ops[1..], rest); p.(frames := [f] + p.frames)
  }

  function Appended(ops: seq<Op>): seq<Byte>
    decreases |ops|
  {
    if ops == [] then []
    else (if ops[0].Append? then ops[0].chunk else []) + Appended(ops[1..])
  }

  lemma DrainOnce(buf: seq<Byte>)
    ensures Take(buf).Got? ==> var d := Drain(Take(buf).rest); Drain(buf) == Drained([Take(buf).frame] + d.frames, d.rest, d.stop)
    ensures !Take(buf).Got? ==> Drain(buf) == Drained([], buf, Take(buf))
  {
    hide Take;
  }

  // What was handed over, and what the reader can still yield, make up the whole.
  ghost predicate Accounts(p: Pulled, all: Drained) {
    if p.thrown then all.frames == p.frames && all.stop == Take(p.buf)
    else var d := Drain(p.buf); all == Drained(p.frames + d.frames, d.rest, d.stop)
  }

  lemma OneMoreAccounted(p: Pulled, all: Drained, f: Frame)
    requires Accounts(p, all)
    ensures Accounts(p.(frames := [f] + p.frames), Drained([f] + all.frames, all.rest, all.stop))
  {
    hide Take, Drain;
    var d := Drain(p.buf);
    assert [f] + (p.frames + d.frames) == ([f] + p.frames) + d.frames;
  }

  /** However appends and pulls are interleaved, the frames handed over so far and those
      the reader can still yield are the frames of the whole stream, in order. */
  lemma {:induction false} AnyInterleavingReadsTheStream(ops: seq<Op>, buf: seq<Byte>)
    ensures Accounts(Perform(ops, buf), Drain(buf + Appended(ops)))
    decreases |ops|
  {
    if ops == [] {
      assert buf + Appended(ops) == buf;
    } else {
      hide Take, Drain;
      var more := Appended(ops[1..]);
      match ops[0]
      case Append(chunk) =>
        hide Accounts;
        AnyInterleavingReadsTheStream(ops[1..], buf + chunk);
        assert buf + Appended(ops) == (buf + chunk) + more;
      case Pull =>
        assert Appended(ops) == more;
        TakeExtends(buf, more);
        DrainOnce(buf + more);
        match Take(buf)
        case NeedMore =>
          hide Accounts;
          AnyInterleavingReadsTheStream(ops[1..], buf);
        case Corrupt(_) =>
        case Got(f, rest) =>
          hide Accounts;
          AnyInterleavingReadsTheStream(ops[1..], rest);
          OneMoreAccounted(Perform(ops[1..], rest), Drain(rest + more), f);
    }
  }

  // -------------------------------------------------------------- the two directions

  predicate AllFit(fs: seq<Frame>) {
    forall f :: f in fs ==> Fits(f)
  }

  function Stream(fs: seq<Frame>): seq<Byte>
    requires AllFit(fs)
  {
    if fs == [] then [] else
      assert forall f :: f in fs[1..] ==> f in fs;
      Bytes(fs[0]) + Stream(fs[1..])
  }

  lemma TakeReadsBytes(f: Frame, rest: seq<Byte>)
    requires Fits(f)
    ensures Take(Bytes(f) + rest) == Got(f, rest)
  {
    var n, s := 1 + |f.payload|, Bytes(f) + rest;
    assert s == Be32(n) + ([f.tag] + f.payload + rest);
    Be32RoundTrip(n, [f.tag] + f.payload + rest);
    assert s[5..4 + n] == f.payload && s[4 + n..] == rest;
  }

  /** Frames written one after the other are read back, in order, and nothing is left. */
  lemma {:induction false} DrainReadsStream(fs: seq<Frame>, rest: seq<Byte>)
    requires AllFit(fs)
    ensures Drain(Stream(fs) + rest) == Drained(fs + Drain(rest).frames, Drain(rest).rest, Drain(rest).stop)
    decreases |fs|
  {
    hide Take, Bytes, Fits;
    if fs == [] {
      assert Stream(fs) + rest == rest;
    } else {
      assert forall f :: f in fs[1..] ==> f in fs;
      assert Stream(fs) + rest == Bytes(fs[0]) + (Stream(fs[1..]) + rest);
      var more := Stream(fs[1..]) + rest;
      TakeReadsBytes(fs[0], more);
      DrainOnce(Bytes(fs[0]) + more);
      hide Drain;
      DrainReadsStream(fs[1..], rest);
      assert fs == [fs[0]] + fs[1..];
      assert fs + Drain(rest).frames == [fs[0]] + (fs[1..] + Drain(rest).frames);
    }
  }

  /** Conversely, the bytes are exactly the frames read from them and the unread rest. */
  lemma {:induction false} StreamRestoresBytes(buf: seq<Byte>)
    ensures AllFit(Drain(buf).frames) && buf == Stream(Drain(buf).frames) + Drain(buf).rest
    decreases |buf|
  {
    hide Take, Bytes, Fits;
    if Take(buf).Got? {
      TakeIsBytes(buf);
      StreamRestoresBytes(Take(buf).rest);
      assert Drain(buf).frames[1..] == Drain(Take(buf).rest).frames;
      assert Stream(Drain(buf).frames) == Bytes(Take(buf).frame) + Stream(Drain(Take(buf).rest).frames);
    } else {
      assert Stream([]) + buf == buf;
    }
  }
}
