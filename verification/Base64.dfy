/** base64url without padding (section 5 of RFC 4648): the encoder, the tolerant decoder
    and the strict one, with the decoders' 32-bit shift buffer that is never masked. */
module Base64 {
  import opened Wrappers

  type Bytes = seq<bv8>

  const UPPER := "ABCDEFGHIJKLMNOPQRSTUVWXYZ"
  const LOWER := "abcdefghijklmnopqrstuvwxyz"
  const DIGITS := "0123456789"
  const ALPHABET := UPPER + LOWER + DIGITS + "-_"

  // The decoders' index of a character, -1 off the alphabet.
  function Index(ch: char): (v: int)
    ensures -1 <= v < 64
  {
    if 'A' <= ch <= 'Z' then ch as int - 'A' as int
    else if 'a' <= ch <= 'z' then ch as int - 'a' as int + 26
    else if '0' <= ch <= '9' then ch as int - '0' as int + 52
    else if ch == '-' then 62
    else if ch == '_' then 63
    else -1
  }

  predicate Known(ch: char) {
    Index(ch) >= 0
  }

  predicate AllKnown(s: string) {
    forall ch :: ch in s ==> Known(ch)
  }

  function Value(ch: char): bv6
    requires Known(ch)
  {
    Index(ch) as bv6
  }

  function Char(v: bv6): char {
    ALPHABET[v as int]
  }

  // Which six bits of a word a character spells.
  function Six(n: bv32, shift: bv32): bv6
    requires shift < 32
  {
    ((n >> shift) & 0x3f) as bv6
  }

  // ------------------------------------------------------------------- the alphabet

  lemma UpperAt(k: nat)
    requires k < 26
    ensures UPPER[k] as int == 'A' as int + k
  {
    match k
    case 0 => case 1 => case 2 => case 3 => case 4 => case 5 => case 6 => case 7 => case 8 => case 9 => case 10 => case 11 => case 12 =>
    case 13 => case 14 => case 15 => case 16 => case 17 => case 18 => case 19 => case 20 => case 21 => case 22 => case 23 => case 24 => case 25 =>
    case _ =>
  }

  lemma LowerAt(k: nat)
    requires k < 26
    ensures LOWER[k] as int == 'a' as int + k
  {
    match k
    case 0 => case 1 => case 2 => case 3 => case 4 => case 5 => case 6 => case 7 => case 8 => case 9 => case 10 => case 11 => case 12 =>
    case 13 => case 14 => case 15 => case 16 => case 17 => case 18 => case 19 => case 20 => case 21 => case 22 => case 23 => case 24 => case 25 =>
    case _ =>
  }

  lemma DigitAt(k: nat)
    requires k < 10
    ensures DIGITS[k] as int == '0' as int + k
  {
    match k
    case 0 => case 1 => case 2 => case 3 => case 4 => case 5 => case 6 => case 7 => case 8 => case 9 =>
    case _ =>
  }

  /** The decoders' ranges and the encoder's table are the same alphabet. */
  lemma IndexInvertsTable(k: nat)
    requires k < 64
    ensures Index(ALPHABET[k]) == k
  {
    if k < 26 {
      UpperAt(k);
    } else if k < 52 {
      LowerAt(k - 26);
    } else if k < 62 {
      DigitAt(k - 52);
    }
  }

  lemma TableInvertsIndex(ch: char)
    requires Known(ch)
    ensures ALPHABET[Index(ch)] == ch
  {
    var k := Index(ch);
    if k < 26 {
      UpperAt(k);
    } else if k < 52 {
      LowerAt(k - 26);
    } else if k < 62 {
      DigitAt(k - 52);
    }
  }

  lemma ValueOfChar(v: bv6)
    ensures Known(Char(v)) && Value(Char(v)) == v
  {
    hide Index;
    IndexInvertsTable(v as int);
  }

  lemma SmallRoundTrip(k: nat)
    requires k < 64
    ensures (k as bv6) as int == k
  {
  }

  lemma CharOfValue(ch: char)
    requires Known(ch)
    ensures Char(Value(ch)) == ch
  {
    hide Index;
    TableInvertsIndex(ch);
    SmallRoundTrip(Index(ch));
  }

  // ---------------------------------------------------------------------- encoding

  function Word(x: bv8, y: bv8, z: bv8): bv32 {
    ((x as bv32) << 16) | ((y as bv32) << 8) | (z as bv32)
  }

  // Three bytes are four characters; a last one or two bytes are two or three.
  function Encode(b: Bytes): string {
    if |b| >= 3 then
      var n := Word(b[0], b[1], b[2]);
      Quad(n) + Encode(b[3..])
    else if |b| == 2 then
      var n := Word(b[0], b[1], 0);
      [Char(Six(n, 18)), Char(Six(n, 12)), Char(Six(n, 6))]
    else if |b| == 1 then
      var n := Word(b[0], 0, 0);
      [Char(Six(n, 18)), Char(Six(n, 12))]
    else []
  }

  function Quad(n: bv32): string {
    [Char(Six(n, 18)), Char(Six(n, 12)), Char(Six(n, 6)), Char(Six(n, 0))]
  }

  method EncodeLoop(bytes: Bytes) returns (out: string)
    ensures out == Encode(bytes)
  {
    hide Word, Char, Six, Encode, Quad;
    out := [];
    var i := 0;
    while i + 3 <= |bytes|
      invariant 0 <= i <= |bytes|
      invariant out + Encode(bytes[i..]) == Encode(bytes)
    {
      EncodeThree(bytes, i);
      var n := Word(bytes[i], bytes[i + 1], bytes[i + 2]);
      assert out + (Quad(n) + Encode(bytes[i + 3..])) == (out + Quad(n)) + Encode(bytes[i + 3..]);
      out := out + Quad(n);
      i := i + 3;
    }
    EncodeTail(bytes[i..]);
    if i < |bytes| {
      // The bytes that are not there leave their bits clear.
      var n := Word(bytes[i], if i + 1 < |bytes| then bytes[i + 1] else 0, 0);
      out := out + [Char(Six(n, 18)), Char(Six(n, 12))];
      if i + 1 < |bytes| { out := out + [Char(Six(n, 6))]; }
    }
  }

  lemma EncodeThree(b: Bytes, i: nat)
    requires i + 3 <= |b|
    ensures Encode(b[i..]) == Quad(Word(b[i], b[i + 1], b[i + 2])) + Encode(b[i + 3..])
  {
    hide Word, Char, Six;
    assert b[i..][3..] == b[i + 3..];
  }

  lemma EncodeTail(b: Bytes)
    requires |b| < 3
    ensures |b| == 0 ==> Encode(b) == []
    ensures |b| == 1 ==> Encode(b) == [Char(Six(Word(b[0], 0, 0), 18)), Char(Six(Word(b[0], 0, 0), 12))]
    ensures |b| == 2 ==> var n := Word(b[0], b[1], 0); Encode(b) == [Char(Six(n, 18)), Char(Six(n, 12)), Char(Six(n, 6))]
  {
    hide Word, Char, Six;
  }

  // ---------------------------------------------------------------------- decoding

  // The loop's locals: the buffer nobody masks, and how many of its bits are unread.
  datatype Shift = Shift(buf: bv32, bits: bv32, out: Bytes)

  function Push(d: Shift, v: bv6): (d': Shift)
    requires d.bits < 8
    ensures d'.bits < 8
  {
    var buf := (d.buf << 6) | (v as bv32);
    if d.bits + 6 >= 8 then
      var bits := d.bits + 6 - 8;
      Shift(buf, bits, d.out + [((buf >> bits) & 0xff) as bv8])
    else Shift(buf, d.bits + 6, d.out)
  }

  function Skim(s: string, d: Shift): Shift
    requires d.bits < 8
  {
    if s == [] then d else Skim(s[1..], if Known(s[0]) then Push(d, Value(s[0])) else d)
  }

  function Tolerant(s: string): Bytes {
    Skim(s, Shift(0, 0, [])).out
  }

  function Scan(s: string, d: Shift): Option<Bytes>
    requires d.bits < 8
  {
    if s == [] then Some(d.out) else if Known(s[0]) then Scan(s[1..], Push(d, Value(s[0]))) else None
  }

  function Stripped(s: string): string {
    if s != [] && s[|s| - 1] == '=' then Stripped(s[..|s| - 1]) else s
  }

  function Strict(s: string): Option<Bytes> {
    if |Stripped(s)| % 4 == 1 then None else Scan(Stripped(s), Shift(0, 0, []))
  }

  lemma SkimStep(s: string, i: nat, d: Shift)
    requires i < |s| && d.bits < 8
    ensures Known(s[i]) ==> Skim(s[i..], d) == Skim(s[i + 1..], Push(d, Value(s[i])))
    ensures !Known(s[i]) ==> Skim(s[i..], d) == Skim(s[i + 1..], d)
  {
    hide Known, Value, Push;
    assert s[i..][1..] == s[i + 1..];
  }

  // One sextet into the buffer, and a byte out of it once eight bits are unread.
  method ShiftIn(buf: bv32, bits: bv32, out: Bytes, v: bv6) returns (buf': bv32, bits': bv32, out': Bytes)
    requires bits < 8
    ensures Shift(buf', bits', out') == Push(Shift(buf, bits, out), v)
  {
    buf' := (buf << 6) | (v as bv32);
    bits' := bits + 6;
    out' := out;
    if bits' >= 8 {
      bits' := bits' - 8;
      out' := out + [((buf' >> bits') & 0xff) as bv8];
    }
  }

  method DecodeLoop(s: string) returns (out: Bytes)
    ensures out == Tolerant(s)
  {
    hide Known, Value, Skim, Push;
    out := [];
    var buf: bv32, bits: bv32, i := 0, 0, 0;
    assert s[0..] == s;
    while i < |s|
      invariant 0 <= i <= |s| && bits < 8
      invariant Skim(s[i..], Shift(buf, bits, out)).out == Tolerant(s)
    {
      SkimStep(s, i, Shift(buf, bits, out));
      if Known(s[i]) {
        buf, bits, out := ShiftIn(buf, bits, out, Value(s[i]));
      }
      i := i + 1;
    }
    SkimEmpty(s[i..], Shift(buf, bits, out));
  }

  lemma SkimEmpty(s: string, d: Shift)
    requires s == [] && d.bits < 8
    ensures Skim(s, d) == d
  {
  }

  lemma ScanStep(s: string, i: nat, d: Shift)
    requires i < |s| && d.bits < 8
    ensures Scan(s[i..], d) == if Known(s[i]) then Scan(s[i + 1..], Push(d, Value(s[i]))) else None
  {
    hide Known, Value, Push;
    assert s[i..][1..] == s[i + 1..];
  }

  lemma ScanEnd(s: string, d: Shift)
    requires s == [] && d.bits < 8
    ensures Scan(s, d) == Some(d.out)
  {
  }

  method DecodeCheckedLoop(s: string) returns (ok: bool, out: Bytes)
    ensures Strict(s) == if ok then Some(out) else None
    ensures !ok ==> out == []
  {
    hide Known, Value, Scan, Push;
    out := [];
    var body := s;
    while body != [] && body[|body| - 1] == '='
      invariant Stripped(body) == Stripped(s)
    {
      body := body[..|body| - 1];
    }
    if |body| % 4 == 1 { return false, []; }
    var buf: bv32, bits: bv32, i := 0, 0, 0;
    assert body[0..] == body;
    while i < |body|
      invariant 0 <= i <= |body| && bits < 8
      invariant Scan(body[i..], Shift(buf, bits, out)) == Strict(s)
    {
      ScanStep(body, i, Shift(buf, bits, out));
      if !Known(body[i]) { return false, []; }
      buf, bits, out := ShiftIn(buf, bits, out, Value(body[i]));
      i := i + 1;
    }
    ScanEnd(body[i..], Shift(buf, bits, out));
    return true, out;
  }

  // ----------------------------------------------------- what a string of sextets means

  function Word4(a: bv6, b: bv6, c: bv6, d: bv6): bv32 {
    ((a as bv32) << 18) | ((b as bv32) << 12) | ((c as bv32) << 6) | (d as bv32)
  }

  function Eight(n: bv32, shift: bv32): bv8
    requires shift < 32
  {
    ((n >> shift) & 0xff) as bv8
  }

  // Four characters are three bytes; a last two or three are one or two.
  function Grouped(s: string): Bytes
    requires AllKnown(s)
  {
    if |s| >= 4 then
      assert forall ch :: ch in s[4..] ==> ch in s;
      var n := Word4(Value(s[0]), Value(s[1]), Value(s[2]), Value(s[3]));
      [Eight(n, 16), Eight(n, 8), Eight(n, 0)] + Grouped(s[4..])
    else if |s| == 3 then
      var n := Word4(Value(s[0]), Value(s[1]), Value(s[2]), 0);
      [Eight(n, 16), Eight(n, 8)]
    else if |s| == 2 then
      [Eight(Word4(Value(s[0]), Value(s[1]), 0, 0), 16)]
    else []
  }

  function Clean(s: string): string {
    if s == [] then [] else if Known(s[0]) then [s[0]] + Clean(s[1..]) else Clean(s[1..])
  }

  lemma {:induction false} CleanIsKnown(s: string)
    ensures AllKnown(Clean(s))
    ensures AllKnown(s) ==> Clean(s) == s
  {
    if s != [] {
      CleanIsKnown(s[1..]);
      assert AllKnown(s) ==> forall ch :: ch in s[1..] ==> ch in s;
    }
  }

  lemma {:induction false} SkimCleans(s: string, d: Shift)
    requires d.bits < 8
    ensures Skim(s, d) == Skim(Clean(s), d)
  {
    if s != [] {
      if Known(s[0]) {
        assert Clean(s)[1..] == Clean(s[1..]);
        SkimCleans(s[1..], Push(d, Value(s[0])));
      } else {
        SkimCleans(s[1..], d);
      }
    }
  }

  // Whatever has been shifted past is never read again.
  lemma NeverReadAgain(buf: bv32, s0: bv6, s1: bv6, s2: bv6, s3: bv6)
    ensures var b2 := (((buf << 6) | (s0 as bv32)) << 6) | (s1 as bv32);
            var b3 := (b2 << 6) | (s2 as bv32);
            && ((b2 >> 4) & 0xff) as bv8 == Eight(Word4(s0, s1, s2, s3), 16)
            && ((b3 >> 2) & 0xff) as bv8 == Eight(Word4(s0, s1, s2, s3), 8)
            && (((b3 << 6) | (s3 as bv32)) & 0xff) as bv8 == Eight(Word4(s0, s1, s2, s3), 0)
  {
  }

  lemma TwoPushes(d: Shift, s0: bv6, s1: bv6)
    requires d.bits == 0
    ensures var d' := Push(Push(d, s0), s1);
            d'.out == d.out + [Eight(Word4(s0, s1, 0, 0), 16)]
  {
    NeverReadAgain(d.buf, s0, s1, 0, 0);
    hide Eight, Word4;
  }

  lemma ThreePushes(d: Shift, s0: bv6, s1: bv6, s2: bv6)
    requires d.bits == 0
    ensures var n, d' := Word4(s0, s1, s2, 0), Push(Push(Push(d, s0), s1), s2); d'.out == d.out + [Eight(n, 16), Eight(n, 8)]
  {
    NeverReadAgain(d.buf, s0, s1, s2, 0);
    hide Eight, Word4;
  }

  lemma FourPushes(d: Shift, s0: bv6, s1: bv6, s2: bv6, s3: bv6)
    requires d.bits == 0
    ensures var n, d' := Word4(s0, s1, s2, s3), Push(Push(Push(Push(d, s0), s1), s2), s3);
            d'.bits == 0 && d'.out == d.out + [Eight(n, 16), Eight(n, 8), Eight(n, 0)]
  {
    NeverReadAgain(d.buf, s0, s1, s2, s3);
    hide Eight, Word4;
  }

  lemma SkimOne(s: string, d: Shift)
    requires d.bits < 8 && s != [] && Known(s[0])
    ensures Skim(s, d) == Skim(s[1..], Push(d, Value(s[0])))
  {
  }

  lemma SkimTwo(s: string, d: Shift)
    requires d.bits < 8 && |s| >= 2 && Known(s[0]) && Known(s[1])
    ensures Skim(s, d) == Skim(s[2..], Push(Push(d, Value(s[0])), Value(s[1])))
  {
    hide Skim, Push, Known, Value;
    SkimOne(s, d);
    SkimOne(s[1..], Push(d, Value(s[0])));
    assert s[1..][1..] == s[2..];
  }

  /** The wrapping buffer reads the groups, whatever junk it starts with. */
  lemma {:induction false} SkimReadsGroups(s: string, d: Shift)
    requires AllKnown(s) && d.bits == 0
    ensures Skim(s, d).out == d.out + Grouped(s)
    decreases |s|
  {
    if |s| >= 2 {
      hide Push, Known, Value, Word4, Eight;
      SkimTwo(s, d);
      var d2 := Push(Push(d, Value(s[0])), Value(s[1]));
      if |s| == 2 {
        TwoPushes(d, Value(s[0]), Value(s[1]));
      } else if |s| == 3 {
        SkimOne(s[2..], d2);
        ThreePushes(d, Value(s[0]), Value(s[1]), Value(s[2]));
      } else {
        SkimTwo(s[2..], d2);
        assert s[2..][2..] == s[4..];
        FourPushes(d, Value(s[0]), Value(s[1]), Value(s[2]), Value(s[3]));
        assert forall ch :: ch in s[4..] ==> ch in s;
        SkimReadsGroups(s[4..], Push(Push(d2, Value(s[2])), Value(s[3])));
      }
    }
  }

  // ------------------------------------------------------------------- inverses

  // Where the sextets of a word come from, and the bytes.
  lemma SextetsOf(x: bv8, y: bv8, z: bv8)
    ensures Six(Word(x, y, z), 18) == (x >> 2) as bv6
    ensures Six(Word(x, y, z), 12) == (((x & 0x03) << 4) | (y >> 4)) as bv6
    ensures Six(Word(x, y, z), 6) == (((y & 0x0f) << 2) | (z >> 6)) as bv6
    ensures Six(Word(x, y, z), 0) == (z & 0x3f) as bv6
  {
  }

  lemma BytesOf(a: bv6, b: bv6, c: bv6, d: bv6)
    ensures Eight(Word4(a, b, c, d), 16) == ((a as bv8) << 2) | ((b as bv8) >> 4)
    ensures Eight(Word4(a, b, c, d), 8) == ((b as bv8) << 4) | ((c as bv8) >> 2)
    ensures Eight(Word4(a, b, c, d), 0) == ((c as bv8) << 6) | (d as bv8)
  {
  }

  lemma ThreeBytes(x: bv8, y: bv8, z: bv8)
    ensures var n := Word(x, y, z); var m := Word4(Six(n, 18), Six(n, 12), Six(n, 6), Six(n, 0));
            Eight(m, 16) == x && Eight(m, 8) == y && Eight(m, 0) == z
  {
    hide Six, Eight, Word, Word4;
    var n := Word(x, y, z);
    SextetsOf(x, y, z);
    BytesOf(Six(n, 18), Six(n, 12), Six(n, 6), Six(n, 0));
  }

  lemma ShortBytes(x: bv8, y: bv8)
    ensures var n := Word(x, y, 0); var m := Word4(Six(n, 18), Six(n, 12), Six(n, 6), 0); Eight(m, 16) == x && Eight(m, 8) == y
    ensures var n := Word(x, y, 0); Eight(Word4(Six(n, 18), Six(n, 12), 0, 0), 16) == x
  {
    hide Six, Eight, Word, Word4;
    var n := Word(x, y, 0);
    SextetsOf(x, y, 0);
    BytesOf(Six(n, 18), Six(n, 12), Six(n, 6), 0);
    BytesOf(Six(n, 18), Six(n, 12), 0, 0);
  }

  lemma {:induction false} GroupedInvertsEncode(b: Bytes)
    ensures AllKnown(Encode(b)) && Grouped(Encode(b)) == b
  {
    hide Known, Value, Char, Six, Word, Word4, Eight;
    if |b| >= 3 {
      var n := Word(b[0], b[1], b[2]);
      QuadValues(n);
      ThreeBytes(b[0], b[1], b[2]);
      GroupedInvertsEncode(b[3..]);
      assert Encode(b)[4..] == Encode(b[3..]) && Encode(b)[..4] == Quad(n);
      assert forall i :: 0 <= i < 4 ==> Encode(b)[i] == Quad(n)[i];
    } else if |b| > 0 {
      var n := Word(b[0], if |b| == 2 then b[1] else 0, 0);
      QuadValues(n);
      ShortBytes(b[0], if |b| == 2 then b[1] else 0);
    }
  }

  lemma QuadValues(n: bv32)
    ensures AllKnown(Quad(n)) && Value(Quad(n)[0]) == Six(n, 18) && Value(Quad(n)[1]) == Six(n, 12)
    ensures Value(Quad(n)[2]) == Six(n, 6) && Value(Quad(n)[3]) == Six(n, 0)
  {
    hide Known, Value, Char, Six;
    ValueOfChar(Six(n, 18));
    ValueOfChar(Six(n, 12));
    ValueOfChar(Six(n, 6));
    ValueOfChar(Six(n, 0));
  }

  lemma {:induction false} ScanIsSkim(s: string, d: Shift)
    requires d.bits < 8
    ensures Scan(s, d) == if AllKnown(s) then Some(Skim(s, d).out) else None
  {
    if s != [] {
      hide Known, Value, Push;
      assert s == [s[0]] + s[1..];
      if Known(s[0]) {
        ScanIsSkim(s[1..], Push(d, Value(s[0])));
        assert AllKnown(s) <==> AllKnown(s[1..]);
      }
    }
  }

  function Padding(k: nat): string {
    seq(k, _ => '=')
  }

  lemma {:induction false} StrippedParts(s: string)
    ensures exists k: nat :: s == Stripped(s) + Padding(k)
    ensures Stripped(s) == [] || Stripped(s)[|Stripped(s)| - 1] != '='
  {
    if s != [] && s[|s| - 1] == '=' {
      StrippedParts(s[..|s| - 1]);
      var k: nat :| s[..|s| - 1] == Stripped(s[..|s| - 1]) + Padding(k);
      assert Padding(k + 1) == Padding(k) + ['='];
      assert s == s[..|s| - 1] + ['='];
      assert s == Stripped(s) + Padding(k + 1);
    } else {
      assert s == Stripped(s) + Padding(0);
    }
  }

  lemma {:induction false} PaddingIsJunk(s: string, k: nat)
    ensures Clean(s + Padding(k)) == Clean(s)
    decreases |s| + k
  {
    var t := s + Padding(k);
    if s != [] {
      assert t[1..] == s[1..] + Padding(k);
      PaddingIsJunk(s[1..], k);
    } else if k > 0 {
      assert t[1..] == [] + Padding(k - 1);
      PaddingIsJunk([], k - 1);
    }
  }

  // -------------------------------------------------------------------- the theorems

  /** The tolerant decoder reads exactly the groups of the characters it knows. */
  lemma TolerantReadsWhatItKnows(s: string)
    ensures AllKnown(Clean(s)) && Tolerant(s) == Grouped(Clean(s))
  {
    CleanIsKnown(s);
    SkimCleans(s, Shift(0, 0, []));
    SkimReadsGroups(Clean(s), Shift(0, 0, []));
  }

  /** The strict decoder accepts exactly the strings that, stripped of padding, are all
      alphabet and of a possible length, and there it agrees with the tolerant one. */
  lemma StrictAcceptsExactly(s: string)
    ensures Strict(s).Some? <==> AllKnown(Stripped(s)) && |Stripped(s)| % 4 != 1
    ensures Strict(s).Some? ==> Strict(s).value == Tolerant(s) == Grouped(Stripped(s))
  {
    hide Known, Skim, Scan, Grouped, Stripped;
    var body, d := Stripped(s), Shift(0, 0, []);
    ScanIsSkim(body, d);
    if AllKnown(body) {
      SkimReadsGroups(body, d);
      StrippedParts(s);
      var k: nat :| s == body + Padding(k);
      PaddingIsJunk(body, k);
      CleanIsKnown(body);
      TolerantReadsWhatItKnows(s);
    }
  }

  lemma EncodeStarts(b: Bytes)
    ensures |b| >= 3 ==> |Encode(b)| == 4 + |Encode(b[3..])|
    ensures |b| < 3 ==> |Encode(b)| == if |b| == 0 then 0 else |b| + 1
  {
    hide Word, Char, Six;
  }

  lemma {:induction false} EncodedLength(b: Bytes)
    ensures |Encode(b)| == (8 * |b| + 5) / 6 && |Encode(b)| % 4 != 1
  {
    hide Word, Char, Six, Encode;
    EncodeStarts(b);
    if |b| >= 3 {
      EncodedLength(b[3..]);
      assert 8 * |b| + 5 == 24 + (8 * |b[3..]| + 5);
    }
  }

  /** Both decoders invert the encoder, for every byte string. */
  lemma DecodersInvertEncode(b: Bytes)
    ensures Tolerant(Encode(b)) == b
    ensures Strict(Encode(b)) == Some(b)
  {
    hide Known, Encode, Grouped, Strict, Tolerant, Clean;
    var s := Encode(b);
    GroupedInvertsEncode(b);
    EncodedLength(b);
    CleanIsKnown(s);
    TolerantReadsWhatItKnows(s);
    StrictAcceptsExactly(s);
    NoPadding(s);
  }

  lemma NoPadding(s: string)
    requires AllKnown(s)
    ensures Stripped(s) == s
  {
    assert s != [] ==> Known(s[|s| - 1]);
  }

  // The bits of the last character that no byte uses.
  function Spare(s: string): bv6
    requires AllKnown(s) && |s| % 4 != 1
  {
    if |s| % 4 == 0 then 0
    else if |s| % 4 == 3 then Value(s[|s| - 1]) & 0x03
    else Value(s[|s| - 1]) & 0x0f
  }

  lemma FourSextets(s0: bv6, s1: bv6, s2: bv6, s3: bv6)
    ensures var m := Word4(s0, s1, s2, s3); var n := Word(Eight(m, 16), Eight(m, 8), Eight(m, 0));
            Six(n, 18) == s0 && Six(n, 12) == s1 && Six(n, 6) == s2 && Six(n, 0) == s3
  {
    hide Six, Eight, Word, Word4;
    var m := Word4(s0, s1, s2, s3);
    BytesOf(s0, s1, s2, s3);
    SextetsOf(Eight(m, 16), Eight(m, 8), Eight(m, 0));
  }

  lemma ThreeSextets(s0: bv6, s1: bv6, s2: bv6)
    ensures var m := Word4(s0, s1, s2, 0); var n := Word(Eight(m, 16), Eight(m, 8), 0);
            Six(n, 18) == s0 && Six(n, 12) == s1 && (Six(n, 6) == s2 <==> s2 & 0x03 == 0)
  {
    hide Six, Eight, Word, Word4;
    var m := Word4(s0, s1, s2, 0);
    BytesOf(s0, s1, s2, 0);
    SextetsOf(Eight(m, 16), Eight(m, 8), 0);
  }

  lemma TwoSextets(s0: bv6, s1: bv6)
    ensures var n := Word(Eight(Word4(s0, s1, 0, 0), 16), 0, 0); Six(n, 18) == s0 && (Six(n, 12) == s1 <==> s1 & 0x0f == 0)
  {
    hide Six, Eight, Word, Word4;
    BytesOf(s0, s1, 0, 0);
    SextetsOf(Eight(Word4(s0, s1, 0, 0), 16), 0, 0);
  }

  lemma QuadAgain(s: string)
    requires |s| == 4 && AllKnown(s)
    ensures var m := Word4(Value(s[0]), Value(s[1]), Value(s[2]), Value(s[3]));
            Quad(Word(Eight(m, 16), Eight(m, 8), Eight(m, 0))) == s
  {
    hide Known, Value, Char, Six, Word, Word4, Eight;
    FourSextets(Value(s[0]), Value(s[1]), Value(s[2]), Value(s[3]));
    CharOfValue(s[0]);
    CharOfValue(s[1]);
    CharOfValue(s[2]);
    CharOfValue(s[3]);
  }

  lemma FourAgain(s: string)
    requires AllKnown(s) && |s| >= 4 && AllKnown(s[4..])
    ensures Encode(Grouped(s)) == s[..4] + Encode(Grouped(s[4..]))
  {
    hide Known, Value, Char, Word, Word4, Eight, Quad, Six;
    assert forall ch :: ch in s[..4] ==> ch in s;
    QuadAgain(s[..4]);
    assert Grouped(s)[3..] == Grouped(s[4..]);
  }

  lemma ShortAgain(s: string)
    requires AllKnown(s) && 2 <= |s| <= 3
    ensures Encode(Grouped(s)) == s <==> Spare(s) == 0
  {
    hide Known, Value, Char, Six, Word, Word4, Eight;
    var v0, v1 := Value(s[0]), Value(s[1]);
    CharOfValue(s[0]);
    CharOfValue(s[1]);
    if |s| == 3 {
      CharOfValue(s[2]);
      ThreeSextets(v0, v1, Value(s[2]));
      var m := Word4(v0, v1, Value(s[2]), 0);
      var n := Word(Eight(m, 16), Eight(m, 8), 0);
      ValueOfChar(Six(n, 6));
      assert Encode(Grouped(s)) == [s[0], s[1], Char(Six(n, 6))];
    } else {
      TwoSextets(v0, v1);
      var n := Word(Eight(Word4(v0, v1, 0, 0), 16), 0, 0);
      ValueOfChar(Six(n, 12));
      assert Encode(Grouped(s)) == [s[0], Char(Six(n, 12))];
    }
  }

  /** Encoding what was decoded gives the text back exactly when the unused bits of its
      last character are clear; the decoders accept the others too. */
  lemma {:induction false} EncodeInvertsGroupedIff(s: string)
    requires AllKnown(s) && |s| % 4 != 1
    ensures Encode(Grouped(s)) == s <==> Spare(s) == 0
  {
    hide Known, Value, Encode, Grouped;
    if |s| >= 4 {
      var rest := s[4..];
      assert forall ch :: ch in rest ==> ch in s;
      EncodeInvertsGroupedIff(rest);
      FourAgain(s);
      var again := Encode(Grouped(rest));
      assert s == s[..4] + rest;
      assert Encode(Grouped(s)) == s <==> again == rest by {
        assert (s[..4] + again)[4..] == again && s[4..] == rest;
      }
      assert rest != [] ==> rest[|rest| - 1] == s[|s| - 1];
    } else if s == [] {
      NothingAgain();
    } else {
      ShortAgain(s);
    }
  }

  lemma NothingAgain()
    ensures Encode(Grouped([])) == []
  {
  }

  /** So the strict decoder is not injective: these two texts are the same byte. */
  lemma StrictAcceptsTwoSpellings()
    ensures Strict("AA") == Strict("AB") == Some([0])
  {
    assert AllKnown("AA") && AllKnown("AB");
    StrictAcceptsExactly("AA");
    StrictAcceptsExactly("AB");
    NoPadding("AA");
    NoPadding("AB");
  }

  // ------------------------------------------------------------------ bit by bit

  // Bit `k` of a sextet or of a byte, the most significant first.
  function SextetBit(v: bv6, k: nat): bool
    requires k < 6
  {
    match k
    case 0 => v & 0x20 != 0
    case 1 => v & 0x10 != 0
    case 2 => v & 0x08 != 0
    case 3 => v & 0x04 != 0
    case 4 => v & 0x02 != 0
    case _ => v & 0x01 != 0
  }

  function ByteBit(x: bv8, k: nat): bool
    requires k < 8
  {
    match k
    case 0 => x & 0x80 != 0
    case 1 => x & 0x40 != 0
    case 2 => x & 0x20 != 0
    case 3 => x & 0x10 != 0
    case 4 => x & 0x08 != 0
    case 5 => x & 0x04 != 0
    case 6 => x & 0x02 != 0
    case _ => x & 0x01 != 0
  }

  // The bit string of the input, with zeros after its end.
  function BitAt(b: Bytes, p: nat): bool {
    p / 8 < |b| && ByteBit(b[p / 8], p % 8)
  }

  lemma WordBitsHigh(x: bv8, y: bv8, z: bv8, i: nat, k: nat)
    requires i < 2 && k < 6
    ensures SextetBit(Six(Word(x, y, z), [18, 12, 6, 0][i]), k) == BitAt([x, y, z], 6 * i + k)
  {
    hide Six, Word;
    SextetsOf(x, y, z);
    match i
    case 0 =>
    case _ =>
  }

  lemma WordBitsLow(x: bv8, y: bv8, z: bv8, i: nat, k: nat)
    requires 2 <= i < 4 && k < 6
    ensures SextetBit(Six(Word(x, y, z), [18, 12, 6, 0][i]), k) == BitAt([x, y, z], 6 * i + k)
  {
    hide Six, Word;
    SextetsOf(x, y, z);
    match i
    case 2 =>
    case _ =>
  }

  lemma WordBits(x: bv8, y: bv8, z: bv8, i: nat, k: nat)
    requires i < 4 && k < 6
    ensures SextetBit(Six(Word(x, y, z), [18, 12, 6, 0][i]), k) == BitAt([x, y, z], 6 * i + k)
  {
    hide Six, Word, BitAt, SextetBit;
    if i < 2 { WordBitsHigh(x, y, z, i, k); } else { WordBitsLow(x, y, z, i, k); }
  }

  /** Section 4 of RFC 4648: the text is the input's bits, most significant first, six to
      a character, with zero bits after the last one. */
  lemma {:induction false} EncodeSpellsTheBits(b: Bytes, i: nat, k: nat)
    requires i < |Encode(b)| && k < 6
    ensures Known(Encode(b)[i]) && SextetBit(Value(Encode(b)[i]), k) == BitAt(b, 6 * i + k)
    decreases |b|
  {
    hide Known, Value, Char, Six, Word, SextetBit, ByteBit;
    var n := Word(b[0], if |b| > 1 then b[1] else 0, if |b| > 2 then b[2] else 0);
    QuadValues(n);
    if i < 4 {
      WordBits(b[0], if |b| > 1 then b[1] else 0, if |b| > 2 then b[2] else 0, i, k);
      ZerosAfter(b, if |b| > 1 then b[1] else 0, if |b| > 2 then b[2] else 0, 6 * i + k);
    } else {
      EncodeSpellsTheBits(b[3..], i - 4, k);
      assert Encode(b)[i] == Encode(b[3..])[i - 4];
      assert 6 * i + k == 24 + (6 * (i - 4) + k);
      var p := 6 * (i - 4) + k;
      assert (24 + p) / 8 == 3 + p / 8 && (24 + p) % 8 == p % 8;
    }
  }

  lemma ZerosAfter(b: Bytes, y: bv8, z: bv8, p: nat)
    requires |b| >= 1 && p < 24 && y == (if |b| > 1 then b[1] else 0) && z == (if |b| > 2 then b[2] else 0)
    ensures BitAt([b[0], y, z], p) == BitAt(b, p)
  {
  }
}
