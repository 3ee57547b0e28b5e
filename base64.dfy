/**
 * The Base64 alphabet and padding of section 4 of RFC 4648, as used for ByteString values in
 * a notification's JSON form and for normalised token ids. Decoding accepts exactly the
 * canonical encodings; anything else is a format error.
 */
module Base64 {
  import opened Wrappers
  import opened Primitives

  type Sextet = x: int | 0 <= x < 64

  function CharOf(x: Sextet): (c: char)
  {
    if x < 26 then ('A' as int + x) as char
    else if x < 52 then ('a' as int + (x - 26)) as char
    else if x < 62 then ('0' as int + (x - 52)) as char
    else if x == 62 then '+'
    else '/'
  }

  function SextetOf(c: char): (r: Option<Sextet>)
    ensures r.Some? ==> CharOf(r.value) == c
  {
    if 'A' <= c <= 'Z' then Some(c as int - 'A' as int)
    else if 'a' <= c <= 'z' then Some(c as int - 'a' as int + 26)
    else if '0' <= c <= '9' then Some(c as int - '0' as int + 52)
    else if c == '+' then Some(62)
    else if c == '/' then Some(63)
    else None
  }

  lemma SextetOfCharOf(x: Sextet)
    ensures SextetOf(CharOf(x)) == Some(x)
  {
  }

  /** Three bytes become four characters. */
  function EncodeTriple(b0: byte, b1: byte, b2: byte): (s: string)
    ensures |s| == 4
  {
    var x0: Sextet := b0 as int / 4;
    var x1: Sextet := (b0 as int % 4) * 16 + b1 as int / 16;
    var x2: Sextet := (b1 as int % 16) * 4 + b2 as int / 64;
    var x3: Sextet := b2 as int % 64;
    [CharOf(x0), CharOf(x1), CharOf(x2), CharOf(x3)]
  }

  /** Two trailing bytes become three characters and one '='. */
  function EncodePair(b0: byte, b1: byte): (s: string)
    ensures |s| == 4
  {
    var x0: Sextet := b0 as int / 4;
    var x1: Sextet := (b0 as int % 4) * 16 + b1 as int / 16;
    var x2: Sextet := (b1 as int % 16) * 4;
    [CharOf(x0), CharOf(x1), CharOf(x2), '=']
  }

  /** One trailing byte becomes two characters and "==". */
  function EncodeSingle(b0: byte): (s: string)
    ensures |s| == 4
  {
    var x0: Sextet := b0 as int / 4;
    var x1: Sextet := (b0 as int % 4) * 16;
    [CharOf(x0), CharOf(x1), '=', '=']
  }

  function Encode(b: seq<byte>): (s: string)
    ensures |s| == 4 * ((|b| + 2) / 3)
  {
    if |b| == 0 then ""
    else if |b| == 1 then EncodeSingle(b[0])
    else if |b| == 2 then EncodePair(b[0], b[1])
    else EncodeTriple(b[0], b[1], b[2]) + Encode(b[3..])
  }

  /** The bytes that a group of sextets packs, most significant bits first. */
  function ByteAt0(x0: Sextet, x1: Sextet): (r: byte) { (x0 as int * 4 + x1 as int / 16) as byte }
  function ByteAt1(x1: Sextet, x2: Sextet): (r: byte) { ((x1 as int % 16) * 16 + x2 as int / 4) as byte }
  function ByteAt2(x2: Sextet, x3: Sextet): (r: byte) { ((x2 as int % 4) * 64 + x3 as int) as byte }

  /** Four characters of the alphabet become three bytes. */
  function DecodeQuad(g: string): (r: Option<seq<byte>>)
    requires |g| == 4
    ensures r.Some? ==> |r.value| == 3
  {
    match (SextetOf(g[0]), SextetOf(g[1]), SextetOf(g[2]), SextetOf(g[3]))
    case (Some(x0), Some(x1), Some(x2), Some(x3)) =>
      Some([ByteAt0(x0, x1), ByteAt1(x1, x2), ByteAt2(x2, x3)])
    case _ => None
  }

  /** The last group, which may carry padding; the bits the padding drops must be zero. */
  function DecodeLast(g: string): (r: Option<seq<byte>>)
    requires |g| == 4
    ensures r.Some? ==> 1 <= |r.value| <= 3
  {
    if g[2] == '=' && g[3] == '=' then
      match (SextetOf(g[0]), SextetOf(g[1]))
      case (Some(x0), Some(x1)) =>
        if x1 as int % 16 == 0 then Some([ByteAt0(x0, x1)]) else None
      case _ => None
    else if g[3] == '=' then
      match (SextetOf(g[0]), SextetOf(g[1]), SextetOf(g[2]))
      case (Some(x0), Some(x1), Some(x2)) =>
        if x2 as int % 4 == 0 then Some([ByteAt0(x0, x1), ByteAt1(x1, x2)]) else None
      case _ => None
    else DecodeQuad(g)
  }

  function Decode(s: string): (r: Option<seq<byte>>)
    ensures |s| % 4 != 0 ==> r.None?
    ensures r.Some? ==> 4 * |r.value| <= 3 * |s| <= 4 * |r.value| + 8
  {
    if |s| == 0 then Some([])
    else if |s| < 4 then None
    else if |s| == 4 then DecodeLast(s)
    else
      assert |s| % 4 == |s[4..]| % 4;
      match DecodeQuad(s[..4])
      case None => None
      case Some(head) =>
        match Decode(s[4..])
        case None => None
        case Some(tail) => Some(head + tail)
  }

  /** Splitting hi * m + lo at m gives back hi and lo, for each divisor the packing uses. */
  lemma Split4(hi: int, lo: int)
    requires 0 <= lo < 4
    ensures (hi * 4 + lo) / 4 == hi && (hi * 4 + lo) % 4 == lo
  {
  }

  lemma Split16(hi: int, lo: int)
    requires 0 <= lo < 16
    ensures (hi * 16 + lo) / 16 == hi && (hi * 16 + lo) % 16 == lo
  {
  }

  lemma Split64(hi: int, lo: int)
    requires 0 <= lo < 64
    ensures (hi * 64 + lo) / 64 == hi && (hi * 64 + lo) % 64 == lo
  {
  }

  /** Packing the sextets of a byte gives the byte back, whatever the neighbouring bits. */
  lemma Byte0Back(b0: byte, h: int)
    requires 0 <= h < 16
    ensures ByteAt0(b0 as int / 4, (b0 as int % 4) * 16 + h) == b0
  {
    Split16(b0 as int % 4, h);
  }

  lemma Byte1Back(a: int, b1: byte, l: int)
    requires 0 <= a < 4 && 0 <= l < 4
    ensures ByteAt1(a * 16 + b1 as int / 16, (b1 as int % 16) * 4 + l) == b1
  {
    Split16(a, b1 as int / 16);
    Split4(b1 as int % 16, l);
  }

  lemma Byte2Back(a: int, b2: byte)
    requires 0 <= a < 16
    ensures ByteAt2(a * 4 + b2 as int / 64, b2 as int % 64) == b2
  {
    Split4(a, b2 as int / 64);
  }

  /** Unpacking the bytes of a group gives its sextets back. */
  lemma Sextets01Back(x0: Sextet, x1: Sextet, x2: Sextet)
    ensures ByteAt0(x0, x1) as int / 4 == x0
    ensures (ByteAt0(x0, x1) as int % 4) * 16 + ByteAt1(x1, x2) as int / 16 == x1
  {
    Split4(x0, x1 / 16);
    Split16(x1 % 16, x2 / 4);
  }

  lemma Sextets23Back(x1: Sextet, x2: Sextet, x3: Sextet)
    ensures (ByteAt1(x1, x2) as int % 16) * 4 + ByteAt2(x2, x3) as int / 64 == x2
    ensures ByteAt2(x2, x3) as int % 64 == x3
  {
    Split16(x1 % 16, x2 / 4);
    Split64(x2 % 4, x3);
  }

  lemma DecodeTriple(b0: byte, b1: byte, b2: byte)
    ensures DecodeQuad(EncodeTriple(b0, b1, b2)) == Some([b0, b1, b2])
    ensures DecodeLast(EncodeTriple(b0, b1, b2)) == Some([b0, b1, b2])
  {
    var x0: Sextet := b0 as int / 4;
    var x1: Sextet := (b0 as int % 4) * 16 + b1 as int / 16;
    var x2: Sextet := (b1 as int % 16) * 4 + b2 as int / 64;
    var x3: Sextet := b2 as int % 64;
    SextetOfCharOf(x0); SextetOfCharOf(x1); SextetOfCharOf(x2); SextetOfCharOf(x3);
    Byte0Back(b0, b1 as int / 16);
    Byte1Back(b0 as int % 4, b1, b2 as int / 64);
    Byte2Back(b1 as int % 16, b2);
    assert EncodeTriple(b0, b1, b2) == [CharOf(x0), CharOf(x1), CharOf(x2), CharOf(x3)];
  }

  lemma DecodePair(b0: byte, b1: byte)
    ensures DecodeLast(EncodePair(b0, b1)) == Some([b0, b1])
  {
    var x0: Sextet := b0 as int / 4;
    var x1: Sextet := (b0 as int % 4) * 16 + b1 as int / 16;
    var x2: Sextet := (b1 as int % 16) * 4;
    SextetOfCharOf(x0); SextetOfCharOf(x1); SextetOfCharOf(x2);
    Byte0Back(b0, b1 as int / 16);
    Byte1Back(b0 as int % 4, b1, 0);
    Split4(b1 as int % 16, 0);
  }

  lemma DecodeSingle(b0: byte)
    ensures DecodeLast(EncodeSingle(b0)) == Some([b0])
  {
    var x0: Sextet := b0 as int / 4;
    var x1: Sextet := (b0 as int % 4) * 16;
    SextetOfCharOf(x0); SextetOfCharOf(x1);
    Byte0Back(b0, 0);
    Split16(b0 as int % 4, 0);
  }

  /** A full group followed by more text decodes group by group. */
  lemma DecodeCons(g: string, t: string, head: seq<byte>, tail: seq<byte>)
    requires |g| == 4 && |t| > 0 && DecodeQuad(g) == Some(head) && Decode(t) == Some(tail)
    ensures Decode(g + t) == Some(head + tail)
  {
    var s := g + t;
    assert s[..4] == g && s[4..] == t;
  }

  lemma EncodeShort(b: seq<byte>)
    requires |b| <= 3
    ensures |b| == 1 ==> Encode(b) == EncodeSingle(b[0])
    ensures |b| == 2 ==> Encode(b) == EncodePair(b[0], b[1])
    ensures |b| == 3 ==> Encode(b) == EncodeTriple(b[0], b[1], b[2])
  {
    if |b| == 3 {
      assert Encode(b[3..]) == "";
    }
  }

  lemma EncodeUnfold(b: seq<byte>)
    requires |b| > 3
    ensures Encode(b) == EncodeTriple(b[0], b[1], b[2]) + Encode(b[3..])
  {
  }

  lemma SplitThree(b: seq<byte>)
    requires |b| >= 3
    ensures b == [b[0], b[1], b[2]] + b[3..]
  {
  }

  lemma DecodeEncodeSingle(b: seq<byte>)
    requires |b| == 1
    ensures Decode(Encode(b)) == Some(b)
  {
    EncodeShort(b);
    DecodeSingle(b[0]);
    assert b == [b[0]];
  }

  lemma DecodeEncodePair(b: seq<byte>)
    requires |b| == 2
    ensures Decode(Encode(b)) == Some(b)
  {
    EncodeShort(b);
    DecodePair(b[0], b[1]);
    assert b == [b[0], b[1]];
  }

  lemma DecodeEncodeTriple(b: seq<byte>)
    requires |b| == 3
    ensures Decode(Encode(b)) == Some(b)
  {
    EncodeShort(b);
    DecodeTriple(b[0], b[1], b[2]);
    assert b == [b[0], b[1], b[2]];
  }

  /** One full group in front of an encoding that decodes. */
  lemma DecodeEncodeStep(b: seq<byte>)
    requires |b| > 3 && Decode(Encode(b[3..])) == Some(b[3..])
    ensures Decode(Encode(b)) == Some(b)
  {
    EncodeUnfold(b);
    DecodeTriple(b[0], b[1], b[2]);
    DecodeCons(EncodeTriple(b[0], b[1], b[2]), Encode(b[3..]), [b[0], b[1], b[2]], b[3..]);
    SplitThree(b);
  }

  /** Decoding inverts encoding. */
  lemma {:induction false} DecodeEncode(b: seq<byte>)
    ensures Decode(Encode(b)) == Some(b)
  {
    if |b| == 1 {
      DecodeEncodeSingle(b);
    } else if |b| == 2 {
      DecodeEncodePair(b);
    } else if |b| == 3 {
      DecodeEncodeTriple(b);
    } else if |b| > 3 {
      DecodeEncode(b[3..]);
      DecodeEncodeStep(b);
    }
  }

  lemma EncodeQuad(g: string)
    requires |g| == 4 && DecodeQuad(g).Some?
    ensures var d := DecodeQuad(g).value; |d| == 3 && EncodeTriple(d[0], d[1], d[2]) == g
  {
    var x0, x1, x2, x3 := SextetOf(g[0]).value, SextetOf(g[1]).value, SextetOf(g[2]).value, SextetOf(g[3]).value;
    var d := DecodeQuad(g).value;
    Sextets01Back(x0, x1, x2);
    Sextets23Back(x1, x2, x3);
    assert d[0] as int / 4 == x0 && (d[0] as int % 4) * 16 + d[1] as int / 16 == x1;
    assert (d[1] as int % 16) * 4 + d[2] as int / 64 == x2 && d[2] as int % 64 == x3;
    assert EncodeTriple(d[0], d[1], d[2]) == [CharOf(x0), CharOf(x1), CharOf(x2), CharOf(x3)];
  }

  lemma EncodeLast(g: string)
    requires |g| == 4 && DecodeLast(g).Some?
    ensures var d := DecodeLast(g).value;
      1 <= |d| <= 3 && Encode(d) == g
  {
    var d := DecodeLast(g).value;
    if g[2] == '=' && g[3] == '=' {
      var x0, x1 := SextetOf(g[0]).value, SextetOf(g[1]).value;
      Sextets01Back(x0, x1, 0);
      assert d[0] as int / 4 == x0 && (d[0] as int % 4) * 16 == x1;
      assert Encode(d) == EncodeSingle(d[0]);
    } else if g[3] == '=' {
      var x0, x1, x2 := SextetOf(g[0]).value, SextetOf(g[1]).value, SextetOf(g[2]).value;
      Sextets01Back(x0, x1, x2);
      Sextets23Back(x1, x2, 0);
      assert d[0] as int / 4 == x0 && (d[0] as int % 4) * 16 + d[1] as int / 16 == x1;
      assert (d[1] as int % 16) * 4 == x2;
      assert Encode(d) == EncodePair(d[0], d[1]);
    } else {
      EncodeQuad(g);
      assert Encode(d) == EncodeTriple(d[0], d[1], d[2]) + Encode(d[3..]);
    }
  }

  /** Only canonical text decodes: whatever decodes re-encodes to the very same text. */
  lemma {:induction false} EncodeDecode(s: string)
    requires Decode(s).Some?
    ensures Encode(Decode(s).value) == s
  {
    if |s| == 4 {
      EncodeLast(s);
    } else if |s| > 4 {
      var head := DecodeQuad(s[..4]).value;
      var tail := Decode(s[4..]).value;
      EncodeQuad(s[..4]);
      EncodeDecode(s[4..]);
      var d := head + tail;
      assert d[..3] == head && d[3..] == tail;
      assert Encode(d) == EncodeTriple(d[0], d[1], d[2]) + Encode(d[3..]);
      assert s == s[..4] + s[4..];
    }
  }
}
