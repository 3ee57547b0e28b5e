/**
 * The two conversions of arbitrary-precision integers the projectors rely on: the byte form of
 * BigInteger.ToByteArray (little-endian two's complement, shortest form) and the decimal text
 * form read by BigInteger.TryParse / BigInteger.Parse and written by ToString.
 */
module BigIntegers {
  import opened Wrappers
  import opened Primitives

  // ---------------------------------------------------------------------------------------
  // Two's-complement byte form

  /** The integer a little-endian two's-complement byte string denotes (the BigInteger(byte[]) reading). */
  function FromByteArray(bs: seq<byte>): (n: int)
    requires |bs| > 0
  {
    if |bs| == 1 then (if bs[0] < 0x80 then bs[0] as int else bs[0] as int - 0x100)
    else bs[0] as int + 0x100 * FromByteArray(bs[1..])
  }

  /** No redundant sign byte at the most significant end. */
  predicate Minimal(bs: seq<byte>)
  {
    |bs| > 0 &&
    (|bs| == 1 ||
     var top, next := bs[|bs| - 1], bs[|bs| - 2];
     !(top == 0 && next < 0x80) && !(top == 0xFF && next >= 0x80))
  }

  /** BigInteger.ToByteArray: the shortest little-endian two's-complement encoding; zero is [0]. */
  function ToByteArray(n: int): (bs: seq<byte>)
    ensures |bs| > 0
    decreases if n >= 0 then n else -n
  {
    var lo := n % 0x100;
    var rest := n / 0x100;
    if (rest == 0 && lo < 0x80) || (rest == -1 && lo >= 0x80) then [lo as byte]
    else [lo as byte] + ToByteArray(rest)
  }

  lemma {:induction false} FromToByteArray(n: int)
    ensures FromByteArray(ToByteArray(n)) == n
    decreases if n >= 0 then n else -n
  {
    var lo := n % 0x100;
    var rest := n / 0x100;
    if !((rest == 0 && lo < 0x80) || (rest == -1 && lo >= 0x80)) {
      var bs := ToByteArray(n);
      assert bs[1..] == ToByteArray(rest);
      FromToByteArray(rest);
    }
  }

  /** A minimal byte string longer than one byte stands for a value outside -128..127. */
  lemma {:induction false} MinimalMagnitude(bs: seq<byte>)
    requires Minimal(bs) && |bs| >= 2
    ensures FromByteArray(bs) >= 0x80 || FromByteArray(bs) < -0x80
  {
    var tail := bs[1..];
    if |bs| > 2 {
      assert tail[|tail| - 1] == bs[|bs| - 1] && tail[|tail| - 2] == bs[|bs| - 2];
      MinimalMagnitude(tail);
    }
  }

  lemma {:induction false} ToByteArrayMinimal(n: int)
    ensures Minimal(ToByteArray(n))
    decreases if n >= 0 then n else -n
  {
    var lo := n % 0x100;
    var rest := n / 0x100;
    if !((rest == 0 && lo < 0x80) || (rest == -1 && lo >= 0x80)) {
      var bs := ToByteArray(n);
      var tail := ToByteArray(rest);
      assert bs[1..] == tail;
      ToByteArrayMinimal(rest);
      if |tail| == 1 {
        assert tail[0] == (rest % 0x100) as byte;
      } else {
        assert bs[|bs| - 1] == tail[|tail| - 1] && bs[|bs| - 2] == tail[|tail| - 2];
      }
    }
  }

  lemma SplitLowByte(lo: byte, rest: int)
    ensures (lo as int + 0x100 * rest) % 0x100 == lo as int
    ensures (lo as int + 0x100 * rest) / 0x100 == rest
  {
  }

  /** Re-encoding a minimal byte string gives it back: the byte form of an integer is unique. */
  lemma {:induction false} ToFromByteArray(bs: seq<byte>)
    requires Minimal(bs)
    ensures ToByteArray(FromByteArray(bs)) == bs
  {
    if |bs| > 1 {
      var n := FromByteArray(bs);
      var tail := bs[1..];
      assert Minimal(tail) by {
        if |tail| > 1 {
          assert tail[|tail| - 1] == bs[|bs| - 1] && tail[|tail| - 2] == bs[|bs| - 2];
        }
      }
      ToFromByteArray(tail);
      var rest := FromByteArray(tail);
      SplitLowByte(bs[0], rest);
      if |tail| > 1 {
        MinimalMagnitude(tail);
      }
      assert !((rest == 0 && bs[0] < 0x80) || (rest == -1 && bs[0] >= 0x80));
      assert ToByteArray(n) == [bs[0]] + ToByteArray(rest);
      assert bs == [bs[0]] + tail;
    }
  }

  // ---------------------------------------------------------------------------------------
  // Decimal text form

  /** The white space NumberStyles.Integer allows around a number. */
  predicate IsWhite(c: char)
  {
    c == ' ' || ('\t' <= c <= '\r')
  }

  predicate IsDigit(c: char) { '0' <= c <= '9' }

  function TrimStart(s: string): (r: string)
    ensures |r| <= |s| && r == s[|s| - |r|..]
    ensures r == [] || !IsWhite(r[0])
  {
    if |s| > 0 && IsWhite(s[0]) then TrimStart(s[1..]) else s
  }

  function TrimEnd(s: string): (r: string)
    ensures |r| <= |s| && r == s[..|r|]
    ensures r == [] || !IsWhite(r[|r| - 1])
  {
    if |s| > 0 && IsWhite(s[|s| - 1]) then TrimEnd(s[..|s| - 1]) else s
  }

  function DigitValue(c: char): (d: nat)
    requires IsDigit(c)
    ensures d < 10
  {
    c as int - '0' as int
  }

  /** The value of a string of decimal digits, most significant first. */
  function DigitsValue(ds: string): (n: nat)
    requires forall i | 0 <= i < |ds| :: IsDigit(ds[i])
  {
    if |ds| == 0 then 0
    else
      var last := ds[|ds| - 1];
      assert IsDigit(last);
      10 * DigitsValue(ds[..|ds| - 1]) + DigitValue(last)
  }

  /** One or more digits, read as a natural number. */
  function ParseDigits(ds: string): (r: Option<nat>)
    ensures r.Some? <==> |ds| > 0 && forall i | 0 <= i < |ds| :: IsDigit(ds[i])
  {
    if |ds| > 0 && forall i | 0 <= i < |ds| :: IsDigit(ds[i]) then Some(DigitsValue(ds)) else None
  }

  /** An optional leading sign, then one or more decimal digits. */
  predicate IsIntegerText(t: string)
  {
    && |t| > 0
    && (IsDigit(t[0]) || ((t[0] == '-' || t[0] == '+') && |t| > 1))
    && forall i | 1 <= i < |t| :: IsDigit(t[i])
  }

  /** Trimmed text: an optional sign and the digits after it. */
  function ParseSigned(t: string): (r: Option<int>)
    ensures r.Some? <==> IsIntegerText(t)
    ensures r.Some? ==> (r.value < 0 ==> t[0] == '-') && (IsDigit(t[0]) ==> r.value == DigitsValue(t))
  {
    DigitsAfterSign(t);
    if |t| > 0 && t[0] == '-' then
      match ParseDigits(t[1..]) case Some(n) => Some(-(n as int)) case None => None
    else if |t| > 0 && t[0] == '+' then
      match ParseDigits(t[1..]) case Some(n) => Some(n as int) case None => None
    else
      match ParseDigits(t) case Some(n) => Some(n as int) case None => None
  }

  /**
   * BigInteger.TryParse with NumberStyles.Integer: optional white space on both sides, an
   * optional leading sign, one or more decimal digits. A null string does not parse.
   */
  function TryParseInteger(s: Option<string>): (r: Option<int>)
    ensures s.None? ==> r.None?
    ensures s.Some? ==> (r.Some? <==> IsIntegerText(TrimEnd(TrimStart(s.value))))
    ensures s.Some? && r.Some? ==>
      var t := TrimEnd(TrimStart(s.value));
      (r.value < 0 ==> t[0] == '-') && (IsDigit(t[0]) ==> r.value == DigitsValue(t))
  {
    match s
    case None => None
    case Some(text) => ParseSigned(TrimEnd(TrimStart(text)))
  }

  /** Parsed text has the signed decimal value of its digits. */
  lemma TryParseSignedValue(s: string)
    requires TryParseInteger(Some(s)).Some?
    ensures var t := TrimEnd(TrimStart(s));
      TryParseInteger(Some(s)).value ==
        if t[0] == '-' then -(DigitsValue(t[1..]) as int)
        else if t[0] == '+' then DigitsValue(t[1..]) as int
        else DigitsValue(t) as int
  {
    DigitsAfterSign(TrimEnd(TrimStart(s)));
  }

  /** The digits after a leading sign are all of the text but its first character. */
  lemma DigitsAfterSign(t: string)
    ensures |t| > 0 ==>
      (ParseDigits(t[1..]).Some? <==> |t| > 1 && forall i | 1 <= i < |t| :: IsDigit(t[i]))
  {
    if |t| > 0 {
      var ds := t[1..];
      assert forall i | 1 <= i < |t| :: t[i] == ds[i - 1];
      assert forall j | 0 <= j < |ds| :: ds[j] == t[j + 1];
    }
  }

  function DigitChar(d: nat): (c: char)
    requires d < 10
  {
    ('0' as int + d) as char
  }

  /** The decimal digits of a natural number, without leading zeros. */
  function NatToString(n: nat): (s: string)
    ensures |s| > 0 && forall i | 0 <= i < |s| :: IsDigit(s[i])
  {
    if n < 10 then [DigitChar(n)] else NatToString(n / 10) + [DigitChar(n % 10)]
  }

  /** BigInteger.ToString(): a '-' for negative values, then the digits. */
  function IntToString(n: int): (s: string)
    ensures |s| > 0 && (s[0] == '-' <==> n < 0)
    ensures forall i | 0 <= i < |s| && (n >= 0 || i > 0) :: IsDigit(s[i])
  {
    if n < 0 then "-" + NatToString(-n) else NatToString(n)
  }

  lemma {:induction false} DigitsValueNatToString(n: nat)
    ensures DigitsValue(NatToString(n)) == n
  {
    if n >= 10 {
      var s := NatToString(n);
      assert s[..|s| - 1] == NatToString(n / 10);
      DigitsValueNatToString(n / 10);
    }
  }

  /** Text with no white space at either end is left alone by trimming. */
  lemma TrimUnchanged(s: string)
    requires |s| > 0 && !IsWhite(s[0]) && !IsWhite(s[|s| - 1])
    ensures TrimEnd(TrimStart(s)) == s
  {
  }

  lemma TryParseNatToString(n: nat)
    ensures TryParseInteger(Some(NatToString(n))) == Some(n as int)
  {
    var s := NatToString(n);
    TrimUnchanged(s);
    DigitsValueNatToString(n);
  }

  lemma TryParseNegativeToString(n: nat)
    ensures TryParseInteger(Some("-" + NatToString(n))) == Some(-(n as int))
  {
    var d := NatToString(n);
    var s := "-" + d;
    assert s[1..] == d && s[0] == '-' && s[|s| - 1] == d[|d| - 1];
    TrimUnchanged(s);
    DigitsValueNatToString(n);
  }



  /** Parsing reads back what ToString writes. */
  lemma TryParseIntToString(n: int)
    ensures TryParseInteger(Some(IntToString(n))) == Some(n)
  {
    if n < 0 {
      assert IntToString(n) == "-" + NatToString(-n);
      TryParseNegativeToString(-n);
    } else {
      assert IntToString(n) == NatToString(n);
      TryParseNatToString(n);
    }
  }
}
