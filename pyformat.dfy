/**
 * Python's integer formatting as the scripts use it: `str(i)` and `"%d" % i`
 * (no padding) and `"%03d" % i` (zero-padded to a minimum width, the sign
 * counted in the width). A parser for the same text gives the round trip
 * that makes formatted names distinguishable.
 */
module PyFormat {

  predicate IsDigit(c: char) {
    '0' <= c <= '9'
  }

  function DigitChar(d: nat): (c: char)
    requires d < 10
    ensures IsDigit(c) && (c as int) - ('0' as int) == d
  {
    (('0' as int) + d) as char
  }

  /** The value of a digit character; other characters read as 0. */
  function DigitValue(c: char): nat {
    if IsDigit(c) then (c as int) - ('0' as int) else 0
  }

  /** The decimal digits of `n`, most significant first, without leading zeros. */
  function Digits(n: nat): (s: string)
    ensures |s| >= 1
    decreases n
  {
    if n < 10 then [DigitChar(n)] else Digits(n / 10) + [DigitChar(n % 10)]
  }

  /** Every character of `Digits(n)` is a digit, and only 0 is written with a leading '0'. */
  lemma {:induction false} DigitsWellFormed(n: nat)
    ensures forall i :: 0 <= i < |Digits(n)| ==> IsDigit(Digits(n)[i])
    ensures Digits(n)[0] == '0' ==> n == 0
    decreases n
  {
    if n >= 10 {
      DigitsWellFormed(n / 10);
    }
  }

  /** Reads a string of digits as a decimal number. */
  function ParseDigits(s: string): nat
    decreases |s|
  {
    if s == [] then 0 else ParseDigits(s[..|s| - 1]) * 10 + DigitValue(s[|s| - 1])
  }

  function Zeros(k: nat): string {
    if k == 0 then [] else ['0'] + Zeros(k - 1)
  }

  /** `Zeros(k)` is `k` characters '0'. */
  lemma {:induction false} ZerosShape(k: nat)
    ensures |Zeros(k)| == k && forall i :: 0 <= i < k ==> Zeros(k)[i] == '0'
  {
    if k > 0 {
      ZerosShape(k - 1);
    }
  }

  /** Left-pads `s` with '0' up to `width` characters. */
  function ZeroPad(s: string, width: int): string {
    if |s| >= width then s else Zeros(width - |s|) + s
  }

  /** Padding keeps `s` at the end and puts only '0' in front, up to `width` characters. */
  lemma ZeroPadShape(s: string, width: int)
    ensures var r := ZeroPad(s, width);
      |r| == (if |s| >= width then |s| else width) &&
      r[|r| - |s|..] == s &&
      forall i :: 0 <= i < |r| - |s| ==> r[i] == '0'
  {
    if |s| < width {
      ZerosShape(width - |s|);
    }
  }

  /** Reads an optionally '-'-signed decimal numeral. */
  function ParseInt(s: string): int {
    if |s| > 0 && s[0] == '-' then -(ParseDigits(s[1..]) as int) else ParseDigits(s)
  }

  /** The sign Python writes in front of an integer: "-" for a negative one, nothing otherwise. */
  function Sign(i: int): (s: string)
    ensures |s| <= 1
  {
    if i < 0 then "-" else ""
  }

  /** The magnitude of an integer. */
  function Magnitude(i: int): nat {
    if i < 0 then -i else i
  }

  /**
   * Python's `"%0<width>d" % i`: the sign, then the digits of the magnitude
   * zero-padded so that the whole is at least `width` long. A width of 0 is
   * plain `"%d" % i`, which is also `str(i)`.
   */
  function FormatInt(i: int, width: nat): string {
    Sign(i) + ZeroPad(Digits(Magnitude(i)), width - |Sign(i)|)
  }

  /** Python's `str(i)` for an int, the same text as `"%d" % i`. */
  function Str(i: int): string {
    FormatInt(i, 0)
  }

  /** A formatted integer is at least `width` long and reads back as itself. */
  lemma FormatIntReadsBack(i: int, width: nat)
    ensures |FormatInt(i, width)| >= 1 && |FormatInt(i, width)| >= width
    ensures ParseInt(FormatInt(i, width)) == i
  {
    ZeroPadShape(Digits(Magnitude(i)), width - |Sign(i)|);
    if i < 0 {
      NegativeReadsBack(-i, width);
    } else {
      NonNegativeReadsBack(i, width);
    }
  }

  lemma NegativeReadsBack(n: nat, width: nat)
    requires n > 0
    ensures ParseInt(FormatInt(-(n as int), width)) == -(n as int)
  {
    var p := ZeroPad(Digits(n), width - 1);
    PaddedDigits(n, width - 1);
    ParseNegative(FormatInt(-(n as int), width), p);
  }

  lemma NonNegativeReadsBack(n: nat, width: nat)
    ensures ParseInt(FormatInt(n, width)) == n
  {
    var s := ZeroPad(Digits(n), width);
    assert Sign(n) == "";
    assert FormatInt(n, width) == s;
    PaddedDigits(n, width);
    ParseUnsigned(FormatInt(n, width));
  }

  /** Text starting with a digit reads as an unsigned numeral. */
  lemma ParseUnsigned(s: string)
    requires |s| > 0 && IsDigit(s[0])
    ensures ParseInt(s) == ParseDigits(s)
  {
  }

  /** A leading '-' negates the numeral after it. */
  lemma ParseNegative(s: string, p: string)
    requires s == "-" + p
    ensures ParseInt(s) == -(ParseDigits(p) as int)
  {
    assert s[0] == '-';
    assert s[1..] == p;
  }

  /** Zero-padded digits start with a digit and read back as the number. */
  lemma PaddedDigits(n: nat, width: int)
    ensures IsDigit(ZeroPad(Digits(n), width)[0])
    ensures ParseDigits(ZeroPad(Digits(n), width)) == n
  {
    var d := Digits(n);
    var r := ZeroPad(d, width);
    DigitsWellFormed(n);
    ZeroPadShape(d, width);
    DigitsRoundTrip(n);
    LeadingZerosIgnored(r, d);
    if |r| == |d| {
      assert r == d;
    }
  }

  lemma {:induction false} DigitsRoundTrip(n: nat)
    ensures ParseDigits(Digits(n)) == n
    decreases n
  {
    if n >= 10 {
      DigitsRoundTrip(n / 10);
      var s := Digits(n);
      assert s[..|s| - 1] == Digits(n / 10);
    }
  }

  /** Parsing reads past any '0' characters in front of the digits. */
  lemma {:induction false} LeadingZerosIgnored(r: string, s: string)
    requires |r| >= |s| && r[|r| - |s|..] == s
    requires forall i :: 0 <= i < |r| - |s| ==> r[i] == '0'
    ensures ParseDigits(r) == ParseDigits(s)
    decreases |s|
  {
    if s == [] {
      AllZerosParseToZero(r);
    } else {
      var r', s' := r[..|r| - 1], s[..|s| - 1];
      assert r'[|r'| - |s'|..] == s';
      LeadingZerosIgnored(r', s');
    }
  }

  lemma {:induction false} AllZerosParseToZero(r: string)
    requires forall i :: 0 <= i < |r| ==> r[i] == '0'
    ensures ParseDigits(r) == 0
    decreases |r|
  {
    if r != [] {
      AllZerosParseToZero(r[..|r| - 1]);
    }
  }
}
