/**
 * The decimal rendering of an 8-bit signed integer, as produced by the
 * standard `to_string` on `i8`, together with the parser that reads it back.
 * The conversion endpoint sends its amount in this form.
 */
module Decimal {
  import opened Errors

  /** A signed 8-bit integer. */
  newtype I8 = x: int | -128 <= x < 128

  predicate IsDigit(c: char) {
    '0' <= c <= '9'
  }

  predicate AllDigits(s: string) {
    forall i :: 0 <= i < |s| ==> IsDigit(s[i])
  }

  function DigitChar(d: nat): (c: char)
    requires d < 10
    ensures IsDigit(c) && (c as int) - ('0' as int) == d
  {
    ('0' as int + d) as char
  }

  function DigitValue(c: char): nat
    requires IsDigit(c)
  {
    (c as int) - ('0' as int)
  }

  /** Most significant digit first, no leading zero, at least one digit. */
  function NatToDecimal(n: nat): (s: string)
    ensures |s| >= 1 && AllDigits(s)
    ensures |s| > 1 ==> s[0] != '0'
    ensures n < 10 <==> |s| == 1
  {
    if n < 10 then [DigitChar(n)] else NatToDecimal(n / 10) + [DigitChar(n % 10)]
  }

  /** The value of a string of digits; the empty string reads as 0. */
  function DecimalToNat(s: string): nat
    requires AllDigits(s)
  {
    if s == [] then 0 else 10 * DecimalToNat(s[..|s| - 1]) + DigitValue(s[|s| - 1])
  }

  /** A minus sign in front of the magnitude for negative values. */
  function IntToDecimal(x: int): (s: string)
    ensures |s| >= 1
    ensures x < 0 <==> s[0] == '-'
    ensures x < 0 ==> AllDigits(s[1..]) && |s| >= 2
    ensures x >= 0 ==> AllDigits(s)
  {
    if x < 0 then "-" + NatToDecimal(-x) else NatToDecimal(x)
  }

  /** The rendering `value.to_string()` gives for an `i8`. */
  function I8ToString(v: I8): (s: string)
    ensures 1 <= |s| <= 4
  {
    I8Length(v);
    IntToDecimal(v as int)
  }

  /** Reads an optionally signed decimal; anything else is rejected. */
  function ParseInt(s: string): (r: Option<int>)
    ensures r.Some? ==> |s| >= 1
  {
    if s == [] then None
    else if s[0] == '-' then
      if |s| >= 2 && AllDigits(s[1..]) then var m: int := DecimalToNat(s[1..]); Some(-m) else None
    else if AllDigits(s) then Some(DecimalToNat(s))
    else None
  }

  /** Reads an `i8` back; out-of-range values are rejected. */
  function ParseI8(s: string): (r: Option<I8>)
  {
    match ParseInt(s)
    case Some(x) => if -128 <= x < 128 then Some(x as I8) else None
    case None => None
  }

  lemma {:induction false} NatRoundTrip(n: nat)
    ensures DecimalToNat(NatToDecimal(n)) == n
  {
    if n >= 10 {
      var s := NatToDecimal(n);
      assert s[..|s| - 1] == NatToDecimal(n / 10);
      NatRoundTrip(n / 10);
    }
  }

  lemma {:induction false} NatLength(n: nat, k: nat)
    requires n < Pow10(k)
    ensures |NatToDecimal(n)| <= (if k == 0 then 1 else k)
  {
    if n >= 10 {
      assert k >= 2;
      NatLength(n / 10, k - 1);
    }
  }

  function Pow10(k: nat): (p: nat)
    ensures p >= 1
  {
    if k == 0 then 1 else 10 * Pow10(k - 1)
  }

  lemma I8Length(v: I8)
    ensures |IntToDecimal(v as int)| <= 4
  {
    assert Pow10(3) == 1000;
    if v < 0 { NatLength(-(v as int), 3); } else { NatLength(v as int, 3); }
  }

  /** Parsing the rendering of any integer gives the integer back. */
  lemma IntRoundTrip(x: int)
    ensures ParseInt(IntToDecimal(x)) == Some(x)
  {
    if x < 0 {
      NegativeRoundTrip(-x);
    } else {
      NatRoundTrip(x);
    }
  }

  lemma NegativeRoundTrip(n: nat)
    requires n > 0
    ensures ParseInt("-" + NatToDecimal(n)) == Some(-(n as int))
  {
    var s := "-" + NatToDecimal(n);
    assert s[0] == '-' && s[1..] == NatToDecimal(n);
    NatRoundTrip(n);
  }

  /** `to_string` on an `i8` is lossless: the server can read the value back exactly. */
  lemma I8RoundTrip(v: I8)
    ensures ParseI8(I8ToString(v)) == Some(v)
  {
    IntRoundTrip(v as int);
  }

  /** Two different amounts are never sent as the same text. */
  lemma I8ToStringInjective(v: I8, w: I8)
    requires I8ToString(v) == I8ToString(w)
    ensures v == w
  {
    I8RoundTrip(v);
    I8RoundTrip(w);
  }
}
