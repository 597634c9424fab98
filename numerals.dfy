/**
 * Decimal rendering of integers, as Python's `str(int)` and the zero-padded
 * fields of `strftime` produce it, together with the parse that reads such a
 * rendering back.
 */
module Numerals {
  import opened Wrappers

  predicate IsDigit(c: char) {
    '0' <= c <= '9'
  }

  predicate AllDigits(s: string) {
    forall i :: 0 <= i < |s| ==> IsDigit(s[i])
  }

  function DigitChar(k: nat): (c: char)
    requires k < 10
    ensures IsDigit(c)
  {
    ('0' as int + k) as char
  }

  function DigitValue(c: char): (k: nat)
    requires IsDigit(c)
    ensures k < 10 && DigitChar(k) == c
  {
    c as int - '0' as int
  }

  function Pow10(n: nat): (p: nat)
    ensures p >= 1
  {
    if n == 0 then 1 else 10 * Pow10(n - 1)
  }

  /** The value of a string of decimal digits, most significant first. */
  function DigitsValue(s: string): nat
    requires AllDigits(s)
  {
    if s == [] then 0 else 10 * DigitsValue(s[..|s| - 1]) + DigitValue(s[|s| - 1])
  }

  /** `str(n)` for a non-negative integer: no sign, no leading zeros. */
  function NatToString(n: nat): (s: string)
    ensures 1 <= |s| && AllDigits(s)
    ensures |s| > 1 ==> s[0] != '0'
  {
    if n < 10 then [DigitChar(n)] else NatToString(n / 10) + [DigitChar(n % 10)]
  }

  /** `str(i)` for any integer: a leading '-' for negative values. */
  function IntToString(i: int): (s: string)
    ensures 1 <= |s| && ' ' !in s
  {
    if i < 0 then "-" + NatToString(-i) else NatToString(i)
  }

  /** Reads back what IntToString writes; None for anything else. */
  function ParseInt(s: string): Option<int> {
    if 2 <= |s| && s[0] == '-' && AllDigits(s[1..]) then Some(-(DigitsValue(s[1..]) as int))
    else if 1 <= |s| && AllDigits(s) then Some(DigitsValue(s))
    else None
  }

  function Zeros(k: nat): (s: string)
    ensures |s| == k && AllDigits(s)
  {
    seq(k, _ => '0')
  }

  /** `n` in at least `width` digits, padded with leading zeros (`%02d`, `%04d`). */
  function ZeroPad(n: nat, width: nat): (s: string)
    ensures AllDigits(s) && |s| >= width
  {
    var digits := NatToString(n);
    if |digits| >= width then digits else Zeros(width - |digits|) + digits
  }

  lemma {:induction false} NatToStringValue(n: nat)
    ensures DigitsValue(NatToString(n)) == n
  {
    if n >= 10 {
      var s := NatToString(n);
      assert s[..|s| - 1] == NatToString(n / 10);
      NatToStringValue(n / 10);
    }
  }

  lemma {:induction false} NatToStringLength(n: nat, width: nat)
    requires 1 <= width && n < Pow10(width)
    ensures |NatToString(n)| <= width
  {
    if n >= 10 {
      assert width >= 2;
      assert n / 10 < Pow10(width - 1);
      NatToStringLength(n / 10, width - 1);
    }
  }

  lemma {:induction false} ZerosValue(k: nat)
    ensures DigitsValue(Zeros(k)) == 0
  {
    if k > 0 {
      assert Zeros(k)[..k - 1] == Zeros(k - 1);
      ZerosValue(k - 1);
    }
  }

  lemma {:induction false} LeadingZerosValue(k: nat, s: string)
    requires AllDigits(s)
    ensures DigitsValue(Zeros(k) + s) == DigitsValue(s)
    decreases |s|
  {
    if s == [] {
      assert Zeros(k) + s == Zeros(k);
      ZerosValue(k);
    } else {
      var init := s[..|s| - 1];
      assert (Zeros(k) + s)[..|Zeros(k) + s| - 1] == Zeros(k) + init;
      LeadingZerosValue(k, init);
    }
  }

  /** A padded field is exactly `width` digits long and reads back as `n`. */
  lemma ZeroPadReadsBack(n: nat, width: nat)
    requires 1 <= width && n < Pow10(width)
    ensures |ZeroPad(n, width)| == width
    ensures DigitsValue(ZeroPad(n, width)) == n
  {
    NatToStringLength(n, width);
    NatToStringValue(n);
    var digits := NatToString(n);
    if |digits| < width {
      var pad := Zeros(width - |digits|);
      assert ZeroPad(n, width) == pad + digits;
      LeadingZerosValue(width - |digits|, digits);
      assert |pad + digits| == width;
    }
  }

  /** A run of digits reads back as its value, with or without a leading minus sign. */
  lemma ParseDigits(digits: string)
    requires 1 <= |digits| && AllDigits(digits)
    ensures ParseInt(digits) == Some(DigitsValue(digits))
    ensures ParseInt("-" + digits) == Some(-(DigitsValue(digits) as int))
  {
    assert IsDigit(digits[0]);
    var signed := "-" + digits;
    assert signed[1..] == digits;
  }

  /** Round trip: the decimal rendering of any integer parses back to it. */
  lemma IntToStringParses(i: int)
    ensures ParseInt(IntToString(i)) == Some(i)
  {
    var n: nat := if i < 0 then -i else i;
    NatToStringValue(n);
    ParseDigits(NatToString(n));
  }

  /** `int(x)` on a float: drops the fraction, rounding toward zero. */
  function Truncate(x: real): (i: int)
    ensures 0.0 <= x ==> i as real <= x < i as real + 1.0
    ensures x < 0.0 ==> i as real - 1.0 < x <= i as real
  {
    if x >= 0.0 then x.Floor else -((-x).Floor)
  }

  /** The text before the first space. */
  function BeforeSpace(s: string): string {
    if s == [] || s[0] == ' ' then [] else [s[0]] + BeforeSpace(s[1..])
  }

  /** The text after the first space; empty when there is none. */
  function AfterSpace(s: string): string {
    if s == [] then [] else if s[0] == ' ' then s[1..] else AfterSpace(s[1..])
  }

  /** Splitting at the first space recovers a space-free head and whatever followed it. */
  lemma {:induction false} SplitAtSpace(head: string, tail: string)
    requires ' ' !in head
    ensures BeforeSpace(head + " " + tail) == head
    ensures AfterSpace(head + " " + tail) == tail
  {
    if head != [] {
      assert (head + " " + tail)[1..] == head[1..] + " " + tail;
      SplitAtSpace(head[1..], tail);
    }
  }
}
