/**
 * Decimal rendering of natural numbers, as PHP does when an integer is
 * interpolated into a string ("custom_column_{$this->customId}"), and the
 * parser that inverts it.
 */
module Numerals {
  import opened Wrappers

  predicate IsDigit(c: char) {
    '0' <= c <= '9'
  }

  predicate AllDigits(s: string) {
    forall i :: 0 <= i < |s| ==> IsDigit(s[i])
  }

  function DigitChar(d: nat): (c: char)
    requires d < 10
    ensures IsDigit(c)
  {
    ('0' as int + d) as char
  }

  function DigitValue(c: char): (d: nat)
    requires IsDigit(c)
    ensures d < 10 && DigitChar(d) == c
  {
    c as int - '0' as int
  }

  /** The decimal digits of n, most significant first, without leading zeros. */
  function Decimal(n: nat): (s: string)
    ensures |s| >= 1 && AllDigits(s)
    ensures s[0] == '0' ==> n == 0 && |s| == 1
    decreases n
  {
    if n < 10 then [DigitChar(n)] else Decimal(n / 10) + [DigitChar(n % 10)]
  }

  /** The number a string of digits denotes (0 for the empty string). */
  function ValueOf(s: string): nat
    requires AllDigits(s)
    decreases |s|
  {
    if s == [] then 0 else ValueOf(s[..|s| - 1]) * 10 + DigitValue(s[|s| - 1])
  }

  function ParseNat(s: string): (r: Option<nat>)
    ensures r.Some? <==> |s| > 0 && AllDigits(s)
  {
    if |s| > 0 && AllDigits(s) then Some(ValueOf(s)) else None
  }

  /** Appending a digit multiplies the value by ten and adds the digit. */
  lemma ValueOfSnoc(front: string, c: char)
    requires AllDigits(front) && IsDigit(c)
    ensures AllDigits(front + [c])
    ensures ValueOf(front + [c]) == ValueOf(front) * 10 + DigitValue(c)
  {
  }

  /** Parsing the rendering of n gives n back. */
  lemma {:induction false} ParseDecimal(n: nat)
    ensures ParseNat(Decimal(n)) == Some(n)
    decreases n
  {
    if n < 10 {
      assert Decimal(n) == [] + [DigitChar(n)];
      ValueOfSnoc([], DigitChar(n));
      assert DigitValue(DigitChar(n)) == n;
    } else {
      var front, last := Decimal(n / 10), DigitChar(n % 10);
      assert Decimal(n) == front + [last];
      ParseDecimal(n / 10);
      ValueOfSnoc(front, last);
      assert ValueOf(front + [last]) == n / 10 * 10 + n % 10;
    }
  }

  /** Distinct numbers have distinct renderings. */
  lemma DecimalInjective(a: nat, b: nat)
    ensures Decimal(a) == Decimal(b) ==> a == b
  {
    ParseDecimal(a);
    ParseDecimal(b);
  }
}
