/**
 * Decimal digit strings: the value of an ASCII digit string, the shortest
 * decimal rendering of a natural number (what `%d` prints), and
 * `Integer.parseInt` restricted to the digit strings that a `\d+` group holds.
 */
module Decimal {
  import opened Wrappers

  /** Largest Java `int`; `Integer.parseInt` rejects anything above it. */
  const IntMax: int := 0x7fff_ffff

  predicate IsDigit(c: char) { '0' <= c <= '9' }

  predicate AllDigits(s: string) { forall k :: 0 <= k < |s| ==> IsDigit(s[k]) }

  function DigitChar(d: nat): (c: char)
    requires d < 10
    ensures IsDigit(c) && c as int - '0' as int == d
  {
    (('0' as int) + d) as char
  }

  /** The number a digit string denotes, read most significant digit first. */
  function Value(s: string): nat
    requires AllDigits(s)
  {
    if |s| == 0 then 0
    else Value(s[..|s| - 1]) * 10 + (s[|s| - 1] as int - '0' as int)
  }

  /** The decimal rendering of `n` without leading zeros, as `%d` prints it. */
  function ToDecimal(n: nat): (s: string)
    ensures |s| >= 1 && AllDigits(s)
    ensures n < 10 <==> |s| == 1
    ensures s[0] == '0' <==> n == 0
  {
    if n < 10 then [DigitChar(n)]
    else
      var high := ToDecimal(n / 10);
      assert (high + [DigitChar(n % 10)])[0] == high[0];
      high + [DigitChar(n % 10)]
  }

  /** `%02d` for a number below 100: pads a single digit with one zero. */
  function Pad2(n: nat): (s: string)
    requires n < 100
    ensures |s| == 2 && AllDigits(s)
  {
    if n < 10 then ['0', DigitChar(n)] else ToDecimal(n)
  }

  /**
   * `Integer.parseInt` on a non-empty digit string: the value, or `None`
   * (a `NumberFormatException`) when the value does not fit in an `int`.
   */
  function ParseInt(s: string): (r: Option<int>)
    requires |s| > 0 && AllDigits(s)
    ensures r.Some? <==> Value(s) <= IntMax
    ensures r.Some? ==> r.value == Value(s) && 0 <= r.value
  {
    if Value(s) <= IntMax then Some(Value(s)) else None
  }

  lemma {:induction false} ValueOfToDecimal(n: nat)
    ensures Value(ToDecimal(n)) == n
  {
    var s := ToDecimal(n);
    if n < 10 {
      assert s[..0] == [];
    } else {
      var p := ToDecimal(n / 10);
      assert s == p + [DigitChar(n % 10)];
      assert s[..|s| - 1] == p;
      ValueOfToDecimal(n / 10);
    }
  }

  /** A leading zero does not change the value of a digit string. */
  lemma {:induction false} ValueLeadingZero(s: string)
    requires AllDigits(s)
    ensures AllDigits(['0'] + s) && Value(['0'] + s) == Value(s)
  {
    if |s| > 0 {
      var t := ['0'] + s;
      assert t[..|t| - 1] == ['0'] + s[..|s| - 1];
      ValueLeadingZero(s[..|s| - 1]);
    } else {
      assert (['0'] + s)[..0] == [];
    }
  }

  lemma Pad2Value(n: nat)
    requires n < 100
    ensures Value(Pad2(n)) == n
  {
    if n < 10 {
      ValueLeadingZero([DigitChar(n)]);
      ValueOfToDecimal(n);
      assert ['0', DigitChar(n)] == ['0'] + [DigitChar(n)];
    } else {
      ValueOfToDecimal(n);
    }
  }

  /** Parsing what `%d` printed gives the number back, for every `int`-sized value. */
  lemma ParseIntOfToDecimal(n: nat)
    requires n <= IntMax
    ensures ParseInt(ToDecimal(n)) == Some(n)
  {
    ValueOfToDecimal(n);
  }
}
