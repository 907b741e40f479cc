/** The two .NET library calls the account-number generator relies on:
    `Int64.ToString()` of a non-negative number (plain decimal, no leading
    zeros) and `String.PadLeft(width, c)`, together with the decimal value
    of a digit string, which is what makes the formatting reversible. */
module Decimal {

  predicate IsDigit(c: char) {
    '0' <= c <= '9'
  }

  predicate AllDigits(s: string) {
    forall i :: 0 <= i < |s| ==> IsDigit(s[i])
  }

  function DigitValue(c: char): nat
    requires IsDigit(c)
  {
    c as int - '0' as int
  }

  function DigitChar(d: nat): (c: char)
    requires d < 10
    ensures IsDigit(c) && DigitValue(c) == d
  {
    ('0' as int + d) as char
  }

  function Pow10(k: nat): (p: nat)
    ensures p >= 1
  {
    if k == 0 then 1 else 10 * Pow10(k - 1)
  }

  /** The decimal value of a string of digits, most significant digit first. */
  function Value(s: string): nat
    requires AllDigits(s)
  {
    if s == [] then 0 else Value(s[..|s| - 1]) * 10 + DigitValue(s[|s| - 1])
  }

  /** `n.ToString()` for a non-negative integer: at least one digit, and a
      leading '0' only for the number zero itself. */
  function ToString(n: nat): (s: string)
    ensures |s| >= 1 && AllDigits(s)
    ensures s[0] == '0' <==> n == 0
    decreases n
  {
    if n < 10 then [DigitChar(n)] else ToString(n / 10) + [DigitChar(n % 10)]
  }

  /** `s.PadLeft(width, pad)`: strings already at least `width` long are
      returned as they are; shorter ones get `pad` prepended up to `width`. */
  function PadLeft(s: string, width: nat, pad: char): (r: string)
    ensures |r| == if |s| < width then width else |s|
    ensures r[|r| - |s|..] == s
    ensures forall i :: 0 <= i < |r| - |s| ==> r[i] == pad
  {
    if |s| >= width then s else seq(width - |s|, _ => pad) + s
  }

  /** Reading back what `ToString` wrote gives the number again. */
  lemma {:induction false} ValueOfToString(n: nat)
    ensures Value(ToString(n)) == n
    decreases n
  {
    var s := ToString(n);
    if n >= 10 {
      var front := ToString(n / 10);
      assert s[..|s| - 1] == front;
      ValueOfToString(n / 10);
    }
  }

  /** A number below 10^k is written with at most k digits. */
  lemma {:induction false} ToStringLength(n: nat, k: nat)
    requires k >= 1 && n < Pow10(k)
    ensures |ToString(n)| <= k
    decreases n
  {
    if n >= 10 {
      assert k >= 2;
      assert n / 10 < Pow10(k - 1);
      ToStringLength(n / 10, k - 1);
    }
  }

  /** A run of '0' characters is worth nothing. */
  lemma {:induction false} ValueOfZeros(z: nat)
    ensures AllDigits(seq(z, _ => '0')) && Value(seq(z, _ => '0')) == 0
  {
    if z > 0 {
      var zeros := seq(z, _ => '0');
      assert zeros[..z - 1] == seq(z - 1, _ => '0');
      ValueOfZeros(z - 1);
    }
  }

  /** Leading zeros do not change the value of a digit string. */
  lemma {:induction false} ValueOfLeadingZeros(z: nat, s: string)
    requires AllDigits(s)
    ensures AllDigits(seq(z, _ => '0') + s)
    ensures Value(seq(z, _ => '0') + s) == Value(s)
    decreases |s|
  {
    var zeros := seq(z, _ => '0');
    if s == [] {
      assert zeros + s == zeros;
      ValueOfZeros(z);
    } else {
      var t := zeros + s;
      assert t[..|t| - 1] == zeros + s[..|s| - 1];
      ValueOfLeadingZeros(z, s[..|s| - 1]);
    }
  }
}
