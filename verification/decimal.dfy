/** Decimal numerals: the strings produced by `Number.prototype.toString`
    on whole numbers and by `Number.prototype.toFixed`, and the value a
    string of digits denotes. Everything is over exact naturals. */
module Decimal {

  /** 10 to the power k. */
  function Pow10(k: nat): (p: nat)
    ensures p >= 1
  {
    if k == 0 then 1 else 10 * Pow10(k - 1)
  }

  predicate IsDigit(c: char) {
    '0' <= c <= '9'
  }

  predicate AllDigits(s: string) {
    forall i :: 0 <= i < |s| ==> IsDigit(s[i])
  }

  /** A canonical whole-number numeral: at least one digit and no
      leading zero unless the numeral is "0" itself. */
  predicate IsNumeral(s: string) {
    |s| > 0 && AllDigits(s) && (s[0] == '0' ==> |s| == 1)
  }

  function DigitChar(d: nat): (c: char)
    requires d < 10
    ensures IsDigit(c)
  {
    ('0' as int + d) as char
  }

  function DigitValue(c: char): (d: nat)
    requires IsDigit(c)
    ensures d < 10
  {
    c as int - '0' as int
  }

  /** The number a string of decimal digits denotes, most significant first. */
  function DigitsValue(s: string): nat
    requires AllDigits(s)
  {
    if s == [] then 0 else 10 * DigitsValue(s[..|s| - 1]) + DigitValue(s[|s| - 1])
  }

  /** The numeral of a natural number, as `Math.round(x).toString()` prints it. */
  function NatToDecimal(n: nat): (s: string)
    ensures IsNumeral(s)
    ensures DigitsValue(s) == n
  {
    if n < 10 then [DigitChar(n)]
    else
      var init := NatToDecimal(n / 10);
      var s := init + [DigitChar(n % 10)];
      assert s[..|s| - 1] == init;
      s
  }

  /** Exactly k digits, zero-padded on the left, denoting v. */
  function Pad(v: nat, k: nat): (s: string)
    requires v < Pow10(k)
    ensures |s| == k
    ensures AllDigits(s)
    ensures DigitsValue(s) == v
  {
    if k == 0 then []
    else
      var init := Pad(v / 10, k - 1);
      var s := init + [DigitChar(v % 10)];
      assert s[..|s| - 1] == init;
      s
  }

  /** `s` is a fixed-point numeral with whole part `whole` and exactly k
      fractional digits denoting `frac`: a canonical whole-number numeral,
      a '.', then k digits. Its value is whole + frac / 10^k. */
  predicate DenotesFixed(s: string, whole: nat, frac: nat, k: nat) {
    && k >= 1
    && |s| >= k + 2
    && s[|s| - k - 1] == '.'
    && IsNumeral(s[..|s| - k - 1])
    && AllDigits(s[|s| - k..])
    && DigitsValue(s[..|s| - k - 1]) == whole
    && DigitsValue(s[|s| - k..]) == frac
  }

  /** A canonical whole part, a '.', and k digits make a fixed-point
      numeral with k fractional digits. */
  lemma JoinAtPoint(w: string, f: string, k: nat)
    requires k >= 1 && IsNumeral(w) && AllDigits(f) && |f| == k
    ensures DenotesFixed(w + "." + f, DigitsValue(w), DigitsValue(f), k)
  {
    var s := w + "." + f;
    assert s[..|s| - k - 1] == w;
    assert s[|s| - k..] == f;
  }

  /** The numeral with whole part `whole` and exactly k fractional digits
      for `frac`, as `toFixed(k)` prints a number that is a multiple of 10^-k. */
  function Fixed(whole: nat, frac: nat, k: nat): (s: string)
    requires k >= 1 && frac < Pow10(k)
    ensures DenotesFixed(s, whole, frac, k)
  {
    JoinAtPoint(NatToDecimal(whole), Pad(frac, k), k);
    NatToDecimal(whole) + "." + Pad(frac, k)
  }

  /** n / unit rounded to the nearest whole number, halves upward: the
      rounding both `toFixed` and `Math.round` apply to a non-negative value. */
  function RoundHalfUp(n: nat, unit: nat): (q: nat)
    requires unit > 0 && unit % 2 == 0
    ensures (2 * q - 1) * unit <= 2 * n < (2 * q + 1) * unit
  {
    (n + unit / 2) / unit
  }
}
