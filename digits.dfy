/** Decimal digit strings: Python's `str.isdigit`, `int(s)` on such strings,
    `str(n)` on a natural number, and zero-padded fields as `strftime` writes them. */
module Digits {

  predicate IsDigit(c: char) {
    '0' <= c <= '9'
  }

  /** `s.isdigit()`: non-empty and made of decimal digits only. */
  predicate IsDigits(s: string) {
    |s| > 0 && forall i :: 0 <= i < |s| ==> IsDigit(s[i])
  }

  function DigitValue(c: char): (d: nat)
    requires IsDigit(c)
    ensures d < 10
  {
    (c as int - '0' as int)
  }

  function DigitChar(d: nat): (c: char)
    requires d < 10
    ensures IsDigit(c) && DigitValue(c) == d
  {
    ('0' as int + d) as char
  }

  /** `int(s)` for a string of decimal digits (leading zeros allowed). */
  function DigitsValue(s: string): (n: nat)
    requires forall i :: 0 <= i < |s| ==> IsDigit(s[i])
    ensures n < Pow10(|s|)
  {
    if s == [] then 0
    else 10 * DigitsValue(s[..|s| - 1]) + DigitValue(s[|s| - 1])
  }

  function Pow10(k: nat): (r: nat)
    ensures r >= 1
  {
    if k == 0 then 1 else 10 * Pow10(k - 1)
  }

  /** Appending one digit scales the value by ten and adds the digit. */
  lemma AppendDigit(s: string, d: nat)
    requires forall i :: 0 <= i < |s| ==> IsDigit(s[i])
    requires d < 10
    ensures forall i :: 0 <= i < |s + [DigitChar(d)]| ==> IsDigit((s + [DigitChar(d)])[i])
    ensures DigitsValue(s + [DigitChar(d)]) == 10 * DigitsValue(s) + d
  {
    var t := s + [DigitChar(d)];
    assert t[..|t| - 1] == s;
  }

  /** `str(n)`: the shortest decimal rendering of `n`. It reads back as `n`
      and starts with a zero only when it is "0". */
  function ToDecimal(n: nat): (r: string)
    ensures IsDigits(r)
    ensures DigitsValue(r) == n
    ensures r[0] == '0' ==> n == 0
  {
    if n < 10 then
      [DigitChar(n)]
    else
      AppendDigit(ToDecimal(n / 10), n % 10);
      ToDecimal(n / 10) + [DigitChar(n % 10)]
  }

  /** A `strftime` field such as `%m` or `%Y`: `n` written with exactly `width`
      digits, zero-padded on the left. */
  function Pad(n: nat, width: nat): (r: string)
    requires n < Pow10(width)
    ensures |r| == width
    ensures forall i :: 0 <= i < |r| ==> IsDigit(r[i])
    ensures DigitsValue(r) == n
  {
    if width == 0 then
      []
    else
      AppendDigit(Pad(n / 10, width - 1), n % 10);
      Pad(n / 10, width - 1) + [DigitChar(n % 10)]
  }
}
