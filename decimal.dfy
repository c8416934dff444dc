/** Decimal numerals: Python's str() of a non-negative int, and reading a
    numeral back. */
module Decimal {

  predicate IsDigit(ch: char) {
    '0' <= ch <= '9'
  }

  predicate AllDigits(s: string) {
    forall i :: 0 <= i < |s| ==> IsDigit(s[i])
  }

  function DigitChar(d: nat): (ch: char)
    requires d < 10
    ensures IsDigit(ch) && ch as int - '0' as int == d
  {
    (d + '0' as int) as char
  }

  /** str(n) for n >= 0: most significant digit first, no leading zeros. */
  function FromNat(n: nat): (s: string)
    ensures 1 <= |s| && AllDigits(s)
    ensures |s| > 1 ==> s[0] != '0'
    decreases n
  {
    if n < 10 then [DigitChar(n)] else FromNat(n / 10) + [DigitChar(n % 10)]
  }

  /** The value of a numeral. */
  function ToNat(s: string): nat
    requires AllDigits(s)
    decreases |s|
  {
    if s == [] then 0
    else ToNat(s[..|s| - 1]) * 10 + (s[|s| - 1] as int - '0' as int)
  }

  /** The longest prefix of s that consists of digits. */
  function DigitPrefix(s: string): (ds: string)
    ensures |ds| <= |s| && ds == s[..|ds|] && AllDigits(ds)
    ensures |ds| < |s| ==> !IsDigit(s[|ds|])
    decreases |s|
  {
    if s != [] && IsDigit(s[0]) then [s[0]] + DigitPrefix(s[1..]) else []
  }

  /** Reading a numeral back gives the number it was made from. */
  lemma {:induction false} ToNatFromNat(n: nat)
    ensures ToNat(FromNat(n)) == n
    decreases n
  {
    if n >= 10 {
      var s := FromNat(n);
      assert s[..|s| - 1] == FromNat(n / 10);
      ToNatFromNat(n / 10);
    }
  }

  /** A numeral followed by something that is not a digit is read up to
      where it ends. */
  lemma {:induction false} DigitPrefixOf(ds: string, rest: string)
    requires AllDigits(ds)
    requires rest == [] || !IsDigit(rest[0])
    ensures DigitPrefix(ds + rest) == ds
    decreases |ds|
  {
    if ds != [] {
      assert (ds + rest)[1..] == ds[1..] + rest;
      DigitPrefixOf(ds[1..], rest);
    }
  }
}
