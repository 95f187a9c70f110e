/**
 * Digit strings as Go's `fmt` prints them (`%d`, `%x` of an unsigned integer)
 * and as `strconv`/`math/big` read them back.
 */
module Numerals {

  /** The largest `uint64`. */
  const MaxUint64: nat := 0xFFFF_FFFF_FFFF_FFFF

  type Uint64 = x: nat | x <= MaxUint64

  /** The lowercase digits `%x` prints, in order of value. */
  const LowerDigits: string := "0123456789abcdef"

  /**
   * The value Go's scanners give a digit character: '0'..'9' are 0..9 and
   * letters of either case are 10..35; anything else is 36, a digit of no base.
   */
  function DigitValue(c: char): (d: nat)
    ensures d <= 36
    ensures '0' <= c <= '9' ==> d == c as int - '0' as int
  {
    if '0' <= c <= '9' then c as int - '0' as int
    else if 'a' <= c <= 'z' then c as int - 'a' as int + 10
    else if 'A' <= c <= 'Z' then c as int - 'A' as int + 10
    else 36
  }

  predicate IsDecimalDigit(c: char) { '0' <= c <= '9' }

  predicate IsLowerHexDigit(c: char) { '0' <= c <= '9' || 'a' <= c <= 'f' }

  /** The value of a digit string in base `base`, most significant digit first. */
  function Value(s: string, base: nat): nat
  {
    if s == [] then 0 else Value(s[..|s| - 1], base) * base + DigitValue(s[|s| - 1])
  }

  /** Go `%d` of an unsigned integer: decimal, no sign, no leading zeros. */
  function Decimal(n: nat): (s: string)
    ensures |s| >= 1
  {
    if n < 10 then [LowerDigits[n]] else Decimal(n / 10) + [LowerDigits[n % 10]]
  }

  /** Go `%x` of an unsigned integer: lowercase hexadecimal, no prefix, no leading zeros. */
  function HexLower(n: nat): (s: string)
    ensures |s| >= 1
  {
    if n < 16 then [LowerDigits[n]] else HexLower(n / 16) + [LowerDigits[n % 16]]
  }

  lemma {:induction false} ValueSnoc(s: string, c: char, base: nat)
    ensures Value(s + [c], base) == Value(s, base) * base + DigitValue(c)
  {
    assert (s + [c])[..|s|] == s;
  }

  lemma LowerDigitValue(d: nat)
    requires d < 16
    ensures DigitValue(LowerDigits[d]) == d && IsLowerHexDigit(LowerDigits[d])
    ensures d < 10 ==> IsDecimalDigit(LowerDigits[d])
  {
  }

  /**
   * `%x` prints lowercase hex digits with no leading zero (so 0 prints as "0"),
   * and reading them back in base 16 gives the number printed.
   */
  lemma {:induction false} HexLowerRoundTrip(n: nat)
    ensures var s := HexLower(n);
      && (forall i :: 0 <= i < |s| ==> IsLowerHexDigit(s[i]))
      && (|s| > 1 ==> s[0] != '0')
      && Value(s, 16) == n
  {
    LowerDigitValue(n % 16);
    if n >= 16 {
      HexLowerRoundTrip(n / 16);
      ValueSnoc(HexLower(n / 16), LowerDigits[n % 16], 16);
    }
  }

  /**
   * `%d` prints decimal digits with no leading zero, and reading them back in
   * base 10 gives the number printed.
   */
  lemma {:induction false} DecimalRoundTrip(n: nat)
    ensures var s := Decimal(n);
      && (forall i :: 0 <= i < |s| ==> IsDecimalDigit(s[i]))
      && (|s| > 1 ==> s[0] != '0')
      && Value(s, 10) == n
  {
    LowerDigitValue(n % 10);
    if n >= 10 {
      DecimalRoundTrip(n / 10);
      ValueSnoc(Decimal(n / 10), LowerDigits[n % 10], 10);
    }
  }

  /** Distinct numbers print as distinct `%x` strings. */
  lemma HexLowerInjective(m: nat, n: nat)
    requires HexLower(m) == HexLower(n)
    ensures m == n
  {
    HexLowerRoundTrip(m);
    HexLowerRoundTrip(n);
  }
}
