/**
 * The Arduino `String` operations that the weather client relies on.
 *
 * An Arduino `String` is a byte string; here it is a `string` whose characters
 * stand for bytes. Three operations are modelled: `String(n)` for a
 * non-negative `int` (decimal formatting), `toInt()` (which is `atol`), and
 * `replace(find, replacement)` in the equal-length case, where the library
 * rewrites the buffer in place.
 */
module ArduinoString {

  predicate IsDigit(c: char) { '0' <= c <= '9' }

  /** The characters `atol` skips before a number (C `isspace`). */
  predicate IsSpace(c: char) {
    c == ' ' || c == '\t' || c == '\n' || c == '\U{000B}' || c == '\U{000C}' || c == '\r'
  }

  predicate AllDigits(s: string) { forall i :: 0 <= i < |s| ==> IsDigit(s[i]) }

  function DigitChar(d: nat): (c: char)
    requires d < 10
    ensures IsDigit(c)
    ensures (c as int) - ('0' as int) == d
  {
    ('0' as int + d) as char
  }

  function DigitValue(c: char): (d: nat)
    requires IsDigit(c)
    ensures d < 10 && DigitChar(d) == c
  {
    (c as int) - ('0' as int)
  }

  /**
   * `String(n)` for `n >= 0`: the decimal digits of `n`, most significant first,
   * with no sign and no leading zero.
   */
  function Decimal(n: nat): (s: string)
    ensures |s| >= 1 && AllDigits(s)
    ensures s[0] == '0' <==> n == 0
    decreases n
  {
    if n < 10 then [DigitChar(n)] else Decimal(n / 10) + [DigitChar(n % 10)]
  }

  /** The numeric value of a run of decimal digits (the empty run is 0). */
  function DigitsValue(s: string): nat
    requires AllDigits(s)
    decreases |s|
  {
    if s == [] then 0 else DigitsValue(s[..|s| - 1]) * 10 + DigitValue(s[|s| - 1])
  }

  /** What `atol` skips first: the leading white space. */
  function SkipSpaces(s: string): (t: string)
    ensures |t| <= |s| && t == s[|s| - |t|..]
    ensures t == [] || !IsSpace(t[0])
    ensures (forall i :: 0 <= i < |s| ==> !IsSpace(s[i])) ==> t == s
    decreases |s|
  {
    if s != [] && IsSpace(s[0]) then SkipSpaces(s[1..]) else s
  }

  /** The longest prefix of `s` made of decimal digits. */
  function LeadingDigits(s: string): (d: string)
    ensures |d| <= |s| && d == s[..|d|] && AllDigits(d)
    ensures |d| < |s| ==> !IsDigit(s[|d|])
    decreases |s|
  {
    if s != [] && IsDigit(s[0]) then [s[0]] + LeadingDigits(s[1..]) else []
  }

  /**
   * `String::toInt()`, which is C `atol`: skip white space, read an optional
   * sign and then as many digits as follow; no digits at all gives 0.
   * The `long` range is not modelled (atol's overflow is undefined in C).
   */
  function ToInt(s: string): int
  {
    var t := SkipSpaces(s);
    if t != [] && t[0] == '-' then -(DigitsValue(LeadingDigits(t[1..])) as int)
    else if t != [] && t[0] == '+' then DigitsValue(LeadingDigits(t[1..]))
    else DigitsValue(LeadingDigits(t))
  }

  lemma {:induction false} LeadingDigitsOfDigits(s: string)
    requires AllDigits(s)
    ensures LeadingDigits(s) == s
    decreases |s|
  {
    if s != [] {
      LeadingDigitsOfDigits(s[1..]);
    }
  }

  lemma {:induction false} DigitsValueOfDecimal(n: nat)
    ensures DigitsValue(Decimal(n)) == n
    decreases n
  {
    var s := Decimal(n);
    if n < 10 {
      assert s[..0] == [];
    } else {
      DigitsValueOfDecimal(n / 10);
      assert s[..|s| - 1] == Decimal(n / 10);
    }
  }

  /** `toInt()` reads back every number `String(n)` wrote. */
  lemma DecimalRoundTrip(n: nat)
    ensures ToInt(Decimal(n)) == n
  {
    var s := Decimal(n);
    assert SkipSpaces(s) == s by {
      forall i | 0 <= i < |s| ensures !IsSpace(s[i]) { assert IsDigit(s[i]); }
    }
    LeadingDigitsOfDigits(s);
    DigitsValueOfDecimal(n);
  }

  /** Distinct numbers are written as distinct strings. */
  lemma DecimalInjective(a: nat, b: nat)
    requires Decimal(a) == Decimal(b)
    ensures a == b
  {
    DecimalRoundTrip(a);
    DecimalRoundTrip(b);
  }

  /** A string that starts with neither white space, a sign nor a digit reads as 0. */
  lemma ToIntNotANumber(s: string)
    requires s == [] || !(IsSpace(s[0]) || IsDigit(s[0]) || s[0] == '-' || s[0] == '+')
    ensures ToInt(s) == 0
  {
  }

  /**
   * `String::replace(find, replacement)` when both have the same length, the
   * in-place path of the library: occurrences are found left to right, each
   * one is overwritten, and the scan resumes just after it, so occurrences
   * never overlap.
   */
  function Replace(s: string, find: string, repl: string): (r: string)
    requires |find| > 0 && |repl| == |find|
    ensures |r| == |s|
    ensures |s| > 0 ==> r[0] == s[0] || r[0] == repl[0]
    decreases |s|
  {
    if |s| < |find| then s
    else if s[..|find|] == find then repl + Replace(s[|find|..], find, repl)
    else [s[0]] + Replace(s[1..], find, repl)
  }
}
