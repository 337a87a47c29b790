/**
 Option values. The daemon takes every option value as a string; a caller may
 hand over any value, and a value that is not already a string is replaced by
 its string form (Python's `str`) before it is sent or cached.
 */
module OptionValues {

  import opened Wrappers

  /** A value a caller assigns to an option. `Other` stands for any further
      kind of object and carries the text `str` gives for it. */
  datatype Value = Text(text: string) | Int(n: int) | Bool(b: bool) | Other(repr: string)

  predicate IsDigits(s: string)
  {
    forall i :: 0 <= i < |s| ==> '0' <= s[i] <= '9'
  }

  function DigitChar(d: nat): (c: char)
    requires d < 10
    ensures '0' <= c <= '9'
  {
    ('0' as int + d) as char
  }

  /** The decimal digits of a natural number, most significant first. */
  function NatDigits(n: nat): (s: string)
    ensures |s| >= 1 && IsDigits(s)
    ensures s[0] == '0' ==> n == 0 && |s| == 1
    decreases n
  {
    if n < 10 then [DigitChar(n)] else NatDigits(n / 10) + [DigitChar(n % 10)]
  }

  /** The number a string of decimal digits denotes (the reference reading of
      a decimal string, independent of how NatDigits writes one). */
  function DigitsValue(s: string): nat
    requires IsDigits(s)
    decreases |s|
  {
    if s == [] then 0 else DigitsValue(s[..|s| - 1]) * 10 + (s[|s| - 1] as int - '0' as int)
  }

  lemma {:induction false} NatDigitsRoundTrip(n: nat)
    ensures DigitsValue(NatDigits(n)) == n
    decreases n
  {
    if n >= 10 {
      NatDigitsRoundTrip(n / 10);
      var s := NatDigits(n);
      assert s[..|s| - 1] == NatDigits(n / 10);
    }
  }

  /** The canonical decimal form of an integer: `0`, or digits without a
      leading zero, preceded by `-` when the number is negative. */
  predicate IsCanonicalDecimal(s: string)
  {
    || (|s| >= 1 && IsDigits(s) && (s[0] == '0' ==> |s| == 1))
    || (|s| >= 2 && s[0] == '-' && IsDigits(s[1..]) && s[1] != '0')
  }

  /** Python's `str` of an integer: an optional minus sign and decimal digits. */
  function Decimal(n: int): string
  {
    if n < 0 then "-" + NatDigits(-n) else NatDigits(n)
  }

  /** Reads a decimal integer, with an optional leading minus sign. */
  function ParseDecimal(s: string): Option<int>
  {
    if |s| >= 1 && IsDigits(s) then Some(DigitsValue(s))
    else if |s| >= 2 && s[0] == '-' && IsDigits(s[1..]) then Some(0 - DigitsValue(s[1..]) as int)
    else None
  }

  /** A minus sign followed by digits reads as the negated digits. */
  lemma ParseNegative(digits: string)
    requires |digits| >= 1 && IsDigits(digits)
    ensures ParseDecimal("-" + digits) == Some(0 - DigitsValue(digits) as int)
  {
    var s := "-" + digits;
    assert s[1..] == digits;
    assert !IsDigits(s) by {
      assert s[0] == '-';
    }
  }

  /** A string of digits reads as the number it denotes. */
  lemma ParseNonNegative(digits: string)
    requires |digits| >= 1 && IsDigits(digits)
    ensures ParseDecimal(digits) == Some(DigitsValue(digits) as int)
  {
  }

  /** The decimal form of an integer reads back as that integer. */
  lemma DecimalRoundTrip(n: int)
    ensures ParseDecimal(Decimal(n)) == Some(n)
  {
    var m: nat := if n < 0 then -n else n;
    var digits := NatDigits(m);
    NatDigitsRoundTrip(m);
    if n < 0 {
      assert Decimal(n) == "-" + digits;
      ParseNegative(digits);
    } else {
      assert Decimal(n) == digits;
      ParseNonNegative(digits);
    }
  }

  /** The decimal form of an integer is canonical: no leading zero, no `-0`. */
  lemma DecimalCanonical(n: int)
    ensures IsCanonicalDecimal(Decimal(n))
  {
    if n < 0 {
      var digits := NatDigits(-n);
      assert Decimal(n)[1..] == digits;
    }
  }

  /** The string an assigned value is sent and cached as. */
  function ToString(v: Value): (s: string)
    ensures v.Text? ==> s == v.text
    ensures v.Int? ==> IsCanonicalDecimal(s) && ParseDecimal(s) == Some(v.n)
    ensures v.Bool? ==> s == (if v.b then "True" else "False")
    ensures v.Other? ==> s == v.repr
  {
    match v
    case Text(t) => t
    case Int(n) => DecimalRoundTrip(n); DecimalCanonical(n); Decimal(n)
    case Bool(b) => if b then "True" else "False"
    case Other(r) => r
  }

  /** Converting is injective on integers: two different integers are never
      sent as the same string. */
  lemma IntToStringInjective(m: int, n: int)
    ensures ToString(Int(m)) == ToString(Int(n)) <==> m == n
  {
  }
}
