/**
 Decimal text as the C++ library prints and reads it: `std::to_string` on the way
 out, `std::stoi`/`std::stoll` (leading white space, optional sign, digits, trailing
 text ignored, out-of-range values refused) on the way in.
 */
module Decimal {
  import opened Wrappers

  const INT_MIN: int := -0x8000_0000
  const INT_MAX: int := 0x7FFF_FFFF
  const LLONG_MIN: int := -0x8000_0000_0000_0000
  const LLONG_MAX: int := 0x7FFF_FFFF_FFFF_FFFF

  predicate IsDigit(c: char) {
    '0' <= c <= '9'
  }

  predicate AllDigits(s: string) {
    forall i :: 0 <= i < |s| ==> IsDigit(s[i])
  }

  // isspace in the C locale
  predicate IsSpace(c: char) {
    c == ' ' || '\t' <= c <= '\r'
  }

  function DigitValue(c: char): (d: nat)
    requires IsDigit(c)
    ensures d < 10
  {
    c as int - '0' as int
  }

  function DigitChar(d: nat): (c: char)
    requires d < 10
    ensures IsDigit(c) && DigitValue(c) == d
  {
    ('0' as int + d) as char
  }

  function ToDecimal(n: nat): (s: string)
    ensures s != [] && AllDigits(s)
  {
    if n < 10 then [DigitChar(n)] else ToDecimal(n / 10) + [DigitChar(n % 10)]
  }

  function ToSigned(n: int): string {
    if n < 0 then "-" + ToDecimal(-n) else ToDecimal(n)
  }

  function DigitsValue(s: string): nat
    requires AllDigits(s)
  {
    if s == [] then 0 else DigitsValue(s[..|s| - 1]) * 10 + DigitValue(s[|s| - 1])
  }

  function SkipSpace(s: string): string {
    if s != [] && IsSpace(s[0]) then SkipSpace(s[1..]) else s
  }

  function LeadingDigits(s: string): (d: string)
    ensures AllDigits(d) && d <= s
  {
    if s != [] && IsDigit(s[0]) then [s[0]] + LeadingDigits(s[1..]) else []
  }

  function ParseUnsigned(s: string): Option<nat> {
    var d := LeadingDigits(s);
    if d == [] then None else Some(DigitsValue(d))
  }

  // strtoll with base 10, before the range test
  function ParseSigned(s: string): Option<int> {
    var t := SkipSpace(s);
    if t != [] && t[0] == '-' then
      match ParseUnsigned(t[1..]) case None => None case Some(n) => Some(0 - n as int)
    else if t != [] && t[0] == '+' then ParseUnsigned(t[1..])
    else ParseUnsigned(t)
  }

  // None stands for the exception that stoi/stoll raise
  function ParseBounded(s: string, lo: int, hi: int): (r: Option<int>)
    ensures r.Some? ==> lo <= r.value <= hi
  {
    match ParseSigned(s)
    case Some(n) => if lo <= n <= hi then Some(n) else None
    case None => None
  }

  lemma {:induction false} DigitsOfDecimal(n: nat)
    ensures DigitsValue(ToDecimal(n)) == n
  {
    if n >= 10 {
      DigitsOfDecimal(n / 10);
      var s := ToDecimal(n);
      assert s[..|s| - 1] == ToDecimal(n / 10);
    } else {
      var s := ToDecimal(n);
      assert s[..|s| - 1] == [];
    }
  }

  lemma DecimalInjective(a: nat, b: nat)
    requires ToDecimal(a) == ToDecimal(b)
    ensures a == b
  {
    DigitsOfDecimal(a);
    DigitsOfDecimal(b);
  }

  lemma {:induction false} LeadingDigitsOfDigits(s: string)
    requires AllDigits(s)
    ensures LeadingDigits(s) == s
  {
    if s != [] {
      LeadingDigitsOfDigits(s[1..]);
      assert s == [s[0]] + s[1..];
    }
  }

  lemma ParseOfDecimal(n: nat)
    ensures ParseUnsigned(ToDecimal(n)) == Some(n)
  {
    LeadingDigitsOfDigits(ToDecimal(n));
    DigitsOfDecimal(n);
  }

  /** Reading back a printed number gives the number, whatever the bounds that admit it. */
  lemma ParseOfPrinted(n: int, lo: int, hi: int)
    requires lo <= n <= hi
    ensures ParseBounded(ToSigned(n), lo, hi) == Some(n)
  {
    var s := ToSigned(n);
    if n < 0 {
      ParseOfDecimal(-n);
      assert s[1..] == ToDecimal(-n);
      assert s[0] == '-';
    } else {
      ParseOfDecimal(n);
      assert IsDigit(s[0]);
    }
    assert SkipSpace(s) == s;
  }
}
