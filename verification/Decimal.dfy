/** Decimal numbers as the standard integer parsers read them and the formatter writes them. */
module Decimal {
  import opened Options

  const U64_MAX: nat := 0xFFFF_FFFF_FFFF_FFFF
  const I64_MAX: nat := 0x7FFF_FFFF_FFFF_FFFF

  predicate Digit(c: char) {
    '0' <= c <= '9'
  }

  predicate AllDigits(s: string) {
    forall i :: 0 <= i < |s| ==> Digit(s[i])
  }

  function DigitValue(c: char): nat
    requires Digit(c)
  {
    c as int - '0' as int
  }

  function Value(s: string): nat
    requires AllDigits(s)
  {
    if s == "" then 0 else 10 * Value(s[..|s| - 1]) + DigitValue(s[|s| - 1])
  }

  function Show(n: nat): string {
    var last := [('0' as int + n % 10) as char];
    if n < 10 then last else Show(n / 10) + last
  }

  /** `parse::<u64>()`: an optional plus sign, then digits whose value is in range. */
  function ParseUnsigned(s: string, max: nat): Option<nat> {
    var digits := if s != "" && s[0] == '+' then s[1..] else s;
    if digits != "" && AllDigits(digits) && Value(digits) <= max then Some(Value(digits)) else None
  }

  /** `parse::<i64>()`: an optional sign, then digits whose value is in range. */
  function ParseSigned(s: string, max: nat): Option<int> {
    if s != "" && s[0] == '-' then
      var digits := s[1..];
      if digits != "" && AllDigits(digits) && Value(digits) <= max + 1 then
        var n: int := 0 - Value(digits);
        Some(n)
      else None
    else
      match ParseUnsigned(s, max)
      case Some(n) => Some(n)
      case None => None
  }

  /** What is written is read back. */
  lemma {:induction false} ShowReadsBack(n: nat)
    ensures Show(n) != "" && AllDigits(Show(n)) && Value(Show(n)) == n
  {
    if n >= 10 {
      ShowReadsBack(n / 10);
      assert Show(n)[..|Show(n)| - 1] == Show(n / 10);
    } else {
      assert Show(n)[..0] == "";
    }
  }

  lemma SignedDigits(plus: string, digits: string, max: nat)
    requires plus in {"", "+"} && digits != "" && AllDigits(digits)
    ensures ParseUnsigned(plus + digits, max) == if Value(digits) <= max then Some(Value(digits)) else None
  {
    if plus == "+" { assert (plus + digits)[1..] == digits; }
    else { assert plus + digits == digits && Digit(digits[0]); }
  }

  lemma ParsedDigits(s: string, max: nat) returns (plus: string, digits: string)
    requires ParseUnsigned(s, max).Some?
    ensures s == plus + digits && plus in {"", "+"} && digits != "" && AllDigits(digits)
    ensures ParseUnsigned(s, max).value == Value(digits) <= max
  {
    plus := if s[0] == '+' then "+" else "";
    digits := s[|plus|..];
  }

  lemma ShownIsParsed(n: nat, max: nat)
    ensures ParseUnsigned(Show(n), max) == if n <= max then Some(n) else None
  {
    ShowReadsBack(n);
    assert Digit(Show(n)[0]);
  }

  /** Both parsers agree on everything that is not negative. */
  lemma SignedAgreesWithUnsigned(s: string, small: nat, large: nat)
    requires small <= large
    ensures ParseSigned(s, small).Some? && ParseSigned(s, small).value >= 1 ==>
              ParseUnsigned(s, large) == Some(ParseSigned(s, small).value)
    ensures ParseUnsigned(s, large).Some? ==>
              ParseSigned(s, small) ==
              if ParseUnsigned(s, large).value <= small then Some(ParseUnsigned(s, large).value) else None
  {
    assert s != "" && AllDigits(s) ==> Digit(s[0]);
  }
}
