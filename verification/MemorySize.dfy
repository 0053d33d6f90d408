/** Memory sizes such as `256MB` or `1,024 k`. */
module MemorySize {
  import opened Options
  import opened Text
  import opened Decimal

  datatype MemoryError =
    | InvalidFormat(raw: string)
    | InvalidNumber
    | UnknownUnit(suffix: string)
    | OutOfRange(raw: string)

  function RemoveCommas(s: string): string {
    if s == "" then "" else (if s[0] == ',' then "" else [s[0]]) + RemoveCommas(s[1..])
  }

  /** One past the last digit, or zero. */
  function NumberEnd(s: string): (n: nat)
    ensures n <= |s|
    ensures n > 0 ==> Digit(s[n - 1])
    ensures forall i :: n <= i < |s| ==> !Digit(s[i])
  {
    if s == "" then 0
    else if Digit(s[|s| - 1]) then |s|
    else NumberEnd(s[..|s| - 1])
  }

  function Multiplier(unit: string): Option<nat> {
    if unit in {"", "B"} then Some(1)
    else if unit in {"K", "KB"} then Some(1024)
    else if unit in {"M", "MB"} then Some(1024 * 1024)
    else if unit in {"G", "GB"} then Some(1024 * 1024 * 1024)
    else if unit in {"T", "TB"} then Some(1024 * 1024 * 1024 * 1024)
    else None
  }

  function Cleaned(input: string): string {
    Upper(RemoveCommas(Trim(input)))
  }

  /** The checked multiplication. */
  function Scaled(n: nat, m: nat, raw: string): Result<nat, MemoryError> {
    var product: nat := n * m;
    if product <= U64_MAX then Ok(product) else Err(OutOfRange(raw))
  }

  function ParseMemory(input: string): Result<nat, MemoryError> {
    var cleaned := Cleaned(input);
    var end := NumberEnd(cleaned);
    var unit := Trim(cleaned[end..]);
    if end == 0 then Err(InvalidFormat(input))
    else
      match ParseUnsigned(cleaned[..end], U64_MAX)
      case None => Err(InvalidNumber)
      case Some(n) =>
        match Multiplier(unit)
        case None => Err(UnknownUnit(unit))
        case Some(m) => Scaled(n, m, input)
  }

  // ---------------------------------------------------------------------------------------------
  // Which sizes are read, and as what
  // ---------------------------------------------------------------------------------------------

  function Pow(base: nat, exponent: nat): nat {
    if exponent == 0 then 1 else base * Pow(base, exponent - 1)
  }

  const LETTERS := "BKMGT"

  /** The `i`-th letter in upper or lower case. */
  predicate Letter(c: char, i: nat) {
    i < 5 && c as int - LETTERS[i] as int in {0, 32}
  }

  /** The unit of the `i`-th power: its letter, for higher powers also followed by a B, or nothing for bytes. */
  predicate UnitOf(unit: string, i: nat) {
    || (i == 0 && unit == "")
    || (|unit| == 1 && Letter(unit[0], i))
    || (i > 0 && |unit| == 2 && Letter(unit[0], i) && Letter(unit[1], 0))
  }

  lemma Powers()
    ensures Pow(1024, 0) == 1 && Pow(1024, 1) == 1024 && Pow(1024, 2) == 1024 * 1024
    ensures Pow(1024, 3) == 1024 * 1024 * 1024 && Pow(1024, 4) == 1024 * 1024 * 1024 * 1024
  {
    assert Pow(1024, 1) == 1024 * Pow(1024, 0);
    assert Pow(1024, 2) == 1024 * Pow(1024, 1);
    assert Pow(1024, 3) == 1024 * Pow(1024, 2);
    assert Pow(1024, 4) == 1024 * Pow(1024, 3);
  }

  /** A unit of the `i`-th power, in any letter case, scales by that power of 1024. */
  lemma UnitScales(unit: string, i: nat)
    requires UnitOf(unit, i)
    ensures i < 5 && Multiplier(Upper(unit)) == Some(Pow(1024, i))
  {
    Powers();
    var up := Upper(unit);
    if unit == "" { assert up == ""; }
    else if |unit| == 1 { assert up == [LETTERS[i]]; }
    else { assert up == [LETTERS[i], 'B']; }
  }

  /** And no other unit is known. */
  lemma KnownUnits(unit: string) returns (i: nat)
    requires Multiplier(unit).Some?
    ensures i < 5 && UnitOf(unit, i) && Upper(unit) == unit && Multiplier(unit) == Some(Pow(1024, i))
  {
    Powers();
    i := if unit in {"", "B"} then 0 else if unit in {"K", "KB"} then 1 else if unit in {"M", "MB"} then 2
         else if unit in {"G", "GB"} then 3 else 4;
    assert Upper(unit) == unit;
  }

  lemma UnitHasNoDigit(unit: string)
    requires Multiplier(unit).Some?
    ensures forall i :: 0 <= i < |unit| ==> !Digit(unit[i])
    ensures Trimmed(unit)
  {
  }

  lemma NumberEndAfterDigits(digits: string, rest: string)
    requires digits != "" && Digit(digits[|digits| - 1])
    requires forall i :: 0 <= i < |rest| ==> !Digit(rest[i])
    ensures NumberEnd(digits + rest) == |digits|
  {
    var s := digits + rest;
    var n := NumberEnd(s);
    assert Digit(s[|digits| - 1]);
    assert n <= |digits|;
  }

  lemma SpaceIsNoDigit(pad: string)
    requires AllSpace(pad)
    ensures forall i :: 0 <= i < |pad| ==> !Digit(pad[i])
  {
  }

  lemma Split(number: string, pad: string, unit: string, post: string)
    requires number != "" && Digit(number[|number| - 1]) && AllSpace(pad) && AllSpace(post) && Multiplier(unit).Some?
    ensures var s := number + pad + unit + post;
            NumberEnd(s) == |number| && s[..|number|] == number && Trim(s[|number|..]) == unit
  {
    var s := number + pad + unit + post;
    UnitHasNoDigit(unit);
    SpaceIsNoDigit(pad);
    SpaceIsNoDigit(post);
    assert s == number + (pad + unit + post);
    NumberEndAfterDigits(number, pad + unit + post);
    TrimPadded(pad, unit, post);
    assert s[|number|..] == pad + unit + post;
  }

  /** A sign, a number, a unit of the `i`-th power, and white space after either of the last two. */
  predicate Shape(cleaned: string, plus: string, digits: string, pad: string, unit: string, i: nat, post: string) {
    && cleaned == plus + digits + pad + unit + post
    && plus in {"", "+"} && digits != "" && AllDigits(digits)
    && AllSpace(pad) && AllSpace(post) && UnitOf(unit, i)
  }

  /** A number of units of the `i`-th power of 1024, as read. */
  function Size(number: nat, i: nat, input: string): Result<nat, MemoryError> {
    if number > U64_MAX then Err(InvalidNumber)
    else
      var size: nat := number * Pow(1024, i);
      if size <= U64_MAX then Ok(size) else Err(OutOfRange(input))
  }

  /** A text of that shape denotes its number times the power of 1024 of its unit, or is out of range. */
  lemma ShapeIsRead(input: string, plus: string, digits: string, pad: string, unit: string, i: nat, post: string)
    requires Shape(Cleaned(input), plus, digits, pad, unit, i, post) && Upper(unit) == unit
    ensures ParseMemory(input) == Size(Value(digits), i, input)
  {
    UnitScales(unit, i);
    assert (plus + digits)[|plus + digits| - 1] == digits[|digits| - 1];
    Split(plus + digits, pad, unit, post);
    SignedDigits(plus, digits, U64_MAX);
  }

  lemma {:induction false} TrimEndDecomposes(s: string) returns (post: string)
    ensures AllSpace(post) && s == TrimEnd(s) + post
  {
    if s != "" && Space(s[|s| - 1]) {
      post := TrimEndDecomposes(s[..|s| - 1]);
      post := post + [s[|s| - 1]];
    } else {
      post := "";
    }
  }

  lemma {:induction false} TrimDecomposes(s: string) returns (pre: string, post: string)
    ensures AllSpace(pre) && AllSpace(post) && s == pre + Trim(s) + post
  {
    if s != "" && Space(s[0]) {
      pre, post := TrimDecomposes(s[1..]);
      pre := [s[0]] + pre;
    } else {
      pre := "";
      post := TrimEndDecomposes(s);
    }
  }

  /** Nothing else is accepted: an accepted text has that shape, and its size is exact, never wrapped. */
  lemma AcceptedHasShape(input: string)
    returns (plus: string, digits: string, pad: string, unit: string, i: nat, post: string)
    requires ParseMemory(input).Ok?
    ensures Shape(Cleaned(input), plus, digits, pad, unit, i, post) && Upper(unit) == unit
    ensures ParseMemory(input) == Size(Value(digits), i, input)
  {
    var cleaned := Cleaned(input);
    var end := NumberEnd(cleaned);
    plus, digits := ParsedDigits(cleaned[..end], U64_MAX);
    unit := Trim(cleaned[end..]);
    i := KnownUnits(unit);
    pad, post := TrimDecomposes(cleaned[end..]);
    Rejoin(cleaned, end, plus, digits, pad, unit, post);
  }

  lemma Rejoin(s: string, end: nat, plus: string, digits: string, pad: string, unit: string, post: string)
    requires end <= |s| && s[..end] == plus + digits && s[end..] == pad + unit + post
    ensures s == plus + digits + pad + unit + post
  {
    assert s == s[..end] + s[end..];
    assert plus + digits + (pad + unit + post) == plus + digits + pad + unit + post;
  }

  // ---------------------------------------------------------------------------------------------
  // Letter case and commas
  // ---------------------------------------------------------------------------------------------

  lemma UpperOfDecimal(n: nat, unit: string)
    ensures Upper(Show(n) + unit) == Show(n) + Upper(unit)
  {
    ShowReadsBack(n);
  }

  lemma {:induction false} CommasKeepTheRest(s: string, c: char)
    ensures c in s && c != ',' <==> c in RemoveCommas(s)
  {
    if s == "" {
    } else {
      CommasKeepTheRest(s[1..], c);
      assert s == [s[0]] + s[1..];
    }
  }

  /** The text is the core with commas anywhere. */
  predicate Spread(text: string, core: string) {
    if text == "" then core == ""
    else
      || (text[0] == ',' && Spread(text[1..], core))
      || (core != "" && text[0] == core[0] && Spread(text[1..], core[1..]))
  }

  lemma {:induction false} CommasVanish(text: string, core: string)
    requires Spread(text, core) && ',' !in core
    ensures RemoveCommas(text) == core
  {
    if text == "" {
    } else if text[0] == ',' {
      CommasVanish(text[1..], core);
    } else {
      CommasVanish(text[1..], core[1..]);
      assert core == [core[0]] + core[1..];
    }
  }

  lemma SizeIsPlain(n: nat, unit: string, i: nat)
    requires UnitOf(unit, i)
    ensures forall c :: c in Show(n) + unit ==> !Space(c) && c != ','
  {
    ShowReadsBack(n);
  }

  lemma SizeIsTrimmed(text: string, n: nat, unit: string, i: nat)
    requires RemoveCommas(text) == Show(n) + unit && UnitOf(unit, i)
    ensures Trimmed(text)
  {
    SizeIsPlain(n, unit, i);
    forall c | c in text ensures !Space(c) {
      CommasKeepTheRest(text, c);
    }
  }

  /**
   A decimal followed by a unit of the `i`-th power in any letter case, with commas anywhere and
   white space around: that many powers of 1024 if they fit in 64 bits, an error otherwise.
   */
  lemma SizesAreExact(pre: string, text: string, post: string, n: nat, unit: string, i: nat)
    requires AllSpace(pre) && AllSpace(post) && Spread(text, Show(n) + unit) && UnitOf(unit, i)
    ensures var input := pre + text + post;
            ParseMemory(input) == Size(n, i, input)
  {
    CleanedSize(pre, text, post, n, unit, i);
    UpperUnit(unit, i);
    ShownSize(pre + text + post, n, Upper(unit), i);
  }

  lemma ShownSize(input: string, n: nat, unit: string, i: nat)
    requires Cleaned(input) == Show(n) + unit && UnitOf(unit, i) && Upper(unit) == unit
    ensures ParseMemory(input) == Size(n, i, input)
  {
    ShowReadsBack(n);
    assert "" + Show(n) + "" + unit + "" == Show(n) + unit;
    ShapeIsRead(input, "", Show(n), "", unit, i, "");
  }

  lemma CleanedSize(pre: string, text: string, post: string, n: nat, unit: string, i: nat)
    requires AllSpace(pre) && AllSpace(post) && Spread(text, Show(n) + unit) && UnitOf(unit, i)
    ensures Cleaned(pre + text + post) == Show(n) + Upper(unit)
  {
    SizeIsPlain(n, unit, i);
    CommasVanish(text, Show(n) + unit);
    SizeIsTrimmed(text, n, unit, i);
    TrimPadded(pre, text, post);
    UpperOfDecimal(n, unit);
  }

  lemma UpperUnit(unit: string, i: nat)
    requires UnitOf(unit, i)
    ensures UnitOf(Upper(unit), i) && Upper(Upper(unit)) == Upper(unit)
  {
  }

  /** Without a digit there is no size, and a number with an unknown unit is refused for its unit. */
  lemma RefusedFor(input: string)
    ensures ParseMemory(input) == Err(InvalidFormat(input)) <==>
            forall j :: 0 <= j < |Cleaned(input)| ==> !Digit(Cleaned(input)[j])
    ensures forall unit :: ParseMemory(input) == Err(UnknownUnit(unit)) ==> forall i: nat :: !UnitOf(unit, i)
  {
    forall unit, i: nat | ParseMemory(input) == Err(UnknownUnit(unit)) ensures !UnitOf(unit, i) {
      if UnitOf(unit, i) {
        UnitScales(unit, i);
        UnitIsUpper(input, unit);
      }
    }
  }

  lemma UnitIsUpper(input: string, unit: string)
    requires ParseMemory(input) == Err(UnknownUnit(unit))
    ensures Upper(unit) == unit
  {
    var cleaned := Cleaned(input);
    UpperStays(cleaned, NumberEnd(cleaned));
  }

  lemma UpperStays(s: string, start: nat)
    requires start <= |s| && Upper(s) == s
    ensures Upper(Trim(s[start..])) == Trim(s[start..])
  {
    var rest := s[start..];
    var pre, post := TrimDecomposes(rest);
    forall j | 0 <= j < |Trim(rest)| ensures UpperChar(Trim(rest)[j]) == Trim(rest)[j] {
      assert Trim(rest)[j] == rest[|pre| + j] == s[start + |pre| + j];
    }
  }
}
