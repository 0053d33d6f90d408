/** What SCAN options mean, position by position, and that both parsers read exactly that. */
module ScanMeaning {
  import opened Options
  import opened Text
  import opened Decimal
  import opened ScanParsers

  // ---------------------------------------------------------------------------------------------
  // The options, without any parser
  // ---------------------------------------------------------------------------------------------

  /** The name, in any mixture of upper and lower case. */
  predicate Named(b: Bytes, name: string) {
    |b| == |name| && forall i :: 0 <= i < |b| ==> b[i] as int - name[i] as int in {0, 32}
  }

  predicate Spells(b: Bytes, plus: string, digits: string, n: nat) {
    AsText(b) == plus + digits && plus in {"", "+"} && digits != "" && AllDigits(digits) && Value(digits) == n
  }

  /** Decimal digits after an optional plus sign. */
  ghost predicate Denotes(b: Bytes, n: nat) {
    exists plus, digits :: Spells(b, plus, digits, n)
  }

  ghost predicate IsCount(b: Bytes, max: nat) {
    exists n :: 1 <= n <= max && Denotes(b, n)
  }

  /** A known option with an operand it takes; `types` tells whether TYPE is known. */
  ghost predicate GoodPair(name: Bytes, value: Bytes, types: bool, max: nat) {
    Named(name, "MATCH") || (Named(name, "COUNT") && IsCount(value, max)) || (types && Named(name, "TYPE"))
  }

  /** Every name has its operand, and every pair is good. */
  ghost predicate WellFormed(options: seq<Bytes>, types: bool, max: nat) {
    && |options| % 2 == 0
    && forall i :: 0 <= i < |options| && i % 2 == 0 ==> GoodPair(options[i], options[i + 1], types, max)
  }

  /** The last option of that name. */
  predicate IsLast(options: seq<Bytes>, name: string, i: int) {
    && 0 <= i < |options| - 1 && i % 2 == 0 && Named(options[i], name)
    && forall j :: i < j < |options| && j % 2 == 0 ==> !Named(options[j], name)
  }

  predicate Lacks(options: seq<Bytes>, name: string) {
    forall j :: 0 <= j < |options| && j % 2 == 0 ==> !Named(options[j], name)
  }

  /** The operand of the last option of that name, or what there was before. */
  ghost predicate SetBy(options: seq<Bytes>, name: string, before: Option<Bytes>, result: Option<Bytes>) {
    && (Lacks(options, name) ==> result == before)
    && forall i :: IsLast(options, name, i) ==> result == Some(options[i + 1])
  }

  ghost predicate CountedBy(options: seq<Bytes>, before: Option<nat>, result: Option<nat>) {
    && (Lacks(options, "COUNT") ==> result == before)
    && forall i :: IsLast(options, "COUNT", i) ==> result.Some? && Denotes(options[i + 1], result.value)
  }

  // ---------------------------------------------------------------------------------------------
  // Names and numbers
  // ---------------------------------------------------------------------------------------------

  lemma NameIsRead(b: Bytes, name: string)
    requires forall i :: 0 <= i < |name| ==> 'A' <= name[i] <= 'Z'
    ensures Is(b, name) <==> Named(b, name)
  {
    var up := Upper(AsText(b));
    if Named(b, name) {
      forall i | 0 <= i < |b| ensures up[i] == name[i] { assert up[i] == UpperChar(AsText(b)[i]); }
      assert up == name;
    }
    if Is(b, name) {
      forall i | 0 <= i < |b| ensures b[i] as int - name[i] as int in {0, 32} {
        assert up[i] == UpperChar(AsText(b)[i]);
      }
    }
  }

  lemma NamesAreRead(b: Bytes)
    ensures Is(b, "MATCH") <==> Named(b, "MATCH")
    ensures Is(b, "COUNT") <==> Named(b, "COUNT")
    ensures Is(b, "TYPE") <==> Named(b, "TYPE")
  {
    NameIsRead(b, "MATCH");
    NameIsRead(b, "COUNT");
    NameIsRead(b, "TYPE");
  }

  lemma NamesDiffer(b: Bytes)
    ensures !(Named(b, "MATCH") && Named(b, "COUNT"))
    ensures !(Named(b, "MATCH") && Named(b, "TYPE"))
    ensures !(Named(b, "COUNT") && Named(b, "TYPE"))
  {
    if Named(b, "MATCH") {
      assert b[0] as int - "MATCH"[0] as int in {0, 32};
      assert "COUNT"[0] == 'C';
    }
  }

  lemma NumberIsRead(b: Bytes, n: nat, max: nat)
    ensures ParseUnsigned(AsText(b), max) == Some(n) <==> Denotes(b, n) && n <= max
  {
    if ParseUnsigned(AsText(b), max) == Some(n) {
      var plus, digits := ParsedDigits(AsText(b), max);
      assert Spells(b, plus, digits, n);
    }
    if Denotes(b, n) {
      var plus, digits :| Spells(b, plus, digits, n);
      SignedDigits(plus, digits, max);
    }
  }

  lemma CountArgIsRead(b: Bytes)
    ensures CountArg(b).Ok? <==> IsCount(b, I64_MAX)
    ensures CountArg(b).Ok? ==> Denotes(b, CountArg(b).value)
  {
    SignedAgreesWithUnsigned(AsText(b), I64_MAX, U64_MAX);
    if CountArg(b).Ok? { NumberIsRead(b, CountArg(b).value, U64_MAX); }
    if IsCount(b, I64_MAX) {
      var n :| 1 <= n <= I64_MAX && Denotes(b, n);
      NumberIsRead(b, n, U64_MAX);
    }
  }

  lemma CountOptionIsRead(b: Bytes)
    ensures CountOption(b).Ok? <==> IsCount(b, U64_MAX)
    ensures CountOption(b).Ok? ==> Denotes(b, CountOption(b).value)
  {
    if CountOption(b).Ok? { NumberIsRead(b, CountOption(b).value, U64_MAX); }
    if IsCount(b, U64_MAX) {
      var n :| 1 <= n <= U64_MAX && Denotes(b, n);
      NumberIsRead(b, n, U64_MAX);
    }
  }

  // ---------------------------------------------------------------------------------------------
  // From one pair to all
  // ---------------------------------------------------------------------------------------------

  lemma OnePairMore(options: seq<Bytes>, types: bool, max: nat)
    requires |options| >= 2
    ensures WellFormed(options, types, max) <==>
            GoodPair(options[0], options[1], types, max) && WellFormed(options[2..], types, max)
  {
    var rest := options[2..];
    assert forall i :: 0 <= i < |rest| ==> rest[i] == options[i + 2];
    if WellFormed(options, types, max) {
      assert GoodPair(options[0], options[0 + 1], types, max);
      forall i | 0 <= i < |rest| && i % 2 == 0 ensures GoodPair(rest[i], rest[i + 1], types, max) {
        assert GoodPair(options[i + 2], options[i + 2 + 1], types, max);
      }
    }
    if GoodPair(options[0], options[1], types, max) && WellFormed(rest, types, max) {
      forall i | 0 <= i < |options| && i % 2 == 0 ensures GoodPair(options[i], options[i + 1], types, max) {
        if i > 0 { assert GoodPair(rest[i - 2], rest[i - 2 + 1], types, max); }
      }
    }
  }

  lemma LacksMore(options: seq<Bytes>, name: string)
    requires |options| >= 2
    ensures Lacks(options, name) <==> !Named(options[0], name) && Lacks(options[2..], name)
  {
    var rest := options[2..];
    if !Named(options[0], name) && Lacks(rest, name) {
      forall j | 0 <= j < |options| && j % 2 == 0 ensures !Named(options[j], name) {
        if j > 0 { assert rest[j - 2] == options[j]; }
      }
    }
    if Lacks(options, name) {
      forall j | 0 <= j < |rest| && j % 2 == 0 ensures !Named(rest[j], name) { assert rest[j] == options[j + 2]; }
    }
  }

  lemma LastMore(options: seq<Bytes>, name: string, i: int)
    requires |options| >= 2 && IsLast(options, name, i)
    ensures if i == 0 then Lacks(options[2..], name) && Named(options[0], name)
            else i >= 2 && IsLast(options[2..], name, i - 2) && options[2..][i - 1] == options[i + 1]
  {
    var rest := options[2..];
    assert forall j :: 0 <= j < |rest| ==> rest[j] == options[j + 2];
  }

  lemma SetMore(options: seq<Bytes>, name: string, before: Option<Bytes>, result: Option<Bytes>)
    requires |options| >= 2
    requires SetBy(options[2..], name, if Named(options[0], name) then Some(options[1]) else before, result)
    ensures SetBy(options, name, before, result)
  {
    LacksMore(options, name);
    forall i | IsLast(options, name, i) ensures result == Some(options[i + 1]) {
      LastMore(options, name, i);
      if i > 0 { assert options[2..][i - 2 + 1] == options[i + 1]; }
    }
  }

  lemma CountMore(options: seq<Bytes>, before: Option<nat>, n: nat, result: Option<nat>)
    requires |options| >= 2 && (Named(options[0], "COUNT") ==> Denotes(options[1], n))
    requires CountedBy(options[2..], if Named(options[0], "COUNT") then Some(n) else before, result)
    ensures CountedBy(options, before, result)
  {
    LacksMore(options, "COUNT");
    forall i | IsLast(options, "COUNT", i) ensures result.Some? && Denotes(options[i + 1], result.value) {
      LastMore(options, "COUNT", i);
      if i > 0 { assert options[2..][i - 2 + 1] == options[i + 1]; }
    }
  }

  // ---------------------------------------------------------------------------------------------
  // SCAN
  // ---------------------------------------------------------------------------------------------

  lemma ArgsPair(name: Bytes, value: Bytes, acc: ScanArgs)
    ensures ArgsStep(name, value, acc).Ok? <==> GoodPair(name, value, true, I64_MAX)
    ensures ArgsStep(name, value, acc).Ok? ==>
              var next := ArgsStep(name, value, acc).value;
              && next.cursor == acc.cursor
              && next.pattern == (if Named(name, "MATCH") then Some(value) else acc.pattern)
              && next.typeFilter == (if Named(name, "TYPE") then Some(value) else acc.typeFilter)
              && (if Named(name, "COUNT") then next.count.Some? && Denotes(value, next.count.value)
                  else next.count == acc.count)
  {
    NamesAreRead(name);
    NamesDiffer(name);
    CountArgIsRead(value);
  }

  ghost predicate ArgsMean(options: seq<Bytes>, acc: ScanArgs, r: ScanArgs) {
    && r.cursor == acc.cursor
    && SetBy(options, "MATCH", acc.pattern, r.pattern)
    && SetBy(options, "TYPE", acc.typeFilter, r.typeFilter)
    && CountedBy(options, acc.count, r.count)
  }

  lemma {:induction false} ArgsFromExactly(options: seq<Bytes>, acc: ScanArgs)
    ensures ArgsFrom(options, acc).Ok? <==> WellFormed(options, true, I64_MAX)
    ensures ArgsFrom(options, acc).Ok? ==> ArgsMean(options, acc, ArgsFrom(options, acc).value)
  {
    if |options| < 2 {
    } else {
      var rest := options[2..];
      OnePairMore(options, true, I64_MAX);
      ArgsPair(options[0], options[1], acc);
      var step := ArgsStep(options[0], options[1], acc);
      if step.Ok? {
        ArgsFromExactly(rest, step.value);
        if ArgsFrom(rest, step.value).Ok? {
          var r := ArgsFrom(rest, step.value).value;
          SetMore(options, "MATCH", acc.pattern, r.pattern);
          SetMore(options, "TYPE", acc.typeFilter, r.typeFilter);
          CountMore(options, acc.count, if step.value.count.Some? then step.value.count.value else 0, r.count);
        }
      }
    }
  }

  /**
   SCAN reads its arguments if and only if the cursor is an unsigned 64-bit number, every option
   has a known name, in any letter case, and its operand, and every COUNT is a number from 1 to
   2^63 - 1. Then each field is the operand of the last option of its name.
   */
  lemma ScanArgsExactly(cursor: Bytes, options: seq<Bytes>)
    ensures Args(cursor, options).Ok? <==>
            (exists c: nat :: c <= U64_MAX && Denotes(cursor, c)) && WellFormed(options, true, I64_MAX)
    ensures Args(cursor, options).Ok? ==>
              var a := Args(cursor, options).value;
              && Denotes(cursor, a.cursor)
              && SetBy(options, "MATCH", None, a.pattern)
              && SetBy(options, "TYPE", None, a.typeFilter)
              && CountedBy(options, None, a.count)
  {
    CursorIsRead(cursor);
    var c := ParseUnsigned(AsText(cursor), U64_MAX);
    if c.Some? { ArgsFromExactly(options, ScanArgs(c.value, None, None, None)); }
  }

  lemma CursorIsRead(cursor: Bytes)
    ensures var c := ParseUnsigned(AsText(cursor), U64_MAX);
            && (c.Some? <==> exists n: nat :: n <= U64_MAX && Denotes(cursor, n))
            && (c.Some? ==> Denotes(cursor, c.value))
  {
    var c := ParseUnsigned(AsText(cursor), U64_MAX);
    if c.Some? { NumberIsRead(cursor, c.value, U64_MAX); }
    if n: nat :| n <= U64_MAX && Denotes(cursor, n) { NumberIsRead(cursor, n, U64_MAX); }
  }

  // ---------------------------------------------------------------------------------------------
  // The shared parser
  // ---------------------------------------------------------------------------------------------

  lemma OptionsPair(name: Bytes, value: Bytes, acc: ScanOptions)
    ensures OptionsStep(name, value, acc).Ok? <==> GoodPair(name, value, false, U64_MAX)
    ensures OptionsStep(name, value, acc).Ok? ==>
              var next := OptionsStep(name, value, acc).value;
              && next.cursor == acc.cursor
              && next.pattern == (if Named(name, "MATCH") then Some(value) else acc.pattern)
              && (if Named(name, "COUNT") then next.count.Some? && Denotes(value, next.count.value)
                  else next.count == acc.count)
  {
    NamesAreRead(name);
    NamesDiffer(name);
    CountOptionIsRead(value);
  }

  ghost predicate OptionsMean(options: seq<Bytes>, acc: ScanOptions, r: ScanOptions) {
    && r.cursor == acc.cursor
    && SetBy(options, "MATCH", acc.pattern, r.pattern)
    && CountedBy(options, acc.count, r.count)
  }

  lemma {:induction false} OptionsFromExactly(options: seq<Bytes>, acc: ScanOptions)
    ensures OptionsFrom(options, acc).Ok? <==> WellFormed(options, false, U64_MAX)
    ensures OptionsFrom(options, acc).Ok? ==> OptionsMean(options, acc, OptionsFrom(options, acc).value)
  {
    if |options| < 2 {
    } else {
      var rest := options[2..];
      OnePairMore(options, false, U64_MAX);
      OptionsPair(options[0], options[1], acc);
      var step := OptionsStep(options[0], options[1], acc);
      if step.Ok? {
        OptionsFromExactly(rest, step.value);
        if OptionsFrom(rest, step.value).Ok? {
          var r := OptionsFrom(rest, step.value).value;
          SetMore(options, "MATCH", acc.pattern, r.pattern);
          CountMore(options, acc.count, if step.value.count.Some? then step.value.count.value else 0, r.count);
        }
      }
    }
  }

  /** The same for the shared parser, which does not know TYPE and counts up to 2^64 - 1. */
  lemma ScanOptionsExactly(cursor: Bytes, options: seq<Bytes>)
    ensures Opts(cursor, options).Ok? <==>
            (exists c: nat :: c <= U64_MAX && Denotes(cursor, c)) && WellFormed(options, false, U64_MAX)
    ensures Opts(cursor, options).Ok? ==>
              var o := Opts(cursor, options).value;
              && Denotes(cursor, o.cursor)
              && SetBy(options, "MATCH", None, o.pattern)
              && CountedBy(options, None, o.count)
  {
    CursorIsRead(cursor);
    var c := ParseUnsigned(AsText(cursor), U64_MAX);
    if c.Some? { OptionsFromExactly(options, ScanOptions(c.value, None, None)); }
  }

  // ---------------------------------------------------------------------------------------------
  // Errors
  // ---------------------------------------------------------------------------------------------

  /** The first option that lacks its operand or is not good. */
  ghost predicate FirstBad(options: seq<Bytes>, types: bool, max: nat, i: int) {
    && 0 <= i < |options| && i % 2 == 0
    && (i + 1 < |options| ==> !GoodPair(options[i], options[i + 1], types, max))
    && forall j :: 0 <= j < i && j % 2 == 0 ==> GoodPair(options[j], options[j + 1], types, max)
  }

  lemma LaterBad(options: seq<Bytes>, types: bool, max: nat, i: int)
    requires FirstBad(options, types, max, i) && i > 0
    ensures |options| >= 2 && FirstBad(options[2..], types, max, i - 2)
    ensures GoodPair(options[0], options[1], types, max)
  {
    var rest := options[2..];
    assert forall j :: 0 <= j < |rest| ==> rest[j] == options[j + 2];
    assert GoodPair(options[0], options[0 + 1], types, max);
    forall j | 0 <= j < i - 2 && j % 2 == 0 ensures GoodPair(rest[j], rest[j + 1], types, max) {
      assert GoodPair(options[j + 2], options[j + 2 + 1], types, max);
    }
  }

  predicate SpellsNegative(b: Bytes, digits: string) {
    AsText(b) == "-" + digits && digits != "" && AllDigits(digits) && Value(digits) <= I64_MAX + 1
  }

  /** A signed 64-bit number. */
  ghost predicate IsInteger(b: Bytes) {
    (exists n: nat :: n <= I64_MAX && Denotes(b, n)) || (exists digits :: SpellsNegative(b, digits))
  }

  lemma IntegerIsRead(b: Bytes)
    ensures ParseSigned(AsText(b), I64_MAX).Some? <==> IsInteger(b)
  {
    var s := AsText(b);
    if s != "" && s[0] == '-' {
      assert s == "-" + s[1..];
      if ParseSigned(s, I64_MAX).Some? { assert SpellsNegative(b, s[1..]); }
      if digits :| SpellsNegative(b, digits) { assert s[1..] == digits; }
      forall n: nat ensures !Denotes(b, n) { MinusDenotesNothing(b, n); }
    } else {
      if ParseSigned(s, I64_MAX).Some? { NumberIsRead(b, ParseSigned(s, I64_MAX).value, I64_MAX); }
      if n: nat :| n <= I64_MAX && Denotes(b, n) { NumberIsRead(b, n, I64_MAX); }
    }
  }

  lemma MinusDenotesNothing(b: Bytes, n: nat)
    requires AsText(b) != "" && AsText(b)[0] == '-'
    ensures !Denotes(b, n)
  {
    forall plus, digits ensures !Spells(b, plus, digits, n) {
      if AsText(b) == plus + digits && plus in {"", "+"} && digits != "" {
        assert (plus + digits)[0] == if plus == "" then digits[0] else '+';
      }
    }
  }

  /** SCAN reports the first bad option: a COUNT that is no integer as such, all else as a syntax error. */
  lemma {:induction false} ScanArgsError(options: seq<Bytes>, acc: ScanArgs, i: int)
    requires FirstBad(options, true, I64_MAX, i)
    ensures ArgsFrom(options, acc) ==
            if i + 1 < |options| && Named(options[i], "COUNT") && !IsInteger(options[i + 1])
            then Err(NotAnInteger) else Err(SyntaxError)
    decreases i
  {
    NamesAreRead(options[i]);
    NamesDiffer(options[i]);
    if i == 0 {
      if |options| >= 2 {
        CountArgIsRead(options[1]);
        IntegerIsRead(options[1]);
      }
    } else {
      LaterBad(options, true, I64_MAX, i);
      ArgsPair(options[0], options[1], acc);
      ScanArgsError(options[2..], ArgsStep(options[0], options[1], acc).value, i - 2);
      assert options[2..][i - 2] == options[i];
      assert i + 1 < |options| ==> options[2..][i - 1] == options[i + 1];
    }
  }

  /** The shared parser reports every bad COUNT operand as no number. */
  lemma {:induction false} ScanOptionsError(options: seq<Bytes>, acc: ScanOptions, i: int)
    requires FirstBad(options, false, U64_MAX, i)
    ensures OptionsFrom(options, acc) ==
            if i + 1 < |options| && Named(options[i], "COUNT") then Err(NotAnInteger) else Err(SyntaxError)
    decreases i
  {
    NamesAreRead(options[i]);
    NamesDiffer(options[i]);
    if i == 0 {
      if |options| >= 2 { CountOptionIsRead(options[1]); }
    } else {
      LaterBad(options, false, U64_MAX, i);
      OptionsPair(options[0], options[1], acc);
      ScanOptionsError(options[2..], OptionsStep(options[0], options[1], acc).value, i - 2);
      assert options[2..][i - 2] == options[i];
    }
  }
}
