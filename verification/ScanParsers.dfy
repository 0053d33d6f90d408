/** The option parsers of SCAN and of its collection variants. */
module ScanParsers {
  import opened Options
  import opened Text
  import opened Decimal

  newtype byte = x: int | 0 <= x < 256

  type Bytes = seq<byte>

  datatype ScanError = InvalidCursor | SyntaxError | NotAnInteger

  datatype ScanArgs = ScanArgs(cursor: nat, pattern: Option<Bytes>, count: Option<nat>, typeFilter: Option<Bytes>)

  datatype ScanOptions = ScanOptions(cursor: nat, pattern: Option<Bytes>, count: Option<nat>)

  /** Bytes as characters. A byte outside ASCII is no digit, no sign and no letter, as in UTF-8. */
  function AsText(b: Bytes): string {
    seq(|b|, i requires 0 <= i < |b| => b[i] as int as char)
  }

  predicate Is(b: Bytes, name: string) {
    Upper(AsText(b)) == name
  }

  // ---------------------------------------------------------------------------------------------
  // What the parsers compute
  // ---------------------------------------------------------------------------------------------

  function CountArg(value: Bytes): Result<nat, ScanError> {
    match ParseSigned(AsText(value), I64_MAX)
    case None => Err(NotAnInteger)
    case Some(n) => if n < 1 then Err(SyntaxError) else Ok(n)
  }

  function CountOption(value: Bytes): Result<nat, ScanError> {
    match ParseUnsigned(AsText(value), U64_MAX)
    case None => Err(NotAnInteger)
    case Some(n) => if n > 0 then Ok(n) else Err(NotAnInteger)
  }

  /** One option of SCAN and its operand. */
  function ArgsStep(name: Bytes, value: Bytes, acc: ScanArgs): Result<ScanArgs, ScanError> {
    if Is(name, "MATCH") then Ok(acc.(pattern := Some(value)))
    else if Is(name, "COUNT") then
      match CountArg(value)
      case Ok(n) => Ok(acc.(count := Some(n)))
      case Err(e) => Err(e)
    else if Is(name, "TYPE") then Ok(acc.(typeFilter := Some(value)))
    else Err(SyntaxError)
  }

  function OptionsStep(name: Bytes, value: Bytes, acc: ScanOptions): Result<ScanOptions, ScanError> {
    if Is(name, "MATCH") then Ok(acc.(pattern := Some(value)))
    else if Is(name, "COUNT") then
      match CountOption(value)
      case Ok(n) => Ok(acc.(count := Some(n)))
      case Err(e) => Err(e)
    else Err(SyntaxError)
  }

  /** The remaining options; a trailing option without operand is a syntax error. */
  function ArgsFrom(options: seq<Bytes>, acc: ScanArgs): Result<ScanArgs, ScanError> {
    if options == [] then Ok(acc)
    else if |options| == 1 then Err(SyntaxError)
    else match ArgsStep(options[0], options[1], acc)
         case Ok(next) => ArgsFrom(options[2..], next)
         case Err(e) => Err(e)
  }

  function OptionsFrom(options: seq<Bytes>, acc: ScanOptions): Result<ScanOptions, ScanError> {
    if options == [] then Ok(acc)
    else if |options| == 1 then Err(SyntaxError)
    else match OptionsStep(options[0], options[1], acc)
         case Ok(next) => OptionsFrom(options[2..], next)
         case Err(e) => Err(e)
  }

  function Args(cursor: Bytes, options: seq<Bytes>): Result<ScanArgs, ScanError> {
    match ParseUnsigned(AsText(cursor), U64_MAX)
    case None => Err(InvalidCursor)
    case Some(c) => ArgsFrom(options, ScanArgs(c, None, None, None))
  }

  function Opts(cursor: Bytes, options: seq<Bytes>): Result<ScanOptions, ScanError> {
    match ParseUnsigned(AsText(cursor), U64_MAX)
    case None => Err(InvalidCursor)
    case Some(c) => OptionsFrom(options, ScanOptions(c, None, None))
  }

  // ---------------------------------------------------------------------------------------------
  // The parsers
  // ---------------------------------------------------------------------------------------------

  method ParseScanArgs(cursor: Bytes, options: seq<Bytes>) returns (r: Result<ScanArgs, ScanError>)
    ensures r == Args(cursor, options)
  {
    var start := ParseUnsigned(AsText(cursor), U64_MAX);
    if start.None? { return Err(InvalidCursor); }
    var pattern: Option<Bytes> := None;
    var count: Option<nat> := None;
    var typeFilter: Option<Bytes> := None;
    var index := 0;
    while index < |options|
      invariant 0 <= index <= |options|
      invariant ArgsFrom(options[index..], ScanArgs(start.value, pattern, count, typeFilter)) == Args(cursor, options)
    {
      assert |options| >= index + 2 ==> options[index..][2..] == options[index + 2..];
      if Is(options[index], "MATCH") {
        if index + 1 >= |options| { return Err(SyntaxError); }
        pattern := Some(options[index + 1]);
        index := index + 2;
      } else if Is(options[index], "COUNT") {
        if index + 1 >= |options| { return Err(SyntaxError); }
        var parsed := ParseSigned(AsText(options[index + 1]), I64_MAX);
        if parsed.None? { return Err(NotAnInteger); }
        if parsed.value < 1 { return Err(SyntaxError); }
        count := Some(parsed.value);
        index := index + 2;
      } else if Is(options[index], "TYPE") {
        if index + 1 >= |options| { return Err(SyntaxError); }
        typeFilter := Some(options[index + 1]);
        index := index + 2;
      } else {
        return Err(SyntaxError);
      }
    }
    return Ok(ScanArgs(start.value, pattern, count, typeFilter));
  }

  method ParseScanOptions(cursor: Bytes, options: seq<Bytes>) returns (r: Result<ScanOptions, ScanError>)
    ensures r == Opts(cursor, options)
  {
    var start := ParseUnsigned(AsText(cursor), U64_MAX);
    if start.None? { return Err(InvalidCursor); }
    var pattern: Option<Bytes> := None;
    var count: Option<nat> := None;
    var index := 0;
    while index < |options|
      invariant 0 <= index <= |options|
      invariant OptionsFrom(options[index..], ScanOptions(start.value, pattern, count)) == Opts(cursor, options)
    {
      assert |options| >= index + 2 ==> options[index..][2..] == options[index + 2..];
      if Is(options[index], "MATCH") {
        if index + 1 >= |options| { return Err(SyntaxError); }
        pattern := Some(options[index + 1]);
        index := index + 2;
      } else if Is(options[index], "COUNT") {
        if index + 1 >= |options| { return Err(SyntaxError); }
        var parsed := ParseUnsigned(AsText(options[index + 1]), U64_MAX);
        if parsed.None? || parsed.value == 0 { return Err(NotAnInteger); }
        count := parsed;
        index := index + 2;
      } else {
        return Err(SyntaxError);
      }
    }
    return Ok(ScanOptions(start.value, pattern, count));
  }

  // ---------------------------------------------------------------------------------------------
  // Agreement
  // ---------------------------------------------------------------------------------------------

  /** Every COUNT operand is representable as a signed 64-bit number. */
  predicate CountsFit(options: seq<Bytes>) {
    |options| < 2 ||
    (&& (Is(options[0], "COUNT") ==>
           ParseUnsigned(AsText(options[1]), U64_MAX).Some? ==>
           ParseUnsigned(AsText(options[1]), U64_MAX).value <= I64_MAX)
     && CountsFit(options[2..]))
  }

  function Forget(a: ScanArgs): ScanOptions {
    ScanOptions(a.cursor, a.pattern, a.count)
  }

  lemma {:induction false} TypeFilterStays(options: seq<Bytes>, acc: ScanArgs)
    requires acc.typeFilter.Some? && ArgsFrom(options, acc).Ok?
    ensures ArgsFrom(options, acc).value.typeFilter.Some?
  {
    if |options| >= 2 { TypeFilterStays(options[2..], ArgsStep(options[0], options[1], acc).value); }
  }

  lemma CountsAgree(value: Bytes)
    ensures CountArg(value).Ok? ==> CountOption(value) == CountArg(value) && CountArg(value).value <= I64_MAX
    ensures CountOption(value).Ok? ==> (CountArg(value).Ok? <==> CountOption(value).value <= I64_MAX)
  {
    SignedAgreesWithUnsigned(AsText(value), I64_MAX, U64_MAX);
  }

  lemma {:induction false} AgreeFrom(options: seq<Bytes>, acc: ScanArgs)
    requires acc.typeFilter.None?
    ensures ArgsFrom(options, acc).Ok? && ArgsFrom(options, acc).value.typeFilter.None? ==>
              OptionsFrom(options, Forget(acc)) == Ok(Forget(ArgsFrom(options, acc).value))
    ensures OptionsFrom(options, Forget(acc)).Ok? ==>
              && (ArgsFrom(options, acc).Ok? <==> CountsFit(options))
              && (ArgsFrom(options, acc).Ok? ==> ArgsFrom(options, acc).value.typeFilter.None?)
  {
    if |options| >= 2 {
      CountsAgree(options[1]);
      var next := ArgsStep(options[0], options[1], acc);
      if next.Ok? {
        if next.value.typeFilter.None? {
          AgreeFrom(options[2..], next.value);
        } else if ArgsFrom(options[2..], next.value).Ok? {
          TypeFilterStays(options[2..], next.value);
        }
      }
    }
  }

  /**
   SCAN without TYPE reads exactly what the shared parser reads. Conversely, what the shared
   parser reads, SCAN reads too if and only if every COUNT fits into a signed 64-bit number.
   */
  lemma ParsersAgree(cursor: Bytes, options: seq<Bytes>)
    ensures Args(cursor, options).Ok? && Args(cursor, options).value.typeFilter.None? ==>
              Opts(cursor, options) == Ok(Forget(Args(cursor, options).value))
    ensures Opts(cursor, options).Ok? ==>
              && (Args(cursor, options).Ok? <==> CountsFit(options))
              && (Args(cursor, options).Ok? ==>
                    && Args(cursor, options).value.typeFilter.None?
                    && Forget(Args(cursor, options).value) == Opts(cursor, options).value)
  {
    var c := ParseUnsigned(AsText(cursor), U64_MAX);
    if c.Some? { AgreeFrom(options, ScanArgs(c.value, None, None, None)); }
  }

  // ---------------------------------------------------------------------------------------------
  // Rendering
  // ---------------------------------------------------------------------------------------------

  function Ascii(s: string): Bytes
    requires forall i :: 0 <= i < |s| ==> s[i] < '\U{80}'
  {
    seq(|s|, i requires 0 <= i < |s| => s[i] as int as byte)
  }

  lemma AsciiReadsBack(s: string)
    requires forall i :: 0 <= i < |s| ==> s[i] < '\U{80}'
    ensures AsText(Ascii(s)) == s
  {
  }

  function Number(n: nat): Bytes {
    ShowReadsBack(n);
    Ascii(Show(n))
  }

  function Clause(name: string, value: Option<Bytes>): seq<Bytes>
    requires forall i :: 0 <= i < |name| ==> name[i] < '\U{80}'
  {
    if value.Some? then [Ascii(name), value.value] else []
  }

  function CountClause(count: Option<nat>): seq<Bytes> {
    Clause("COUNT", if count.Some? then Some(Number(count.value)) else None)
  }

  function RenderArgs(a: ScanArgs): seq<Bytes> {
    Clause("MATCH", a.pattern) + CountClause(a.count) + Clause("TYPE", a.typeFilter)
  }

  function RenderOptions(o: ScanOptions): seq<Bytes> {
    Clause("MATCH", o.pattern) + CountClause(o.count)
  }

  predicate InRange(cursor: nat, count: Option<nat>, max: nat) {
    cursor <= U64_MAX && (count.Some? ==> 1 <= count.value <= max)
  }

  lemma {:induction false} AcceptedInRange(options: seq<Bytes>, acc: ScanArgs)
    requires InRange(acc.cursor, acc.count, I64_MAX) && ArgsFrom(options, acc).Ok?
    ensures InRange(ArgsFrom(options, acc).value.cursor, ArgsFrom(options, acc).value.count, I64_MAX)
  {
    if |options| >= 2 {
      CountsAgree(options[1]);
      AcceptedInRange(options[2..], ArgsStep(options[0], options[1], acc).value);
    }
  }

  lemma NumberReadsBack(n: nat)
    ensures ParseUnsigned(AsText(Number(n)), U64_MAX) == if n <= U64_MAX then Some(n) else None
    ensures 1 <= n <= I64_MAX ==> CountArg(Number(n)) == Ok(n)
    ensures 1 <= n <= U64_MAX ==> CountOption(Number(n)) == Ok(n)
  {
    ShowReadsBack(n);
    AsciiReadsBack(Show(n));
    ShownIsParsed(n, U64_MAX);
    SignedAgreesWithUnsigned(Show(n), I64_MAX, U64_MAX);
  }

  lemma NamesReadBack()
    ensures Is(Ascii("MATCH"), "MATCH") && Is(Ascii("COUNT"), "COUNT") && Is(Ascii("TYPE"), "TYPE")
    ensures !Is(Ascii("COUNT"), "MATCH") && !Is(Ascii("TYPE"), "MATCH") && !Is(Ascii("TYPE"), "COUNT")
  {
    assert Upper(AsText(Ascii("MATCH"))) == "MATCH";
    assert Upper(AsText(Ascii("COUNT"))) == "COUNT";
    assert Upper(AsText(Ascii("TYPE"))) == "TYPE";
  }

  lemma ClauseFirst(name: string, value: Bytes, rest: seq<Bytes>, acc: ScanArgs)
    requires forall i :: 0 <= i < |name| ==> name[i] < '\U{80}'
    requires ArgsStep(Ascii(name), value, acc).Ok?
    ensures ArgsFrom(Clause(name, Some(value)) + rest, acc) == ArgsFrom(rest, ArgsStep(Ascii(name), value, acc).value)
  {
    assert (Clause(name, Some(value)) + rest)[2..] == rest;
  }

  /** What SCAN accepted, written out again, is accepted with the same meaning. */
  lemma ArgsRenderReadsBack(cursor: Bytes, options: seq<Bytes>)
    requires Args(cursor, options).Ok?
    ensures var a := Args(cursor, options).value; Args(Number(a.cursor), RenderArgs(a)) == Ok(a)
  {
    var a := Args(cursor, options).value;
    var c := ParseUnsigned(AsText(cursor), U64_MAX).value;
    AcceptedInRange(options, ScanArgs(c, None, None, None));
    NumberReadsBack(a.cursor);
    RenderFrom(a);
  }

  lemma RenderFrom(a: ScanArgs)
    requires InRange(a.cursor, a.count, I64_MAX)
    ensures ArgsFrom(RenderArgs(a), ScanArgs(a.cursor, None, None, None)) == Ok(a)
  {
    NamesReadBack();
    var zero := ScanArgs(a.cursor, None, None, None);
    var one := zero.(pattern := a.pattern);
    var two := one.(count := a.count);
    var afterMatch := CountClause(a.count) + Clause("TYPE", a.typeFilter);
    assert ArgsFrom(Clause("TYPE", a.typeFilter), two) == Ok(a) by {
      if a.typeFilter.Some? {
        ClauseFirst("TYPE", a.typeFilter.value, [], two);
        assert Clause("TYPE", a.typeFilter) + [] == Clause("TYPE", a.typeFilter);
      }
    }
    assert ArgsFrom(afterMatch, one) == Ok(a) by {
      if a.count.Some? {
        NumberReadsBack(a.count.value);
        ClauseFirst("COUNT", Number(a.count.value), Clause("TYPE", a.typeFilter), one);
      } else { assert afterMatch == Clause("TYPE", a.typeFilter); }
    }
    assert RenderArgs(a) == Clause("MATCH", a.pattern) + afterMatch;
    if a.pattern.Some? { ClauseFirst("MATCH", a.pattern.value, afterMatch, zero); }
    else { assert RenderArgs(a) == afterMatch; }
  }

  lemma {:induction false} OptionsInRange(options: seq<Bytes>, acc: ScanOptions)
    requires InRange(acc.cursor, acc.count, U64_MAX) && OptionsFrom(options, acc).Ok?
    ensures InRange(OptionsFrom(options, acc).value.cursor, OptionsFrom(options, acc).value.count, U64_MAX)
  {
    if |options| >= 2 { OptionsInRange(options[2..], OptionsStep(options[0], options[1], acc).value); }
  }

  lemma OptionFirst(name: string, value: Bytes, rest: seq<Bytes>, acc: ScanOptions)
    requires forall i :: 0 <= i < |name| ==> name[i] < '\U{80}'
    requires OptionsStep(Ascii(name), value, acc).Ok?
    ensures OptionsFrom(Clause(name, Some(value)) + rest, acc) ==
              OptionsFrom(rest, OptionsStep(Ascii(name), value, acc).value)
  {
    assert (Clause(name, Some(value)) + rest)[2..] == rest;
  }

  lemma CountReadsBack(o: ScanOptions)
    requires InRange(o.cursor, o.count, U64_MAX)
    ensures OptionsFrom(CountClause(o.count), ScanOptions(o.cursor, o.pattern, None)) == Ok(o)
  {
    NamesReadBack();
    if o.count.Some? {
      NumberReadsBack(o.count.value);
      OptionFirst("COUNT", Number(o.count.value), [], ScanOptions(o.cursor, o.pattern, None));
      assert CountClause(o.count) + [] == CountClause(o.count);
    }
  }

  lemma RenderOptionsFrom(o: ScanOptions)
    requires InRange(o.cursor, o.count, U64_MAX)
    ensures OptionsFrom(RenderOptions(o), ScanOptions(o.cursor, None, None)) == Ok(o)
  {
    NamesReadBack();
    CountReadsBack(o);
    if o.pattern.Some? {
      OptionFirst("MATCH", o.pattern.value, CountClause(o.count), ScanOptions(o.cursor, None, None));
    } else {
      assert RenderOptions(o) == CountClause(o.count);
    }
  }

  /** The same for the shared parser, whose COUNT ranges over all unsigned 64-bit numbers. */
  lemma OptionsRenderReadsBack(cursor: Bytes, options: seq<Bytes>)
    requires Opts(cursor, options).Ok?
    ensures var o := Opts(cursor, options).value; Opts(Number(o.cursor), RenderOptions(o)) == Ok(o)
  {
    var o := Opts(cursor, options).value;
    var zero := ScanOptions(ParseUnsigned(AsText(cursor), U64_MAX).value, None, None);
    OptionsInRange(options, zero);
    CursorStays(options, zero);
    NumberReadsBack(o.cursor);
    RenderOptionsFrom(o);
  }

  lemma {:induction false} CursorStays(options: seq<Bytes>, acc: ScanOptions)
    requires OptionsFrom(options, acc).Ok?
    ensures OptionsFrom(options, acc).value.cursor == acc.cursor
  {
    if |options| >= 2 { CursorStays(options[2..], OptionsStep(options[0], options[1], acc).value); }
  }

  /** The parsers do differ: 2^63 is a COUNT for the shared parser only. */
  lemma ParsersDisagree()
    ensures var options := CountClause(Some(I64_MAX + 1));
            && Opts(Number(0), options) == Ok(ScanOptions(0, None, Some(I64_MAX + 1)))
            && Args(Number(0), options).Err?
  {
    var options := CountClause(Some(I64_MAX + 1));
    NumberReadsBack(0);
    NumberReadsBack(I64_MAX + 1);
    NamesReadBack();
    OptionFirst("COUNT", Number(I64_MAX + 1), [], ScanOptions(0, None, None));
    assert options + [] == options;
    ParsersAgree(Number(0), options);
  }
}
