/** The Redis-style configuration parser and the INI printer. */
module RedisConfig {
  import opened Options
  import opened Text

  type Config = map<string, string>

  /** Line number, counted from one, and the offending line. */
  datatype BadLine = BadLine(number: nat, line: string)

  function StripComment(raw: string): string {
    match Find(raw, '#')
    case None => raw
    case Some(i) => raw[..i]
  }

  function Significant(raw: string): string {
    Trim(StripComment(raw))
  }

  /** One `key=value` or `key value` line. */
  function ParseLine(line: string): Option<(string, string)> {
    match Find(line, '=')
    case Some(i) => Some((Trim(line[..i]), Trim(line[i + 1..])))
    case None =>
      match Find(line, ' ')
      case Some(i) => if Trim(line[i..]) != "" then Some((Trim(line[..i]), Trim(line[i..]))) else None
      case None => None
  }

  datatype LineKind = Blank | Entry(key: string, value: string) | Bad(line: string)

  function Classify(raw: string): LineKind {
    var line := Significant(raw);
    if line == "" then Blank
    else match ParseLine(line)
         case Some(entry) => Entry(entry.0, entry.1)
         case None => Bad(line)
  }

  function ClassifyAll(lines: seq<string>): seq<LineKind> {
    seq(|lines|, i requires 0 <= i < |lines| => Classify(lines[i]))
  }

  /** Later entries overwrite earlier ones; the first bad line stops. */
  function Collect(kinds: seq<LineKind>): Result<Config, BadLine> {
    if kinds == [] then Ok(map[])
    else
      var n := |kinds| - 1;
      match Collect(kinds[..n])
      case Err(e) => Err(e)
      case Ok(config) =>
        match kinds[n]
        case Blank => Ok(config)
        case Entry(key, value) => Ok(config[key := value])
        case Bad(line) => Err(BadLine(n + 1, line))
  }

  function ParseConfig(content: string): Result<Config, BadLine> {
    Collect(ClassifyAll(Lines(content)))
  }

  lemma {:induction false} BadLineStops(kinds: seq<LineKind>, n: nat)
    requires n <= |kinds| && Collect(kinds[..n]).Err?
    ensures Collect(kinds) == Collect(kinds[..n])
  {
    if n < |kinds| {
      assert kinds[..|kinds| - 1][..n] == kinds[..n];
      BadLineStops(kinds[..|kinds| - 1], n);
    } else {
      assert kinds[..n] == kinds;
    }
  }

  method ParseRedisConfig(content: string) returns (r: Result<Config, BadLine>)
    ensures r == ParseConfig(content)
  {
    var lines := Lines(content);
    ghost var kinds := ClassifyAll(lines);
    var config: Config := map[];
    for n := 0 to |lines|
      invariant Collect(kinds[..n]) == Ok(config)
    {
      assert kinds[..n + 1][..n] == kinds[..n];
      var line := Significant(lines[n]);
      if line == "" { continue; }
      var entry := ParseLine(line);
      if entry.Some? {
        config := config[entry.value.0 := entry.value.1];
      } else {
        BadLineStops(kinds, n + 1);
        return Err(BadLine(n + 1, line));
      }
    }
    assert kinds[..|lines|] == kinds;
    return Ok(config);
  }

  // ---------------------------------------------------------------------------------------------
  // What is accepted
  // ---------------------------------------------------------------------------------------------

  predicate Parseable(line: string) {
    line == "" || '=' in line || ' ' in line
  }

  /** On a trimmed line the emptiness test of the value never fires. */
  lemma ParseLineAccepts(raw: string)
    ensures var line := Significant(raw);
            line != "" ==> (ParseLine(line).Some? <==> Parseable(line))
  {
    var line := Significant(raw);
    TrimIsTrimmed(StripComment(raw));
    var i := Find(line, ' ');
    if line != "" && i.Some? {
      var rest := line[i.value..];
      TrimStartSuffix(rest);
      TrimEndPrefix(TrimStart(rest));
      KeepsLast(rest);
    }
  }

  lemma {:induction false} KeepsLast(s: string)
    requires s != "" && !Space(s[|s| - 1])
    ensures Trim(s) != ""
  {
    if Space(s[0]) {
      assert Trim(s) == Trim(s[1..]);
      KeepsLast(s[1..]);
    }
  }

  lemma {:induction false} CollectAccepts(kinds: seq<LineKind>)
    ensures Collect(kinds).Ok? <==> forall i :: 0 <= i < |kinds| ==> !kinds[i].Bad?
  {
    if kinds == [] {
    } else {
      var n := |kinds| - 1;
      CollectAccepts(kinds[..n]);
      assert forall i :: 0 <= i < n ==> kinds[..n][i] == kinds[i];
    }
  }

  predicate AllParseable(lines: seq<string>) {
    forall i :: 0 <= i < |lines| ==> Parseable(Significant(lines[i]))
  }

  lemma LinesAccepted(lines: seq<string>)
    ensures Collect(ClassifyAll(lines)).Ok? <==> AllParseable(lines)
  {
    var kinds := ClassifyAll(lines);
    CollectAccepts(kinds);
    forall i | 0 <= i < |lines| ensures kinds[i].Bad? <==> !Parseable(Significant(lines[i])) {
      ParseLineAccepts(lines[i]);
    }
  }

  /** The parser accepts exactly the texts each of whose lines is blank, or has an `=` or a space. */
  lemma AcceptsExactly(content: string)
    ensures ParseConfig(content).Ok? <==> AllParseable(Lines(content))
  {
    LinesAccepted(Lines(content));
  }

  /** A key has the value of the last line that sets it, and only keys that are set appear. */
  lemma {:induction false} LastOneWins(kinds: seq<LineKind>, key: string)
    requires Collect(kinds).Ok?
    ensures key in Collect(kinds).value <==> exists i :: 0 <= i < |kinds| && kinds[i].Entry? && kinds[i].key == key
    ensures forall i :: 0 <= i < |kinds| && kinds[i].Entry? && kinds[i].key == key &&
                        (forall j :: i < j < |kinds| ==> !(kinds[j].Entry? && kinds[j].key == key)) ==>
              key in Collect(kinds).value && Collect(kinds).value[key] == kinds[i].value
  {
    if kinds == [] {
    } else {
      var n := |kinds| - 1;
      LastOneWins(kinds[..n], key);
      assert forall i :: 0 <= i < n ==> kinds[..n][i] == kinds[i];
    }
  }

  // ---------------------------------------------------------------------------------------------
  // Printing and reading back
  // ---------------------------------------------------------------------------------------------

  predicate CleanKey(s: string) {
    Trimmed(s) && '=' !in s && '#' !in s && '\n' !in s
  }

  predicate CleanValue(s: string) {
    Trimmed(s) && '#' !in s && '\n' !in s
  }

  predicate Clean(config: Config) {
    forall k :: k in config ==> CleanKey(k) && CleanValue(config[k])
  }

  lemma SignificantIsPlain(raw: string)
    requires '\n' !in raw
    ensures CleanValue(Significant(raw))
  {
    TrimIsTrimmed(StripComment(raw));
    TrimLacks(StripComment(raw), '#');
    TrimLacks(StripComment(raw), '\n');
  }

  lemma TrimIsClean(s: string)
    requires '#' !in s && '\n' !in s
    ensures CleanValue(Trim(s)) && ('=' !in s ==> CleanKey(Trim(s)))
  {
    TrimIsTrimmed(s);
    TrimLacks(s, '#');
    TrimLacks(s, '\n');
    if '=' !in s { TrimLacks(s, '='); }
  }

  lemma ParsedLineIsClean(raw: string)
    requires '\n' !in raw
    ensures var entry := ParseLine(Significant(raw));
            entry.Some? ==> CleanKey(entry.value.0) && CleanValue(entry.value.1)
  {
    var line := Significant(raw);
    SignificantIsPlain(raw);
    var i := if Find(line, '=').Some? then Find(line, '=') else Find(line, ' ');
    if i.Some? {
      TrimIsClean(line[..i.value]);
      TrimIsClean(line[i.value + 1..]);
      TrimIsClean(line[i.value..]);
    }
  }

  predicate CleanKind(kind: LineKind) {
    kind.Entry? ==> CleanKey(kind.key) && CleanValue(kind.value)
  }

  lemma {:induction false} CollectedIsClean(kinds: seq<LineKind>)
    requires Collect(kinds).Ok? && forall i :: 0 <= i < |kinds| ==> CleanKind(kinds[i])
    ensures Clean(Collect(kinds).value)
  {
    if kinds == [] {
    } else {
      CollectedIsClean(kinds[..|kinds| - 1]);
    }
  }

  lemma ParsedIsClean(content: string)
    requires ParseConfig(content).Ok?
    ensures Clean(ParseConfig(content).value)
  {
    var lines := Lines(content);
    NoNewlineInLines(content);
    forall i | 0 <= i < |lines| ensures CleanKind(ClassifyAll(lines)[i]) { ParsedLineIsClean(lines[i]); }
    CollectedIsClean(ClassifyAll(lines));
  }

  function PrintEntry(key: string, value: string): string {
    key + " = " + value
  }

  /** The entries in the given order, one per line. */
  function Print(order: seq<string>, config: Config): string
    requires forall i :: 0 <= i < |order| ==> order[i] in config
  {
    if order == [] then ""
    else PrintEntry(order[0], config[order[0]]) + "\n" + Print(order[1..], config)
  }

  /** An iteration order of the map: each key once. */
  predicate Enumerates(order: seq<string>, keys: set<string>) {
    && (forall i :: 0 <= i < |order| ==> order[i] in keys)
    && (forall k :: k in keys ==> k in order)
    && (forall i, j :: 0 <= i < j < |order| ==> order[i] != order[j])
  }

  /** What remains of a printed entry after trimming: an empty side loses its space. */
  function LeftOf(key: string): string { if key == "" then "" else key + " " }

  function RightOf(value: string): string { if value == "" then "" else " " + value }

  lemma EndsOfLine(key: string, value: string)
    requires CleanKey(key) && CleanValue(value)
    ensures Trimmed(LeftOf(key) + "=" + RightOf(value))
  {
    var line := LeftOf(key) + "=" + RightOf(value);
    assert line[0] == (if key == "" then '=' else key[0]);
    assert line[|line| - 1] == (if value == "" then '=' else value[|value| - 1]);
  }

  lemma PaddedEntry(key: string, value: string)
    ensures PrintEntry(key, value) ==
            (if key == "" then " " else "") + (LeftOf(key) + "=" + RightOf(value)) + (if value == "" then " " else "")
  {
  }

  lemma NoComment(key: string, value: string)
    requires '#' !in key && '#' !in value
    ensures StripComment(PrintEntry(key, value)) == PrintEntry(key, value)
  {
  }

  lemma PrintedEntryTrims(key: string, value: string)
    requires CleanKey(key) && CleanValue(value)
    ensures Significant(PrintEntry(key, value)) == LeftOf(key) + "=" + RightOf(value)
  {
    NoComment(key, value);
    EndsOfLine(key, value);
    PaddedEntry(key, value);
    TrimPadded(if key == "" then " " else "", LeftOf(key) + "=" + RightOf(value), if value == "" then " " else "");
  }

  lemma SidesTrim(key: string, value: string)
    requires Trimmed(key) && Trimmed(value)
    ensures Trim(LeftOf(key)) == key && Trim(RightOf(value)) == value
  {
    var post, pre := if key == "" then "" else " ", if value == "" then "" else " ";
    TrimPadded("", key, post);
    TrimPadded(pre, value, "");
    assert LeftOf(key) == "" + key + post && RightOf(value) == pre + value + "";
  }

  lemma PrintedEntryReadsBack(key: string, value: string)
    requires CleanKey(key) && CleanValue(value)
    ensures Significant(PrintEntry(key, value)) != ""
    ensures ParseLine(Significant(PrintEntry(key, value))) == Some((key, value))
  {
    var line := LeftOf(key) + "=" + RightOf(value);
    PrintedEntryTrims(key, value);
    assert line[..|LeftOf(key)|] == LeftOf(key) && line[|LeftOf(key)| + 1..] == RightOf(value);
    FindUnique(line, |LeftOf(key)|);
    SidesTrim(key, value);
  }

  lemma PrintedEntryIsALine(key: string, value: string)
    requires CleanKey(key) && CleanValue(value)
    ensures '\n' !in PrintEntry(key, value)
    ensures StripCarriageReturn(PrintEntry(key, value)) == PrintEntry(key, value)
  {
    var raw := PrintEntry(key, value);
    assert raw[|raw| - 1] == (if value == "" then ' ' else value[|value| - 1]);
  }

  function Entries(order: seq<string>, config: Config): seq<string>
    requires forall i :: 0 <= i < |order| ==> order[i] in config
  {
    seq(|order|, i requires 0 <= i < |order| => PrintEntry(order[i], config[order[i]]))
  }

  lemma {:induction false} PrintedLines(order: seq<string>, config: Config)
    requires forall i :: 0 <= i < |order| ==> order[i] in config
    requires Clean(config)
    ensures Lines(Print(order, config)) == Entries(order, config)
  {
    if order == [] {
    } else {
      PrintedLines(order[1..], config);
      PrintedEntryIsALine(order[0], config[order[0]]);
      FirstLine(PrintEntry(order[0], config[order[0]]), Print(order[1..], config));
    }
  }

  /** The entries of the given keys. */
  function Picked(order: seq<string>, config: Config): Config
    requires forall i :: 0 <= i < |order| ==> order[i] in config
  {
    if order == [] then map[]
    else Picked(order[..|order| - 1], config)[order[|order| - 1] := config[order[|order| - 1]]]
  }

  lemma {:induction false} PickedContents(order: seq<string>, config: Config)
    requires forall i :: 0 <= i < |order| ==> order[i] in config
    ensures forall k :: k in Picked(order, config) <==> k in order
    ensures forall k :: k in Picked(order, config) ==> k in config && Picked(order, config)[k] == config[k]
  {
    if order == [] {
    } else {
      PickedContents(order[..|order| - 1], config);
      assert order == order[..|order| - 1] + [order[|order| - 1]];
    }
  }

  lemma {:induction false} EntriesReadBack(order: seq<string>, config: Config)
    requires forall i :: 0 <= i < |order| ==> order[i] in config
    requires Clean(config)
    ensures Collect(ClassifyAll(Entries(order, config))) == Ok(Picked(order, config))
  {
    if order == [] {
    } else {
      var front, last := order[..|order| - 1], order[|order| - 1];
      EntriesReadBack(front, config);
      PrintedEntryReadsBack(last, config[last]);
      assert ClassifyAll(Entries(order, config))[..|front|] == ClassifyAll(Entries(front, config));
    }
  }

  /** Printing an accepted configuration in any order and parsing it again gives it back. */
  lemma PrintParses(content: string, order: seq<string>)
    requires ParseConfig(content).Ok? && Enumerates(order, ParseConfig(content).value.Keys)
    ensures ParseConfig(Print(order, ParseConfig(content).value)) == ParseConfig(content)
  {
    var config := ParseConfig(content).value;
    ParsedIsClean(content);
    PrintedLines(order, config);
    EntriesReadBack(order, config);
    PickedContents(order, config);
    assert Picked(order, config) == config;
  }

  /** The printer walks the map in an order it does not choose; reading its output back is lossless. */
  method RedisConfigToIni(content: string) returns (r: Result<string, BadLine>, ghost order: seq<string>)
    ensures ParseConfig(content).Err? ==> r == Err(ParseConfig(content).error)
    ensures ParseConfig(content).Ok? ==>
              var config := ParseConfig(content).value;
              && Enumerates(order, config.Keys) && r == Ok(Print(order, config))
              && ParseConfig(r.value) == ParseConfig(content)
  {
    order := [];
    var parsed := ParseRedisConfig(content);
    if parsed.Err? { return Err(parsed.error), order; }
    var config := parsed.value;
    var ini := "";
    var left := config.Keys;
    while left != {}
      invariant left <= config.Keys
      invariant Enumerates(order, config.Keys - left)
      invariant ini == Print(order, config)
      decreases |left|
    {
      var key :| key in left;
      PrintAppends(order, key, config);
      ini := ini + PrintEntry(key, config[key]) + "\n";
      order := order + [key];
      left := left - {key};
    }
    PrintParses(content, order);
    return Ok(ini), order;
  }

  lemma {:induction false} PrintAppends(order: seq<string>, key: string, config: Config)
    requires key in config && forall i :: 0 <= i < |order| ==> order[i] in config
    ensures Print(order + [key], config) == Print(order, config) + PrintEntry(key, config[key]) + "\n"
  {
    if order == [] {
    } else {
      assert (order + [key])[1..] == order[1..] + [key];
      PrintAppends(order[1..], key, config);
    }
  }
}
