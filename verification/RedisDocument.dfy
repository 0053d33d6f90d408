/** Configuration texts as a person writes them, and that the parser reads them so. */
module RedisDocument {
  import opened Options
  import opened Text
  import opened RedisConfig

  /**
   A line: white space and perhaps a comment, or a setting. The key and the value of a setting are
   separated by white space with a blank in it, or by an equals sign with any white space around.
   */
  datatype DocLine =
    | Remark(space: string, comment: string)
    | Setting(left: string, key: string, pre: string, equals: bool, post: string, value: string,
              right: string, comment: string)

  function Core(line: DocLine): string
    requires line.Setting?
  {
    line.key + line.pre + (if line.equals then "=" + line.post else "") + line.value
  }

  function Body(line: DocLine): string {
    match line
    case Remark(space, comment) => space + comment
    case Setting(left, _, _, _, _, _, right, comment) => left + Core(line) + right + comment
  }

  predicate Blanks(s: string) {
    AllSpace(s) && '\n' !in s
  }

  predicate IsComment(s: string) {
    s == "" || (s[0] == '#' && '\n' !in s)
  }

  predicate Separated(line: DocLine)
    requires line.Setting?
  {
    if line.equals then (line.key == "" ==> line.pre == "") && (line.value == "" ==> line.post == "")
    else ' ' in line.pre && line.key != "" && line.value != "" && ' ' !in line.key && '=' !in line.value
  }

  predicate Proper(line: DocLine) {
    match line
    case Remark(space, comment) => Blanks(space) && IsComment(comment)
    case Setting(left, key, pre, _, post, value, right, comment) =>
      && Blanks(left) && Blanks(pre) && Blanks(post) && Blanks(right) && IsComment(comment)
      && CleanKey(key) && CleanValue(value) && Separated(line)
  }

  // ---------------------------------------------------------------------------------------------
  // One line
  // ---------------------------------------------------------------------------------------------

  lemma CommentIsCut(text: string, comment: string)
    requires '#' !in text && IsComment(comment)
    ensures StripComment(text + comment) == text
  {
    var raw := text + comment;
    if comment == "" { assert raw == text; }
    else {
      assert raw[|text|] == '#' && raw[..|text|] == text;
      FindUnique(raw, |text|);
    }
  }

  lemma BlanksArePlain(s: string)
    requires Blanks(s)
    ensures '#' !in s && '=' !in s
  {
  }

  lemma CoreIsPlain(line: DocLine)
    requires Proper(line) && line.Setting?
    ensures Trimmed(Core(line)) && '#' !in Core(line) && '\n' !in Core(line) && Core(line) != ""
  {
    BlanksArePlain(line.pre);
    BlanksArePlain(line.post);
    var core := Core(line);
    if line.key != "" { assert core[0] == line.key[0]; }
    if line.value != "" { assert core[|core| - 1] == line.value[|line.value| - 1]; }
  }

  lemma EqualsIsRead(key: string, pre: string, post: string, value: string)
    requires CleanKey(key) && CleanValue(value) && Blanks(pre) && Blanks(post)
    ensures ParseLine(key + pre + ("=" + post) + value) == Some((key, value))
  {
    var line, i := key + pre + ("=" + post) + value, |key + pre|;
    BlanksArePlain(pre);
    assert line[i] == '=' && line[..i] == key + pre && line[i + 1..] == post + value;
    FindUnique(line, i);
    assert key + pre == "" + key + pre && post + value == post + value + "";
    TrimPadded("", key, pre);
    TrimPadded(post, value, "");
  }

  lemma BlankIsRead(key: string, pre: string, value: string)
    requires CleanKey(key) && CleanValue(value) && Blanks(pre)
    requires ' ' in pre && key != "" && value != "" && ' ' !in key && '=' !in value
    ensures ParseLine(key + pre + value) == Some((key, value))
  {
    var line := key + pre + value;
    BlanksArePlain(pre);
    assert '=' !in line;
    var j := Find(pre, ' ').value;
    var i := |key| + j;
    assert line[i] == ' ' && line[..i] == key + pre[..j] && line[i..] == pre[j..] + value;
    FindUnique(line, i);
    assert key + pre[..j] == "" + key + pre[..j] && pre[j..] + value == pre[j..] + value + "";
    TrimPadded("", key, pre[..j]);
    TrimPadded(pre[j..], value, "");
  }

  function KindOf(line: DocLine): LineKind {
    match line
    case Remark(_, _) => Blank
    case Setting(_, key, _, _, _, value, _, _) => Entry(key, value)
  }

  lemma RemarkIsRead(space: string, comment: string)
    requires Blanks(space) && IsComment(comment)
    ensures Significant(space + comment) == ""
  {
    BlanksArePlain(space);
    CommentIsCut(space, comment);
    assert space == space + "" + "";
    TrimPadded(space, "", "");
  }

  lemma CoreIsKept(left: string, core: string, right: string, comment: string)
    requires Blanks(left) && Blanks(right) && IsComment(comment) && Trimmed(core) && '#' !in core
    ensures Significant(left + core + right + comment) == core
  {
    BlanksArePlain(left);
    BlanksArePlain(right);
    CommentIsCut(left + core + right, comment);
    TrimPadded(left, core, right);
  }

  lemma CoreIsRead(line: DocLine)
    requires Proper(line) && line.Setting?
    ensures ParseLine(Core(line)) == Some((line.key, line.value))
  {
    if line.equals {
      EqualsIsRead(line.key, line.pre, line.post, line.value);
    } else {
      BlankIsRead(line.key, line.pre, line.value);
      assert Core(line) == line.key + line.pre + line.value;
    }
  }

  /** A setting is read as its key and its value, in this order; anything else is passed over. */
  lemma LineIsRead(line: DocLine)
    requires Proper(line)
    ensures Classify(Body(line)) == KindOf(line) && '\n' !in Body(line)
  {
    match line
    case Remark(space, comment) => RemarkIsRead(space, comment);
    case Setting(left, _, _, _, _, _, right, comment) =>
      CoreIsPlain(line);
      CoreIsKept(left, Core(line), right, comment);
      CoreIsRead(line);
  }

  lemma {:induction false} TrimDropsLastSpace(s: string)
    requires s != "" && Space(s[|s| - 1])
    ensures Trim(s) == Trim(s[..|s| - 1])
  {
    if Space(s[0]) && |s| > 1 {
      TrimDropsLastSpace(s[1..]);
      assert s[1..][..|s| - 2] == s[..|s| - 1][1..];
    } else if |s| > 1 {
      assert TrimStart(s) == s && TrimStart(s[..|s| - 1]) == s[..|s| - 1];
    } else {
      assert s[1..] == "" && s[..0] == "";
    }
  }

  /** Whether the line ended in a carriage return makes no difference. */
  lemma ReturnMakesNoDifference(raw: string)
    ensures Significant(StripCarriageReturn(raw)) == Significant(raw)
  {
    if raw != "" && raw[|raw| - 1] == '\r' {
      var cut := raw[..|raw| - 1];
      var i := Find(raw, '#');
      if i.Some? {
        assert cut[i.value] == '#' && cut[..i.value] == raw[..i.value];
        FindUnique(cut, i.value);
      } else {
        assert Find(cut, '#').None?;
        TrimDropsLastSpace(raw);
      }
    }
  }

  // ---------------------------------------------------------------------------------------------
  // The whole text
  // ---------------------------------------------------------------------------------------------

  function Render(doc: seq<DocLine>): string {
    if doc == [] then "" else Body(doc[0]) + "\n" + Render(doc[1..])
  }

  /** The settings in order, later ones overwriting earlier ones. */
  function Meaning(doc: seq<DocLine>): Config {
    if doc == [] then map[]
    else
      var before, last := Meaning(doc[..|doc| - 1]), doc[|doc| - 1];
      if last.Setting? then before[last.key := last.value] else before
  }

  function Kinds(doc: seq<DocLine>): seq<LineKind> {
    seq(|doc|, i requires 0 <= i < |doc| => KindOf(doc[i]))
  }

  lemma ClassifyFirst(line: string, lines: seq<string>)
    ensures ClassifyAll([line] + lines) == [Classify(line)] + ClassifyAll(lines)
  {
  }

  lemma FirstIsRead(line: DocLine, rest: string)
    requires Proper(line)
    ensures ClassifyAll(Lines(Body(line) + "\n" + rest)) == [KindOf(line)] + ClassifyAll(Lines(rest))
  {
    LineIsRead(line);
    FirstLine(Body(line), rest);
    ReturnMakesNoDifference(Body(line));
    ClassifyFirst(StripCarriageReturn(Body(line)), Lines(rest));
  }

  lemma {:induction false} LinesAreRead(doc: seq<DocLine>)
    requires forall i :: 0 <= i < |doc| ==> Proper(doc[i])
    ensures ClassifyAll(Lines(Render(doc))) == Kinds(doc)
  {
    if doc == [] {
    } else {
      LinesAreRead(doc[1..]);
      FirstIsRead(doc[0], Render(doc[1..]));
      assert Kinds(doc) == [KindOf(doc[0])] + Kinds(doc[1..]);
    }
  }

  lemma {:induction false} KindsMean(doc: seq<DocLine>)
    ensures Collect(Kinds(doc)) == Ok(Meaning(doc))
  {
    if doc == [] {
    } else {
      KindsMean(doc[..|doc| - 1]);
      assert Kinds(doc)[..|doc| - 1] == Kinds(doc[..|doc| - 1]);
    }
  }

  /**
   Every text of proper lines is accepted and means its settings: each key the first word or what
   stands before the equals sign, each value the rest, comments and white space left out, and the
   last setting of a key deciding.
   */
  lemma DocumentIsRead(doc: seq<DocLine>)
    requires forall i :: 0 <= i < |doc| ==> Proper(doc[i])
    ensures ParseConfig(Render(doc)) == Ok(Meaning(doc))
  {
    LinesAreRead(doc);
    KindsMean(doc);
  }

  /** The first line that is neither blank nor has an `=` or a blank stops the parser, by its number. */
  lemma FirstBadLine(content: string, n: nat)
    requires n < |Lines(content)| && !Parseable(Significant(Lines(content)[n]))
    requires AllParseable(Lines(content)[..n])
    ensures ParseConfig(content) == Err(BadLine(n + 1, Significant(Lines(content)[n])))
  {
    var lines := Lines(content);
    LinesAccepted(lines[..n]);
    ParseLineAccepts(lines[n]);
    assert ClassifyAll(lines)[..n] == ClassifyAll(lines[..n]);
    FirstBadKind(ClassifyAll(lines), n);
  }

  lemma FirstBadKind(kinds: seq<LineKind>, n: nat)
    requires n < |kinds| && Collect(kinds[..n]).Ok? && kinds[n].Bad?
    ensures Collect(kinds) == Err(BadLine(n + 1, kinds[n].line))
  {
    assert kinds[..n + 1][..n] == kinds[..n];
    BadLineStops(kinds, n + 1);
  }

  // ---------------------------------------------------------------------------------------------
  // The printed text
  // ---------------------------------------------------------------------------------------------

  /** One line per key, with one blank on either side of the equals sign. */
  function Lined(order: seq<string>, config: Config): seq<DocLine>
    requires forall i :: 0 <= i < |order| ==> order[i] in config
  {
    if order == [] then []
    else [Setting("", order[0], " ", true, " ", config[order[0]], "", "")] + Lined(order[1..], config)
  }

  lemma PrintedLine(key: string, value: string)
    ensures Body(Setting("", key, " ", true, " ", value, "", "")) == key + " = " + value
  {
    assert " " + "=" + " " == " = ";
  }

  /** What the printer writes is the document that has exactly these lines. */
  lemma {:induction false} PrintedIsADocument(order: seq<string>, config: Config)
    requires forall i :: 0 <= i < |order| ==> order[i] in config
    ensures Print(order, config) == Render(Lined(order, config))
  {
    if order == [] {
    } else {
      PrintedIsADocument(order[1..], config);
      PrintedLine(order[0], config[order[0]]);
      assert Lined(order, config)[1..] == Lined(order[1..], config);
    }
  }
}
