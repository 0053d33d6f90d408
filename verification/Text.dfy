/** The string operations of the standard library that the configuration code relies on. */
module Text {
  import opened Options

  /** Unicode `White_Space`. */
  predicate Space(c: char) {
    || '\t' <= c <= '\r'
    || c in {' ', '\U{85}', '\U{A0}', '\U{1680}', '\U{2028}', '\U{2029}', '\U{202F}', '\U{205F}', '\U{3000}'}
    || '\U{2000}' <= c <= '\U{200A}'
  }

  predicate AllSpace(s: string) {
    forall i :: 0 <= i < |s| ==> Space(s[i])
  }

  predicate Trimmed(s: string) {
    s == "" || (!Space(s[0]) && !Space(s[|s| - 1]))
  }

  function TrimStart(s: string): string {
    if s != "" && Space(s[0]) then TrimStart(s[1..]) else s
  }

  function TrimEnd(s: string): string {
    if s != "" && Space(s[|s| - 1]) then TrimEnd(s[..|s| - 1]) else s
  }

  function Trim(s: string): string {
    TrimEnd(TrimStart(s))
  }

  /** ASCII upper case. */
  function UpperChar(c: char): char {
    if 'a' <= c <= 'z' then (c as int - 32) as char else c
  }

  function Upper(s: string): string {
    seq(|s|, i requires 0 <= i < |s| => UpperChar(s[i]))
  }

  /** The index of the first occurrence of a character. */
  function Find(s: string, c: char): (r: Option<nat>)
    ensures match r
            case None => c !in s
            case Some(i) => i < |s| && s[i] == c && c !in s[..i]
  {
    if s == "" then None
    else if s[0] == c then Some(0)
    else match Find(s[1..], c)
         case None => None
         case Some(i) => assert s[..i + 1] == [s[0]] + s[1..][..i]; Some(i + 1)
  }

  function StripCarriageReturn(s: string): string {
    if s != "" && s[|s| - 1] == '\r' then s[..|s| - 1] else s
  }

  /** `str::lines`: a line ends in `\n` or `\r\n`, and a final newline opens no further line. */
  function Lines(s: string): seq<string>
    decreases |s|
  {
    match Find(s, '\n')
    case None => if s == "" then [] else [s]
    case Some(i) => [StripCarriageReturn(s[..i])] + Lines(s[i + 1..])
  }

  // ---------------------------------------------------------------------------------------------
  // Facts
  // ---------------------------------------------------------------------------------------------

  lemma {:induction false} TrimStartSuffix(s: string)
    ensures exists k :: 0 <= k <= |s| && TrimStart(s) == s[k..]
    ensures TrimStart(s) == "" || !Space(TrimStart(s)[0])
  {
    if s != "" && Space(s[0]) {
      TrimStartSuffix(s[1..]);
      var k :| 0 <= k <= |s[1..]| && TrimStart(s[1..]) == s[1..][k..];
      assert s[1..][k..] == s[k + 1..];
    } else {
      assert s == s[0..];
    }
  }

  lemma {:induction false} TrimEndPrefix(s: string)
    ensures TrimEnd(s) <= s
    ensures TrimEnd(s) == "" || !Space(TrimEnd(s)[|TrimEnd(s)| - 1])
  {
    if s != "" && Space(s[|s| - 1]) { TrimEndPrefix(s[..|s| - 1]); }
  }

  /** Trimming leaves a string that neither starts nor ends with white space. */
  lemma TrimIsTrimmed(s: string)
    ensures Trimmed(Trim(s))
  {
    TrimStartSuffix(s);
    TrimEndPrefix(TrimStart(s));
  }

  lemma TrimLacks(s: string, c: char)
    requires c !in s
    ensures c !in Trim(s)
  {
    TrimStartSuffix(s);
    TrimEndPrefix(TrimStart(s));
  }

  lemma {:induction false} TrimStartPadded(pre: string, s: string)
    requires AllSpace(pre) && (s == "" || !Space(s[0]))
    ensures TrimStart(pre + s) == s
  {
    if pre == "" { assert pre + s == s; }
    else {
      assert (pre + s)[1..] == pre[1..] + s;
      TrimStartPadded(pre[1..], s);
    }
  }

  lemma {:induction false} TrimEndPadded(s: string, post: string)
    requires AllSpace(post) && (s == "" || !Space(s[|s| - 1]))
    ensures TrimEnd(s + post) == s
  {
    if post == "" { assert s + post == s; }
    else {
      assert (s + post)[..|s + post| - 1] == s + post[..|post| - 1];
      TrimEndPadded(s, post[..|post| - 1]);
    }
  }

  /** White space around a trimmed core is all that trimming removes. */
  lemma TrimPadded(pre: string, core: string, post: string)
    requires AllSpace(pre) && AllSpace(post) && Trimmed(core)
    ensures Trim(pre + core + post) == core
  {
    if core == "" {
      TrimStartPadded(pre + post, "");
      assert pre + core + post == pre + post + "";
    } else {
      TrimStartPadded(pre, core + post);
      TrimEndPadded(core, post);
      assert pre + core + post == pre + (core + post);
    }
  }

  lemma {:induction false} FindUnique(s: string, i: nat)
    requires i < |s| && s[i] !in s[..i]
    ensures Find(s, s[i]) == Some(i)
  {
    if i > 0 {
      assert s[..i][0] == s[0] && s[1..][..i - 1] == s[..i][1..];
      FindUnique(s[1..], i - 1);
    }
  }

  lemma {:induction false} NoNewlineInLines(s: string)
    ensures forall i :: 0 <= i < |Lines(s)| ==> '\n' !in Lines(s)[i]
    decreases |s|
  {
    var r := Find(s, '\n');
    if r.Some? { NoNewlineInLines(s[r.value + 1..]); }
  }

  /** The first line of a text, without its line end. */
  lemma FirstLine(line: string, rest: string)
    requires '\n' !in line
    ensures Lines(line + "\n" + rest) == [StripCarriageReturn(line)] + Lines(rest)
  {
    var s := line + "\n" + rest;
    assert s[..|line|] == line && s[|line| + 1..] == rest;
    FindUnique(s, |line|);
  }
}
