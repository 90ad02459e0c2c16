/** The text of a policy file as lines: line ends, blank lines and comments carry no meaning. */
module PolicyLayout {
  import opened Basics
  import opened JsStrings
  import opened PolicyLoader

  /** Lines joined by line feeds, or by carriage return and line feed where `crlf` says so. */
  function Joined(lines: seq<string>, crlf: seq<bool>): string
    requires |lines| == |crlf| + 1
    decreases |lines|
  {
    if crlf == [] then lines[0]
    else lines[0] + (if crlf[0] then "\r\n" else "\n") + Joined(lines[1..], crlf[1..])
  }

  function LineFeeds(n: nat): (r: seq<bool>)
    ensures |r| == n && forall b :: b in r ==> !b
  {
    seq(n, _ => false)
  }

  lemma IndexOfAfter(a: string, c: char, b: string)
    requires c !in a
    ensures IndexOf(a + [c] + b, c) == |a| && IndexOf(a, c) == |a|
  {
    var s := a + [c] + b;
    assert s[|a|] == c;
    assert forall j :: 0 <= j < |a| ==> s[j] in a;
  }

  lemma SplitFirst(line: string, rest: string)
    requires '\n' !in line
    ensures SplitLines(line + "\n" + rest) == [line] + SplitLines(rest) && SplitLines(line) == [line]
  {
    IndexOfAfter(line, '\n', rest);
    var t := line + "\n" + rest;
    assert t == line + ['\n'] + rest && t[..|line|] == line && t[|line| + 1..] == rest;
  }

  predicate EndsInReturn(line: string) { line != [] && line[|line| - 1] == '\r' }

  lemma NormalizeStep(c: char, rest: string)
    requires c != '\n' && !(c == '\r' && rest != [] && rest[0] == '\n')
    ensures NormalizeNewlines([c] + rest) == [c] + NormalizeNewlines(rest)
  {
    var t := [c] + rest;
    assert t[1..] == rest;
    assert rest != [] ==> t[..2] == [c, rest[0]];
  }

  lemma NormalizeEnds(rest: string)
    ensures NormalizeNewlines("\r\n" + rest) == "\n" + NormalizeNewlines(rest)
    ensures NormalizeNewlines("\n" + rest) == "\n" + NormalizeNewlines(rest)
  {
    assert ("\r\n" + rest)[..2] == "\r\n" && ("\r\n" + rest)[2..] == rest;
    assert ("\n" + rest)[0] == '\n' && ("\n" + rest)[1..] == rest;
    assert |"\n" + rest| >= 2 ==> ("\n" + rest)[..2][0] == '\n';
  }

  lemma {:induction false} NormalizePlain(line: string)
    requires '\n' !in line
    ensures NormalizeNewlines(line) == line
  {
    hide StartsWith;
    if line != [] {
      var c, tail := line[0], line[1..];
      assert line == [c] + tail;
      NormalizePlain(tail);
      NormalizeStep(c, tail);
    }
  }

  lemma {:induction false} NormalizeReturn(line: string, rest: string)
    requires '\n' !in line
    ensures NormalizeNewlines(line + "\r\n" + rest) == line + "\n" + NormalizeNewlines(rest)
  {
    if line == [] {
      hide StartsWith;
      NormalizeEnds(rest);
      assert line + "\r\n" + rest == "\r\n" + rest;
    } else {
      hide NormalizeNewlines;
      var c, tail := line[0], line[1..];
      assert line == [c] + tail;
      NormalizeReturn(tail, rest);
      var more := tail + "\r\n" + rest;
      assert line + "\r\n" + rest == [c] + more;
      assert more[0] == if tail == [] then '\r' else tail[0];
      NormalizeStep(c, more);
    }
  }

  lemma {:induction false} NormalizeFeed(line: string, rest: string)
    requires '\n' !in line && !EndsInReturn(line)
    ensures NormalizeNewlines(line + "\n" + rest) == line + "\n" + NormalizeNewlines(rest)
  {
    if line == [] {
      hide StartsWith;
      NormalizeEnds(rest);
      assert line + "\n" + rest == "\n" + rest;
    } else {
      hide NormalizeNewlines;
      var c, tail := line[0], line[1..];
      assert line == [c] + tail;
      assert tail != [] ==> tail[|tail| - 1] == line[|line| - 1] && tail[0] == line[1];
      NormalizeFeed(tail, rest);
      var more := tail + "\n" + rest;
      assert line + "\n" + rest == [c] + more;
      assert more[0] == if tail == [] then '\n' else tail[0];
      NormalizeStep(c, more);
    }
  }

  /** Lines that a text shows: none holds a line feed, and none ends in a return that a line feed would swallow. */
  ghost predicate Separable(lines: seq<string>, crlf: seq<bool>) {
    && |lines| == |crlf| + 1
    && (forall l :: l in lines ==> '\n' !in l)
    && forall k :: 0 <= k < |crlf| && !crlf[k] ==> !EndsInReturn(lines[k])
  }

  lemma SeparableTail(lines: seq<string>, crlf: seq<bool>)
    requires Separable(lines, crlf) && crlf != []
    ensures Separable(lines[1..], crlf[1..]) && '\n' !in lines[0] && (!crlf[0] ==> !EndsInReturn(lines[0]))
  {
    hide EndsInReturn;
    assert lines[0] in lines;
    forall k | 0 <= k < |crlf[1..]| && !crlf[1..][k]
      ensures !EndsInReturn(lines[1..][k])
    {
      assert !crlf[k + 1] && lines[1..][k] == lines[k + 1];
    }
  }

  /** Whatever the line ends, the parser sees the lines. */
  lemma {:induction false} SplitJoined(lines: seq<string>, crlf: seq<bool>)
    requires Separable(lines, crlf)
    ensures SplitLines(NormalizeNewlines(Joined(lines, crlf))) == lines
    decreases |lines|
  {
    hide NormalizeNewlines, SplitLines, EndsInReturn;
    var line := lines[0];
    if crlf == [] {
      assert line in lines;
      NormalizePlain(line);
      SplitFirst(line, "");
      assert lines == [line];
    } else {
      SeparableTail(lines, crlf);
      hide Separable;
      var rest := Joined(lines[1..], crlf[1..]);
      SplitJoined(lines[1..], crlf[1..]);
      if crlf[0] { NormalizeReturn(line, rest); } else { NormalizeFeed(line, rest); }
      SplitFirst(line, NormalizeNewlines(rest));
      assert lines == [line] + lines[1..];
    }
  }

  lemma {:induction false} SplitHasNoLineFeed(text: string)
    ensures forall l :: l in SplitLines(text) ==> '\n' !in l
    decreases |text|
  {
    var end := IndexOf(text, '\n');
    if end < |text| { SplitHasNoLineFeed(text[end + 1..]); }
  }

  // ------------------------------------------------------------------ layout

  /** What a line says: its text without comment and without the space at its end. */
  function Kept(line: string): string {
    TrimEnd(WithoutComment(line))
  }

  /** The lines that say something. */
  function Essential(lines: seq<string>): seq<string> {
    if lines == [] then []
    else (if Kept(lines[0]) == "" then [] else [Kept(lines[0])]) + Essential(lines[1..])
  }

  lemma {:induction false} TrimEndShift(pre: string, s: string)
    ensures TrimEnd(s) != [] ==> TrimEnd(pre + s) == pre + TrimEnd(s)
    ensures TrimEnd(s) == [] ==> TrimEnd(pre + s) == TrimEnd(pre)
  {
    if s == [] {
      assert pre + s == pre;
    } else if IsSpace(s[|s| - 1]) {
      assert (pre + s)[..|pre + s| - 1] == pre + s[..|s| - 1];
      TrimEndShift(pre, s[..|s| - 1]);
    }
  }

  lemma TrimStartStep(c: char, rest: string)
    requires IsSpace(c)
    ensures TrimStart([c] + rest) == TrimStart(rest)
  {
    hide IsSpace;
    assert ([c] + rest)[1..] == rest;
  }

  lemma TrimEndOne(c: char)
    requires IsSpace(c)
    ensures TrimEnd([c]) == []
  {
    hide IsSpace;
    assert [c][..0] == [];
  }

  lemma {:induction false} TrimOrder(s: string)
    ensures TrimStart(TrimEnd(s)) == TrimEnd(TrimStart(s))
  {
    hide IsSpace, TrimEnd, TrimStart;
    if s == [] {
      TrimEmpty();
    } else if IsSpace(s[0]) {
      var c, rest := s[0], s[1..];
      assert s == [c] + rest;
      TrimEndShift([c], rest);
      TrimOrder(rest);
      TrimStartStep(c, rest);
      TrimStartStep(c, TrimEnd(rest));
      TrimEndOne(c);
      TrimEmpty();
    } else {
      FirstStays(s);
      StartStays(s);
      StartStays(TrimEnd(s));
    }
  }

  lemma TrimEmpty()
    ensures TrimEnd("") == "" && TrimStart("") == ""
  {
  }

  lemma StartStays(s: string)
    requires s != [] && !IsSpace(s[0])
    ensures TrimStart(s) == s
  {
    hide IsSpace;
  }

  lemma {:induction false} FirstStays(s: string)
    requires s != [] && !IsSpace(s[0])
    ensures TrimEnd(s) != [] && TrimEnd(s)[0] == s[0]
  {
    if IsSpace(s[|s| - 1]) { FirstStays(s[..|s| - 1]); }
  }

  lemma TrimEndTwice(s: string)
    ensures TrimEnd(TrimEnd(s)) == TrimEnd(s) && Trim(TrimEnd(s)) == Trim(s)
  {
    TrimOrder(s);
    TrimEndSpec(s);
    TrimEndSpec(TrimStart(s));
  }

  lemma {:induction false} IndentKept(s: string)
    requires TrimEnd(s) != []
    ensures Indent(TrimEnd(s)) == Indent(s)
  {
    if s[0] == ' ' {
      var rest := s[1..];
      assert s == " " + rest;
      TrimEndShift(" ", rest);
      assert TrimEnd(" ") == [];
      IndentKept(rest);
      assert (" " + TrimEnd(rest))[1..] == TrimEnd(rest);
    } else {
      TrimEndSpec(s);
      assert TrimEnd(s)[0] == s[0];
    }
  }

  lemma {:induction false} CommentOfPrefix(line: string, n: nat, i: nat, quoted: Option<char>)
    requires i <= n <= |line| && n <= CommentStart(line, i, quoted)
    ensures CommentStart(line[..n], i, quoted) == n
    decreases n - i
  {
    if i < n {
      assert QuoteAfter(line[..n], i, quoted) == QuoteAfter(line, i, quoted);
      CommentOfPrefix(line, n, i + 1, QuoteAfter(line, i, quoted));
    }
  }

  lemma KeptTwice(line: string)
    ensures WithoutComment(Kept(line)) == Kept(line)
  {
    hide CommentStart, TrimEnd;
    var n := |Kept(line)|;
    TrimEndSpec(line[..CommentStart(line, 0, None)]);
    assert Kept(line) == line[..n];
    CommentOfPrefix(line, n, 0, None);
  }

  lemma TrimBlank(raw: string)
    requires TrimEnd(raw) == ""
    ensures Trim(raw) == ""
  {
    TrimEndTwice(raw);
    assert TrimStart("") == "" && TrimEnd("") == "";
  }

  lemma ContentKept(st: ParserState, raw: string)
    requires BlockOpen(st)
    ensures ParseContent(st, TrimEnd(raw)) == ParseContent(st, raw)
    ensures TrimEnd(raw) == "" ==> ParseContent(st, raw) == Ok(st)
  {
    hide TrimEnd, Trim, Indent, ParseTop, ParseNested;
    TrimEndTwice(raw);
    if TrimEnd(raw) == "" { TrimBlank(raw); } else { IndentKept(raw); }
  }

  lemma LineKept(st: ParserState, line: string)
    requires BlockOpen(st)
    ensures ParseLine(st, line) == ParseLine(st, Kept(line))
    ensures Kept(line) == "" ==> ParseLine(st, line) == Ok(st)
  {
    hide ParseContent, WithoutComment, TrimEnd;
    KeptTwice(line);
    ContentKept(st, WithoutComment(line));
  }

  /** The parser's result depends only on the lines that say something. */
  lemma {:induction false} ParseEssential(st: ParserState, lines: seq<string>)
    requires BlockOpen(st)
    ensures ParseLines(st, lines) == ParseLines(st, Essential(lines))
    decreases |lines|
  {
    hide ParseLine, Kept;
    if lines != [] {
      var line, rest := lines[0], lines[1..];
      LineKept(st, line);
      var r := ParseLine(st, line);
      if r.Ok? { ParseEssential(r.value, rest); }
      var e := Essential(lines);
      if Kept(line) == "" {
        assert e == Essential(rest);
      } else {
        assert e[0] == Kept(line) && e[1..] == Essential(rest);
      }
    }
  }

  /**
   Files that say the same parse the same, or fail the same way, whatever their line ends, blank lines and comments.
   */
  lemma LayoutDoesNotMatter(a: seq<string>, crlfA: seq<bool>, b: seq<string>, crlfB: seq<bool>)
    requires Separable(a, crlfA) && Separable(b, crlfB) && Essential(a) == Essential(b)
    ensures ParseYaml(Joined(a, crlfA)) == ParseYaml(Joined(b, crlfB))
  {
    hide ParseLines, SplitLines, NormalizeNewlines, Joined, Separable, Essential;
    SplitJoined(a, crlfA);
    SplitJoined(b, crlfB);
    ParseEssential(START, a);
    ParseEssential(START, b);
  }

  /** The quote left open after the characters from `i` on. */
  function QuoteAtEnd(line: string, i: nat, quoted: Option<char>): Option<char>
    requires i <= |line|
    decreases |line| - i
  {
    if i == |line| then quoted else QuoteAtEnd(line, i + 1, QuoteAfter(line, i, quoted))
  }

  lemma {:induction false} CommentAfter(line: string, more: string, i: nat, quoted: Option<char>)
    requires i <= |line|
    ensures var s := line + more;
      CommentStart(s, i, quoted) ==
      if CommentStart(line, i, quoted) < |line| then CommentStart(line, i, quoted)
      else CommentStart(s, |line|, QuoteAtEnd(line, i, quoted))
    decreases |line| - i
  {
    if i < |line| {
      assert QuoteAfter(line + more, i, quoted) == QuoteAfter(line, i, quoted);
      CommentAfter(line, more, i + 1, QuoteAfter(line, i, quoted));
    }
  }

  lemma {:induction false} CommentFollowsGap(line: string, gap: string, comment: string, i: nat)
    requires |line| <= i <= |line + gap| && forall c :: c in gap ==> IsSpace(c)
    ensures var s := line + gap + "#" + comment; CommentStart(s, i, None) == |line + gap|
    decreases |line + gap| - i
  {
    var s := line + gap + "#" + comment;
    if i < |line + gap| {
      assert s[i] == gap[i - |line|] && gap[i - |line|] in gap;
      assert s[i] != '#' && QuoteAfter(s, i, None) == None;
      CommentFollowsGap(line, gap, comment, i + 1);
    } else {
      assert s[i] == '#';
    }
  }

  lemma {:induction false} TrimEndGap(s: string, gap: string)
    requires forall c :: c in gap ==> IsSpace(c)
    ensures TrimEnd(s + gap) == TrimEnd(s)
    decreases |gap|
  {
    if gap == [] {
      assert s + gap == s;
    } else {
      var init := gap[..|gap| - 1];
      assert gap[|gap| - 1] in gap && (s + gap)[..|s + gap| - 1] == s + init;
      TrimEndGap(s, init);
    }
  }

  /** A comment added to a line that leaves no quote open says nothing. */
  lemma AddedCommentSaysNothing(line: string, gap: string, comment: string)
    requires QuoteAtEnd(line, 0, None) == None && forall c :: c in gap ==> IsSpace(c)
    ensures Kept(line + gap + "#" + comment) == Kept(line)
  {
    hide TrimEnd, IsSpace, QuoteAfter;
    var s, more := line + gap + "#" + comment, gap + "#" + comment;
    assert s == line + more;
    CommentAfter(line, more, 0, None);
    CommentFollowsGap(line, gap, comment, |line|);
    var at := CommentStart(line, 0, None);
    if at < |line| {
      assert s[..at] == line[..at];
    } else {
      assert s[..|line + gap|] == line + gap && line[..at] == line;
      TrimEndGap(line, gap);
    }
  }

  lemma {:induction false} EssentialConcat(a: seq<string>, b: seq<string>)
    ensures Essential(a + b) == Essential(a) + Essential(b)
    decreases |a|
  {
    hide Kept;
    if a == [] {
      assert a + b == b;
    } else {
      assert (a + b)[1..] == a[1..] + b;
      EssentialConcat(a[1..], b);
    }
  }

  /** A line that says nothing can be put anywhere, and a line can be replaced by one that says the same. */
  lemma BlankAndCommentedLines(a: seq<string>, line: string, other: string, b: seq<string>)
    ensures Kept(line) == "" ==> Essential(a + [line] + b) == Essential(a + b)
    ensures Kept(line) == Kept(other) ==> Essential(a + [line] + b) == Essential(a + [other] + b)
  {
    hide Kept;
    EssentialConcat(a + [line], b);
    EssentialConcat(a + [other], b);
    EssentialConcat(a, [line]);
    EssentialConcat(a, [other]);
    EssentialConcat(a, b);
    assert [line][1..] == [] && [other][1..] == [];
  }
}
