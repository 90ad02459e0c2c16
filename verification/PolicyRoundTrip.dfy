/** Loading a printed policy: exactly which policies come back. */
module PolicyRoundTrip {
  import opened Basics
  import opened JsStrings
  import opened TradingTypes
  import opened PolicyLoader
  import opened PolicyLayout
  import opened PolicyPrinter

  /** An id that the file format can carry: one line, no comment, and nothing that reads as another scalar. */
  ghost predicate PlainId(id: string) {
    && (forall c :: c in id ==> !IsLineTerminator(c))
    && WithoutComment(id) == id
    && PlainScalar(id)
  }

  // ------------------------------------------------------------------ the line of the id

  lemma {:induction false} CommentShift(pre: string, s: string, i: nat, quoted: Option<char>)
    requires pre != [] && pre[|pre| - 1] != '\\' && i <= |s|
    ensures CommentStart(pre + s, |pre| + i, quoted) == |pre| + CommentStart(s, i, quoted)
    decreases |s| - i
  {
    if i < |s| {
      assert QuoteAfter(pre + s, |pre| + i, quoted) == QuoteAfter(s, i, quoted);
      CommentShift(pre, s, i + 1, QuoteAfter(s, i, quoted));
    }
  }

  lemma {:induction false} PassQuiet(pre: string, s: string, i: nat)
    requires i <= |pre| && forall c :: c in pre ==> c != '#' && c != '"' && c != '\''
    ensures CommentStart(pre + s, i, None) == CommentStart(pre + s, |pre|, None)
    decreases |pre| - i
  {
    if i < |pre| {
      assert (pre + s)[i] in pre;
      PassQuiet(pre, s, i + 1);
    }
  }

  /** The comment of the line is the comment of the id. */
  lemma IdComment(id: string)
    ensures WithoutComment(Entry("id", id)) == Entry("id", WithoutComment(id))
  {
    var pre := "id: ";
    assert Entry("id", id) == pre + id;
    PassQuiet(pre, id, 0);
    CommentShift(pre, id, 0, None);
    assert (pre + id)[..|pre| + CommentStart(id, 0, None)] == pre + id[..CommentStart(id, 0, None)];
  }

  lemma TrimEntry(w: string)
    requires w != "" ==> !IsSpace(w[0])
    ensures Trim(Entry("id", w)) == if w == "" then "id:" else Entry("id", Trim(w))
    ensures Indent(Entry("id", w)) == 0
  {
    var line := Entry("id", w);
    assert line[0] == 'i' && line == "id: " + w;
    assert TrimStart(line) == line;
    TrimEndShift("id: ", w);
    if w == "" {
      assert ("id: ")[..3] == "id:" && TrimEnd("id:") == "id:" && TrimEnd("id: ") == "id:";
    } else {
      assert TrimStart(w) == w;
      FirstStays(w);
    }
  }

  /** What the parser makes of the line of the id. */
  function IdValue(id: string): Parsed<ParserState> {
    var w := WithoutComment(id);
    if w == "" then Ok(ParserState(map["id" := VList([])], Some("id")))
    else if exists c :: c in Trim(w) && IsLineTerminator(c) then Err(ExpectedKeyValue)
    else Ok(ParserState(map["id" := ParseScalar(Trim(w))], None))
  }

  lemma EntryIsNoItem(w: string)
    ensures !StartsWith(Entry("id", w), "- ") && !StartsWith("id:", "- ") && Entry("id", w) != ""
  {
    assert Entry("id", w)[..2][0] == 'i' && "id:"[..2][0] == 'i';
  }

  lemma MatchMultiline(t: string)
    requires exists c :: c in t && IsLineTerminator(c)
    ensures MatchKeyValue(Entry("id", t)) == None
  {
    hide CanonicalKey, Trim, IsLineTerminator;
    var line := Entry("id", t);
    assert line == "id" + [':'] + (" " + t);
    IndexOfAfter("id", ':', " " + t);
    assert line[3..] == " " + t;
    var c :| c in t && IsLineTerminator(c);
    assert c in line[3..];
  }

  lemma IdAtTop(id: string)
    requires id != "" && !IsSpace(id[0])
    ensures var w := WithoutComment(id);
      ParseLine(START, Entry("id", id)) == ParseTop(START, if w == "" then "id:" else Entry("id", Trim(w)))
  {
    var w := WithoutComment(id);
    assert w != "" ==> w[0] == id[0];
    hide WithoutComment, Trim, Indent, IsSpace, Entry, ParseTop;
    IdComment(id);
    TrimEntry(w);
    EntryIsNoItem(Trim(w));
  }

  lemma BareId()
    ensures ParseTop(START, "id:") == Ok(ParserState(map["id" := VList([])], Some("id")))
  {
    hide MatchKeyValue, StartsWith;
    EntryIsNoItem("");
    MatchBlock("id");
    assert "id" + ":" == "id:";
  }

  lemma ShownId(t: string)
    requires t != "" && !IsSpace(t[0]) && !IsSpace(t[|t| - 1])
    ensures ParseTop(START, Entry("id", t)) ==
            if exists c :: c in t && IsLineTerminator(c) then Err(ExpectedKeyValue)
            else Ok(ParserState(map["id" := ParseScalar(t)], None))
  {
    hide MatchKeyValue, StartsWith, ParseScalar, IsSpace, IsLineTerminator, Entry;
    EntryIsNoItem(t);
    if exists c :: c in t && IsLineTerminator(c) {
      MatchMultiline(t);
    } else {
      MatchPlain("id", t);
      EntryText(t);
    }
  }

  lemma IdLine(id: string)
    requires id != "" && !IsSpace(id[0])
    ensures ParseLine(START, Entry("id", id)) == IdValue(id)
  {
    var w := WithoutComment(id);
    assert w != "" ==> w[0] == id[0];
    hide WithoutComment, Trim, ParseScalar, IsLineTerminator, IsSpace, Entry, ParseTop, ParseLine;
    IdAtTop(id);
    if w == "" {
      BareId();
    } else {
      TrimKeepsFirst(w);
      TrimSpec(w);
      ShownId(Trim(w));
    }
  }

  lemma EntryText(t: string)
    ensures Entry("id", t) == "id" + ": " + t
  {
  }

  lemma TrimKeepsFirst(w: string)
    requires w != "" && !IsSpace(w[0])
    ensures Trim(w) != ""
  {
    FirstStays(w);
    assert TrimStart(w) == w;
  }

  /** The id comes back exactly when it is plain. */
  lemma IdComesBackIff(id: string)
    requires id != "" && Trim(id) == id
    ensures var r := IdValue(id); (r.Ok? && r.value.root["id"].VStr? && Trim(r.value.root["id"].s) == id) <==>
      PlainId(id)
  {
    hide ParseScalar, PlainScalar, IsLineTerminator, CommentStart;
    var w, t := WithoutComment(id), Trim(WithoutComment(id));
    TrimIdempotent(w);
    TrimSpec(w);
    hide Trim;
    var r := IdValue(id);
    if r.Ok? && r.value.root["id"].VStr? { TrimSpec(r.value.root["id"].s); }
    ScalarKeptIff(t);
    if t == id {
      assert w == id;
    } else {
      assert w != id;
      assert |t| < |id|;
    }
  }

  // ------------------------------------------------------------------ the printed lines

  ghost predicate Clean(line: string) {
    '\n' !in line && !EndsInReturn(line)
  }

  lemma CleanEntry(key: string, text: string)
    requires PlainKey(key) && PlainText(text)
    ensures Clean(Entry(key, text)) && Clean(Indented(key, text))
  {
    hide IsSpace;
    var line := Entry(key, text);
    assert line[|line| - 1] == text[|text| - 1];
    SpaceReturn();
    assert '\n' !in text && '\n' !in key;
  }

  lemma SpaceReturn()
    ensures IsSpace('\r') && IsSpace('\n')
  {
  }

  lemma CleanLines(a: seq<string>, b: seq<string>)
    requires (forall l :: l in a ==> Clean(l)) && (forall l :: l in b ==> Clean(l))
    ensures forall l :: l in a + b ==> Clean(l)
  {
  }

  lemma CleanNumber(key: string, v: real)
    requires PlainKey(key) && PlainNumber(v)
    ensures Clean(Entry(key, NumberText(v))) && Clean(Indented(key, NumberText(v)))
  {
    hide PlainNumber, PlainKey, PlainText, Clean, NumberText, ParseScalar;
    NumberScalar(v);
    CleanEntry(key, NumberText(v));
  }

  lemma CleanBool(key: string, b: bool)
    requires PlainKey(key)
    ensures Clean(Entry(key, BoolText(b))) && Clean(Indented(key, BoolText(b)))
  {
    hide PlainKey, PlainText, Clean, ParseScalar;
    BoolScalar(b);
    CleanEntry(key, BoolText(b));
  }

  lemma {:induction false} CleanBullets(symbols: seq<string>)
    requires forall s :: s in symbols ==> Supported(s)
    ensures forall l :: l in Bullets(symbols) ==> Clean(l)
    decreases |symbols|
  {
    if symbols != [] {
      assert symbols[0] in symbols;
      CleanBullets(symbols[1..]);
    }
  }

  lemma CleanMode(p: Policy)
    ensures forall l :: l in ModeLines(p) ==> Clean(l)
  {
    hide Clean, Entry, ParseScalar, PlainText;
    CleanBool("enabled", p.enabled);
    WordsAreScalars();
    CleanEntry("mode", ModeText(p.mode));
    CleanConstants();
  }

  lemma CleanConstants()
    ensures Clean("") && Clean("allowedSymbols:") && Clean("execution:") && Clean("live:")
  {
  }

  lemma CleanSymbols(p: Policy)
    requires p.allowedSymbols != [] && forall s :: s in p.allowedSymbols ==> Supported(s)
    ensures forall l :: l in SymbolLines(p) ==> Clean(l)
  {
    hide Clean, Supported;
    CleanConstants();
    CleanBullets(p.allowedSymbols);
  }

  lemma CleanLimits(p: Policy)
    requires PrintsPlainly(p)
    ensures forall l :: l in LimitLines(p) ==> Clean(l)
  {
    hide Clean, Entry, PlainNumber, NumberText;
    CleanConstants();
    CleanNumber("maxOpenOrders", p.maxOpenOrders as real);
    CleanNumber("maxOpenPositions", p.maxOpenPositions as real);
    FractionKeys();
    hide PlainKey;
    CleanNumber("maxDailyLossFraction", p.maxDailyLossFraction);
    CleanNumber("maxWeeklyLossFraction", p.maxWeeklyLossFraction);
    CleanNumber("maxRiskPerTradeFraction", p.maxRiskPerTradeFraction);
    AgeKeys();
    CleanNumber("maxMarketDataAgeMs", p.maxMarketDataAgeMs as real);
    CleanNumber("maxOrderAgeSeconds", p.maxOrderAgeSeconds as real);
  }

  lemma AgeKeys()
    ensures PlainKey("maxMarketDataAgeMs") && PlainKey("maxOrderAgeSeconds")
  {
  }

  lemma CleanExecution(p: Policy)
    ensures forall l :: l in ExecutionLines(p) ==> Clean(l)
  {
    hide Clean, Indented, PlainKey;
    CleanConstants();
    ExecutionKeys();
    CleanBool("allowMarketOrders", p.execution.allowMarketOrders);
    CleanBool("allowLeverage", p.execution.allowLeverage);
    CleanBool("allowMargin", p.execution.allowMargin);
    CleanBool("allowWithdrawals", p.execution.allowWithdrawals);
    CleanBool("postOnlyByDefault", p.execution.postOnlyByDefault);
  }

  lemma CleanLive(p: Policy)
    requires PrintsPlainly(p)
    ensures forall l :: l in LiveLines(p) ==> Clean(l)
  {
    hide Clean, Indented, PlainNumber, NumberText;
    CleanConstants();
    CleanBool("requiresHumanApproval", p.live.requiresHumanApproval);
    CleanNumber("maxAutonomousNotionalUsd", p.live.maxAutonomousNotionalUsd);
  }

  lemma CleanRest(p: Policy)
    requires PrintsPlainly(p) && WithinBounds(p)
    ensures forall l :: l in RestLines(p) ==> Clean(l)
  {
    hide Clean, PrintsPlainly, ModeLines, SymbolLines, LimitLines, ExecutionLines, LiveLines, Supported;
    CleanMode(p);
    CleanSymbols(p);
    CleanLimits(p);
    CleanExecution(p);
    CleanLive(p);
    CleanLines(ExecutionLines(p), LiveLines(p));
    CleanLines(LimitLines(p), ExecutionLines(p) + LiveLines(p));
    CleanLines(SymbolLines(p), LimitLines(p) + (ExecutionLines(p) + LiveLines(p)));
    CleanLines(ModeLines(p), SymbolLines(p) + (LimitLines(p) + (ExecutionLines(p) + LiveLines(p))));
  }

  lemma CleanId(id: string)
    requires id != "" && Trim(id) == id && '\n' !in id
    ensures Clean(Entry("id", id))
  {
    hide IsSpace, Trim;
    TrimSpec(id);
    var first := Entry("id", id);
    assert first[|first| - 1] == id[|id| - 1];
    SpaceReturn();
  }

  lemma CleanIsSeparable(lines: seq<string>)
    requires lines != [] && forall l :: l in lines ==> Clean(l)
    ensures Separable(lines, LineFeeds(|lines| - 1))
  {
    hide EndsInReturn, LineFeeds;
    assert forall k :: 0 <= k < |lines| ==> lines[k] in lines;
  }

  lemma PrintedIsSeparable(p: Policy)
    requires PrintsPlainly(p) && WithinBounds(p) && '\n' !in p.id
    ensures Separable(PolicyLines(p), LineFeeds(|PolicyLines(p)| - 1))
  {
    CleanId(p.id);
    hide PrintsPlainly, RestLines, WithinBounds, Entry, Clean, Separable, LineFeeds;
    CleanRest(p);
    CleanLines([Entry("id", p.id)], RestLines(p));
    CleanIsSeparable(PolicyLines(p));
  }

  // ------------------------------------------------------------------ loading the printed text

  lemma IdValueShape(id: string)
    ensures var r := IdValue(id);
      r.Ok? ==> BlockOpen(r.value) && "id" in r.value.root && r.value.root == map["id" := r.value.root["id"]]
  {
    hide ParseScalar, Trim, CommentStart;
  }

  lemma FirstLineParses(st: ParserState, line: string, rest: seq<string>)
    requires BlockOpen(st)
    ensures var r := ParseLine(st, line); ParseLines(st, [line] + rest) == if r.Ok? then ParseLines(r.value, rest)
      else r
  {
    hide ParseLine;
    assert ([line] + rest)[1..] == rest;
  }

  lemma PrintedLinesParse(p: Policy)
    requires PrintsPlainly(p) && WithinBounds(p)
    ensures ParseLines(START, PolicyLines(p)) ==
            match IdValue(p.id) case Ok(st) => Ok(ParserState(Encoded(st.root, p), Some("live"))) case Err(e) => Err(e)
  {
    StartsVisible(p);
    hide *;
    var r := IdValue(p.id);
    IdValueShape(p.id);
    IdLine(p.id);
    StartIsOpen();
    FirstLineParses(START, Entry("id", p.id), RestLines(p));
    PrintedHasFirst(p);
    if r.Ok? {
      ReadsRest(r.value, p);
      ReadsMeaning(r.value, RestLines(p), ParserState(Encoded(r.value.root, p), Some("live")));
    }
  }

  lemma StartsVisible(p: Policy)
    requires WithinBounds(p)
    ensures p.id != "" && !IsSpace(p.id[0])
  {
    hide Supported, Trim, IsSpace;
    TrimSpec(p.id);
  }

  lemma PrintedHasFirst(p: Policy)
    requires PrintsPlainly(p)
    ensures PolicyLines(p) == [Entry("id", p.id)] + RestLines(p)
  {
  }

  lemma ReadsMeaning(st: ParserState, lines: seq<string>, end: ParserState)
    requires Reads(st, lines, end)
    ensures BlockOpen(st) && ParseLines(st, lines) == Ok(end)
  {
  }

  lemma StartIsOpen()
    ensures BlockOpen(START)
  {
  }

  lemma PrintedParses(p: Policy)
    requires PrintsPlainly(p) && WithinBounds(p) && '\n' !in p.id
    ensures ParseYaml(PolicyToYaml(p)) ==
            match IdValue(p.id) case Ok(st) => Ok(Encoded(st.root, p)) case Err(e) => Err(e)
  {
    hide PrintsPlainly, PolicyLines, WithinBounds, Separable, Joined, Encoded, IdValue, ParseLines, SplitLines,
      NormalizeNewlines, LineFeeds;
    PrintedIsSeparable(p);
    SplitJoined(PolicyLines(p), LineFeeds(|PolicyLines(p)| - 1));
    PrintedLinesParse(p);
  }

  lemma OnLineIdIff(p: Policy)
    requires PrintsPlainly(p) && WithinBounds(p) && '\n' !in p.id
    ensures LoadProjectPolicy(Text(PolicyToYaml(p))) == LoadedPolicy(p, ProjectFile, true, {}) <==> PlainId(p.id)
  {
    assert p.id != "" && Trim(p.id) == p.id;
    hide PrintsPlainly, Encoded, Holds, WithinBounds, PolicyToYaml, IdValue, PlainId, Trim, ParseYaml, Validated;
    PrintedParses(p);
    IdComesBackIff(p.id);
    IdValueShape(p.id);
    var r := IdValue(p.id);
    if r.Ok? {
      var v := r.value.root["id"];
      EncodedHolds(v, p);
      ValidatesIff(Encoded(r.value.root, p), v, p);
    }
  }

  // ------------------------------------------------------------------ ids over several lines

  /** No top-level id that the parser has read holds a line feed. */
  ghost predicate IdOnOneLine(st: ParserState) {
    "id" in st.root && st.root["id"].VStr? ==> '\n' !in st.root["id"].s
  }

  lemma TrimIsPart(s: string)
    ensures forall c :: c in Trim(s) ==> c in s
  {
    var t := TrimStart(s);
    TrimStartSpec(s);
    TrimEndSpec(t);
    assert t == s[|s| - |t|..] && Trim(s) == t[..|Trim(s)|];
  }

  lemma ScalarIsPart(text: string)
    requires '\n' !in text
    ensures ParseScalar(text).VStr? ==> '\n' !in ParseScalar(text).s
  {
    hide IsUnsignedNumber, UnsignedNumber, Trim;
    TrimIsPart(text);
    var v := Trim(text);
    assert '\n' !in v;
    assert forall c :: c in Inner(v) ==> c in v;
  }

  lemma MatchIsPart(trimmed: string)
    requires '\n' !in trimmed
    ensures var m := MatchKeyValue(trimmed); m.Some? ==> '\n' !in m.value.1
  {
    hide Trim, CanonicalKey, IsLineTerminator;
    var colon := IndexOf(trimmed, ':');
    if colon < |trimmed| {
      assert forall c :: c in trimmed[colon + 1..] ==> c in trimmed;
      TrimIsPart(trimmed[colon + 1..]);
    }
  }

  lemma TopKeepsId(st: ParserState, trimmed: string)
    requires IdOnOneLine(st) && '\n' !in trimmed
    ensures var r := ParseTop(st, trimmed); r.Ok? ==> IdOnOneLine(r.value)
  {
    hide MatchKeyValue, StartsWith, ParseScalar;
    MatchIsPart(trimmed);
    var m := MatchKeyValue(trimmed);
    if m.Some? { ScalarIsPart(m.value.1); }
  }

  lemma LineKeepsId(st: ParserState, line: string)
    requires BlockOpen(st) && IdOnOneLine(st) && '\n' !in line
    ensures var r := ParseLine(st, line); r.Ok? ==> IdOnOneLine(r.value)
  {
    hide CommentStart, Trim, Indent, ParseTop, MatchKeyValue, StartsWith, ParseScalar;
    var raw := WithoutComment(line);
    assert '\n' !in raw;
    TrimIsPart(raw);
    TopKeepsId(st, Trim(raw));
    NestedKeepsId(st, Trim(raw));
    hide ParseNested, IdOnOneLine;
  }

  lemma NestedKeepsId(st: ParserState, trimmed: string)
    requires BlockOpen(st) && IdOnOneLine(st)
    ensures st.current.Some? ==> var r := ParseNested(st, trimmed); r.Ok? ==> IdOnOneLine(r.value)
  {
    hide MatchKeyValue, StartsWith, ParseScalar;
  }

  lemma {:induction false} LinesKeepId(st: ParserState, lines: seq<string>)
    requires BlockOpen(st) && IdOnOneLine(st) && forall l :: l in lines ==> '\n' !in l
    ensures var r := ParseLines(st, lines); r.Ok? ==> IdOnOneLine(r.value)
    decreases |lines|
  {
    hide ParseLine, IdOnOneLine;
    if lines != [] {
      LineKeepsId(st, lines[0]);
      var r := ParseLine(st, lines[0]);
      if r.Ok? { LinesKeepId(r.value, lines[1..]); }
    }
  }

  /** No text loads as a valid policy whose id spans lines. */
  lemma LoadedIdIsOneLine(text: string)
    ensures var l := LoadProjectPolicy(Text(text)); l.valid ==> '\n' !in l.policy.id
  {
    hide ParseLines, SplitLines, NormalizeNewlines, UnknownErrors, SymbolErrors, NumberFieldErrors, ExecutionErrors,
      LiveErrors,
         BoolErrors, GoodMode, NumberField, BoolField, SymbolList, ReadExecution, ReadLive, Trim;
    var lines := SplitLines(NormalizeNewlines(text));
    SplitHasNoLineFeed(NormalizeNewlines(text));
    LinesKeepId(START, lines);
    var r := ParseYaml(text);
    if r.Ok? && Validated(VObj(r.value)).valid {
      var f := r.value;
      assert (if GoodId(f) then {} else {BadId}) <= FieldErrors(f);
      TrimIsPart(f["id"].s);
    }
  }

  /**
   Printing a policy and loading the file gives the policy back exactly when it is within bounds and its id is plain.
   */
  lemma PolicyRoundTripIff(p: Policy)
    requires PrintsPlainly(p)
    ensures LoadProjectPolicy(Text(PolicyToYaml(p))) == LoadedPolicy(p, ProjectFile, true, {}) <==>
      WithinBounds(p) && PlainId(p.id)
  {
    hide WithinBounds, PlainId, PolicyToYaml, LoadProjectPolicy;
    if WithinBounds(p) && '\n' !in p.id {
      OnLineIdIff(p);
    } else {
      LoadedPolicyIsBoundedOrDisabled(Text(PolicyToYaml(p)));
      LoadedIdIsOneLine(PolicyToYaml(p));
      if PlainId(p.id) { PlainIdIsOneLine(p.id); }
    }
  }

  lemma PlainIdIsOneLine(id: string)
    requires PlainId(id)
    ensures '\n' !in id
  {
    assert IsLineTerminator('\n');
  }
}
