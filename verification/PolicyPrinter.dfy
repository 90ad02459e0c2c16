/** The printer of the policy file, and when loading what it prints gives the policy back. */
module PolicyPrinter {
  import opened Basics
  import opened JsStrings
  import opened TradingTypes
  import opened PolicyLoader
  import opened PolicyLayout

  // ------------------------------------------------------------------ numbers

  const MAX_FRACTION_DIGITS := 23

  function Pow10(k: nat): real {
    if k == 0 then 1.0 else 10.0 * Pow10(k - 1)
  }

  function Scaled(f: real, k: nat): real { f * Pow10(k) }

  /** `f` has at most `k` decimal digits. */
  ghost predicate Terminates(f: real, k: nat) {
    0.0 <= f < 1.0 && IsInteger(Scaled(f, k))
  }

  /** The non-negative numbers that ECMAScript prints in plain decimal notation, exactly. */
  ghost predicate PlainNumber(v: real) {
    && (v == 0.0 || 0.000001 <= v < 1000000000000000000000.0)
    && Terminates(v - v.Floor as real, MAX_FRACTION_DIGITS)
  }

  function Digit(d: int): (c: char)
    requires 0 <= d <= 9
    ensures IsDigit(c) && DigitValue(c) == d
  {
    (('0' as int) + d) as char
  }

  function WholeText(n: nat): string {
    if n < 10 then [Digit(n)] else WholeText(n / 10) + [Digit(n % 10)]
  }

  lemma {:induction false} WholeTextSpec(n: nat)
    ensures AllDigits(WholeText(n)) && WholeValue(WholeText(n)) == n
  {
    if n >= 10 {
      WholeTextSpec(n / 10);
      var init, s := WholeText(n / 10), WholeText(n);
      assert s == init + [Digit(n % 10)] && s[..|s| - 1] == init;
    }
  }

  lemma NoDigitsIsZero(f: real)
    requires Terminates(f, 0)
    ensures f == 0.0
  {
    assert Scaled(f, 0) == f;
  }

  lemma DigitRange(f: real)
    requires 0.0 < f < 1.0
    ensures 0 <= (f * 10.0).Floor <= 9 && 0.0 <= f * 10.0 - (f * 10.0).Floor as real < 1.0
  {
  }

  /** Moving the point one place keeps an integer an integer. */
  lemma DigitShift(f: real, d: int, next: real, p: real, n: int, m: int)
    requires p == n as real && f * (10.0 * p) == m as real && next == f * 10.0 - d as real
    ensures next * p == (m - d * n) as real
  {
    assert f * (10.0 * p) == (f * 10.0) * p;
    assert (f * 10.0 - d as real) * p == (f * 10.0) * p - d as real * p;
    assert d as real * n as real == (d * n) as real;
  }

  lemma ScaledIs(f: real, k: nat, p: real)
    requires p == Pow10(k)
    ensures Scaled(f, k) == f * p
  {
  }

  lemma ScaledShift(f: real, d: int, k: nat)
    requires IsInteger(Scaled(f, k + 1))
    ensures IsInteger(Scaled(f * 10.0 - d as real, k))
  {
    var p, m, next := Pow10(k), Scaled(f, k + 1).Floor, f * 10.0 - d as real;
    PowInteger(k);
    PowStep(k);
    ScaledIs(f, k + 1, 10.0 * p);
    ScaledIs(next, k, p);
    hide Pow10, Scaled;
    DigitShift(f, d, next, p, p.Floor, m);
    IntegerReal(m - d * p.Floor);
  }

  lemma PowStep(k: nat)
    ensures Pow10(k + 1) == 10.0 * Pow10(k)
  {
  }

  lemma NextDigit(f: real, k: nat)
    requires Terminates(f, k) && f > 0.0
    ensures k > 0 && 0 <= (f * 10.0).Floor <= 9 && Terminates(f * 10.0 - (f * 10.0).Floor as real, k - 1)
  {
    hide Scaled, IsInteger;
    assert k > 0 by {
      if k == 0 { NoDigitsIsZero(f); }
    }
    DigitRange(f);
    ScaledShift(f, (f * 10.0).Floor, k - 1);
  }

  lemma IntegerReal(a: int)
    ensures IsInteger(a as real)
  {
  }

  lemma {:induction false} PowInteger(k: nat)
    ensures IsInteger(Pow10(k)) && Pow10(k) > 0.0
  {
    if k > 0 {
      PowInteger(k - 1);
      assert Pow10(k) == (10 * Pow10(k - 1).Floor) as real;
    }
  }

  function FractionText(f: real, k: nat): (s: string)
    requires Terminates(f, k)
    ensures (forall c :: c in s ==> IsDigit(c)) && (s == [] <==> f == 0.0)
    ensures FractionValue(s) == f
    decreases k
  {
    if f == 0.0 then []
    else
      NextDigit(f, k);
      var d := (f * 10.0).Floor;
      var rest := FractionText(f * 10.0 - d as real, k - 1);
      assert ([Digit(d)] + rest)[1..] == rest;
      [Digit(d)] + rest
  }

  function NumberText(v: real): string
    requires PlainNumber(v)
  {
    var f := v - v.Floor as real;
    if f == 0.0 then WholeText(v.Floor) else WholeText(v.Floor) + "." + FractionText(f, MAX_FRACTION_DIGITS)
  }

  predicate NumberChar(c: char) { IsDigit(c) || c == '.' }

  lemma UnsignedOf(whole: string, fraction: string)
    requires AllDigits(whole) && AllDigits(fraction)
    ensures IsUnsignedNumber(whole) && UnsignedNumber(whole) == WholeValue(whole) as real
    ensures var s := whole + "." + fraction;
      IsUnsignedNumber(s) && UnsignedNumber(s) == WholeValue(whole) as real + FractionValue(fraction)
  {
    var s := whole + "." + fraction;
    assert '.' !in whole;
    assert s == whole + ['.'] + fraction;
    hide WholeValue, FractionValue;
    IndexOfAfter(whole, '.', fraction);
    assert s[..|whole|] == whole && s[|whole| + 1..] == fraction && whole[..|whole|] == whole;
  }

  /** Printing a number and reading it back as a scalar gives the number. */
  lemma NumberRoundTrip(v: real)
    requires PlainNumber(v)
    ensures IsUnsignedNumber(NumberText(v)) && UnsignedNumber(NumberText(v)) == v
    ensures NumberText(v) != [] && forall c :: c in NumberText(v) ==> NumberChar(c)
    ensures IsDigit(NumberText(v)[0]) && IsDigit(NumberText(v)[|NumberText(v)| - 1])
  {
    var f := v - v.Floor as real;
    var whole := WholeText(v.Floor);
    WholeTextSpec(v.Floor);
    if f == 0.0 {
      UnsignedOf(whole, "0");
    } else {
      var fraction := FractionText(f, MAX_FRACTION_DIGITS);
      hide PlainNumber, IsUnsignedNumber, UnsignedNumber, FractionText, WholeText;
      UnsignedOf(whole, fraction);
      assert fraction[|fraction| - 1] in fraction;
    }
  }

  lemma DigitIsPlain(c: char)
    requires NumberChar(c)
    ensures !IsSpace(c) && c != '#' && !IsLineTerminator(c) && c != 't' && c != 'f' && c != 'n'
  {
  }

  lemma NumberScalar(v: real)
    requires PlainNumber(v)
    ensures ParseScalar(NumberText(v)) == VNum(v) && PlainText(NumberText(v))
  {
    hide NumberText, IsUnsignedNumber, UnsignedNumber, PlainNumber, Trim, IsSpace, IsLineTerminator, NumberChar;
    NumberRoundTrip(v);
    var s := NumberText(v);
    assert s[0] in s && s[|s| - 1] in s;
    DigitIsPlain(s[0]);
    DigitIsPlain(s[|s| - 1]);
    forall c | c in s
      ensures c != '#' && !IsLineTerminator(c)
    {
      DigitIsPlain(c);
    }
    TrimSpec(s);
  }

  // ------------------------------------------------------------------ lines

  /** Text that survives as the value of a line: trimmed, one line, no comment mark. */
  ghost predicate PlainText(s: string) {
    OneLineText(s) && '#' !in s
  }

  /** Trimmed text on one line. */
  ghost predicate OneLineText(s: string) {
    && s != [] && !IsSpace(s[0]) && !IsSpace(s[|s| - 1])
    && forall c :: c in s ==> !IsLineTerminator(c)
  }

  predicate IsLetter(c: char) { 'A' <= c <= 'Z' || 'a' <= c <= 'z' }

  ghost predicate PlainKey(s: string) {
    s != [] && forall c :: c in s ==> IsLetter(c)
  }

  lemma {:induction false} NoComment(line: string, i: nat, quoted: Option<char>)
    requires i <= |line| && '#' !in line
    ensures CommentStart(line, i, quoted) == |line|
    decreases |line| - i
  {
    if i < |line| { NoComment(line, i + 1, QuoteAfter(line, i, quoted)); }
  }

  lemma CountAliasHasUnderscore(key: string)
    requires CountAlias(key).Some?
    ensures '_' in key
  {
    if key == "allowed_symbols" { assert key[7] == '_'; }
    else if key == "max_open_orders" { assert key[3] == '_'; }
    else if key == "max_open_positions" { assert key[3] == '_'; }
  }

  lemma LimitAliasHasUnderscore(key: string)
    requires LimitAlias(key).Some?
    ensures '_' in key
  {
    if key == "max_daily_loss_fraction" { assert key[3] == '_'; }
    else if key == "max_weekly_loss_fraction" { assert key[3] == '_'; }
    else if key == "max_risk_per_trade_fraction" { assert key[3] == '_'; }
  }

  lemma AgeAliasHasUnderscore(key: string)
    requires AgeAlias(key).Some?
    ensures '_' in key
  {
    if key == "max_market_data_age_ms" { assert key[3] == '_'; }
    else if key == "max_order_age_seconds" { assert key[3] == '_'; }
  }

  lemma ExecutionAliasHasUnderscore(key: string)
    requires ExecutionAlias(key).Some?
    ensures '_' in key
  {
    if key == "allow_market_orders" { assert key[5] == '_'; }
    else if key == "allow_leverage" { assert key[5] == '_'; }
    else if key == "allow_margin" { assert key[5] == '_'; }
    else if key == "allow_withdrawals" { assert key[5] == '_'; }
    else if key == "post_only_by_default" { assert key[4] == '_'; }
  }

  lemma LiveAliasHasUnderscore(key: string)
    requires LiveAlias(key).Some?
    ensures '_' in key
  {
    if key == "requires_human_approval" { assert key[8] == '_'; }
    else if key == "max_autonomous_notional_usd" { assert key[3] == '_'; }
  }

  lemma KeyIsCanonical(key: string)
    requires PlainKey(key)
    ensures CanonicalKey(key) == key && Trim(key) == key
  {
    hide Trim, CountAlias, LimitAlias, AgeAlias, ExecutionAlias, LiveAlias;
    assert IsLetter(key[0]) && IsLetter(key[|key| - 1]);
    TrimSpec(key);
    assert '_' !in key;
    if CountAlias(key).Some? { CountAliasHasUnderscore(key); }
    if LimitAlias(key).Some? { LimitAliasHasUnderscore(key); }
    if AgeAlias(key).Some? { AgeAliasHasUnderscore(key); }
    if ExecutionAlias(key).Some? { ExecutionAliasHasUnderscore(key); }
    if LiveAlias(key).Some? { LiveAliasHasUnderscore(key); }
  }

  lemma TrimSpaces(s: string)
    requires s == [] || !IsSpace(s[0])
    ensures Trim(" " + s) == Trim(s) && Trim("  " + s) == Trim(s)
  {
    assert (" " + s)[1..] == s && ("  " + s)[1..] == " " + s;
    assert TrimStart(" " + s) == TrimStart(s) && TrimStart("  " + s) == TrimStart(" " + s);
  }

  lemma TrimPlain(s: string)
    requires OneLineText(s)
    ensures Trim(s) == s && Trim(" " + s) == s && Trim("  " + s) == s
  {
    TrimSpaces(s);
  }

  lemma MatchPlain(key: string, text: string)
    requires PlainKey(key) && OneLineText(text)
    ensures MatchKeyValue(key + ": " + text) == Some((key, text))
  {
    hide CanonicalKey, Trim, IsSpace, IsLineTerminator, IndexOf;
    KeyIsCanonical(key);
    assert ':' !in key;
    var line, rest := key + ": " + text, " " + text;
    assert line == key + [':'] + rest;
    IndexOfAfter(key, ':', rest);
    assert line[..|key|] == key && line[|key| + 1..] == rest;
    TrimPlain(text);
    SpaceIsNoTerminator();
  }

  lemma SpaceIsNoTerminator()
    ensures !IsLineTerminator(' ')
  {
  }

  lemma MatchBlock(key: string)
    requires PlainKey(key)
    ensures MatchKeyValue(key + ":") == Some((key, ""))
  {
    hide CanonicalKey, Trim, IndexOf;
    KeyIsCanonical(key);
    assert ':' !in key;
    var line := key + ":";
    assert line == key + [':'] + "";
    IndexOfAfter(key, ':', "");
    assert line[..|key|] == key && line[|key| + 1..] == "";
    TrimSpec("");
  }

  lemma Uncommented(line: string)
    requires '#' !in line
    ensures WithoutComment(line) == line
  {
    NoComment(line, 0, None);
  }

  lemma IndentOf(line: string)
    requires line != [] && line[0] != ' '
    ensures Indent(line) == 0 && Indent("  " + line) == 2
  {
    assert ("  " + line)[1..] == " " + line && (" " + line)[1..] == line;
    assert Indent(" " + line) == 1;
  }

  lemma LetterIsPlain(c: char)
    requires IsLetter(c)
    ensures !IsSpace(c) && c != ' ' && c != '-' && c != '#' && c != ':'
  {
  }

  lemma KeyLine(key: string, tail: string)
    requires PlainKey(key) && tail != [] && !IsSpace(tail[|tail| - 1]) && '#' !in tail
    ensures var line := key + tail;
      && WithoutComment(line) == line && WithoutComment("  " + line) == "  " + line
      && Trim(line) == line && Trim("  " + line) == line && line != ""
      && Indent(line) == 0 && Indent("  " + line) == 2 && !StartsWith(line, "- ")
  {
    hide Trim, IsSpace, WithoutComment, Indent, IsLetter;
    var line := key + tail;
    assert line[0] == key[0] && line[|line| - 1] == tail[|tail| - 1];
    LetterIsPlain(key[0]);
    forall c | c in key
      ensures c != '#'
    {
      LetterIsPlain(c);
    }
    Uncommented(line);
    Uncommented("  " + line);
    TrimSpec(line);
    TrimSpaces(line);
    IndentOf(line);
    assert |line| >= 2 ==> line[..2][0] == key[0] != '-';
  }

  /** An unindented line of its own text is a top-level line. */
  lemma LineAtTop(st: ParserState, line: string)
    requires BlockOpen(st) && WithoutComment(line) == line && Trim(line) == line && line != "" && Indent(line) == 0
    ensures ParseLine(st, line) == ParseTop(st, line)
  {
    hide WithoutComment, Trim, Indent, ParseTop;
  }

  lemma TopScalar(st: ParserState, key: string, text: string)
    requires BlockOpen(st) && PlainKey(key) && PlainText(text)
    ensures ParseLine(st, key + ": " + text) == Ok(ParserState(st.root[key := ParseScalar(text)], None))
  {
    assert text != "";
    hide MatchKeyValue, WithoutComment, Trim, Indent, StartsWith, ParseScalar, PlainKey, ParseLine, IsSpace;
    assert key + ": " + text == key + (": " + text);
    KeyLine(key, ": " + text);
    MatchPlain(key, text);
    LineAtTop(st, key + ": " + text);
    hide PlainText;
  }

  lemma TopBlock(st: ParserState, key: string)
    requires BlockOpen(st) && PlainKey(key)
    ensures ParseLine(st, key + ":") == Ok(ParserState(st.root[key := VList([])], Some(key)))
  {
    KeyLine(key, ":");
    MatchBlock(key);
    hide MatchKeyValue, WithoutComment, Trim, Indent, StartsWith, ParseScalar;
  }

  ghost predicate OpenAt(st: ParserState, block: string) {
    st.current == Some(block) && block in st.root
  }

  function BlockFields(v: Value): Fields
    requires v.VList? || v.VObj?
  {
    if v.VList? then map[] else v.fields
  }

  /** A line indented by two under an open key is parsed in its block. */
  lemma LineInBlock(st: ParserState, raw: string, trimmed: string)
    requires BlockOpen(st) && st.current.Some?
    requires WithoutComment(raw) == raw && Trim(raw) == trimmed && trimmed != "" && Indent(raw) == 2
    ensures ParseLine(st, raw) == ParseNested(st, trimmed)
  {
    hide WithoutComment, Trim, Indent, ParseTop, ParseNested;
  }

  lemma NestedScalar(st: ParserState, block: string, key: string, text: string)
    requires BlockOpen(st) && OpenAt(st, block) && PlainKey(key) && PlainText(text)
    ensures ParseLine(st, "  " + (key + ": " + text)) ==
            Ok(st.(root := st.root[block := VObj(BlockFields(st.root[block])[key := ParseScalar(text)])]))
  {
    assert text != "";
    hide MatchKeyValue, WithoutComment, Trim, Indent, StartsWith, ParseScalar, PlainKey, ParseLine, IsSpace;
    var line := key + ": " + text;
    assert line == key + (": " + text);
    KeyLine(key, ": " + text);
    MatchPlain(key, text);
    LineInBlock(st, "  " + line, line);
    hide PlainText;
  }

  lemma ItemLine(text: string)
    requires PlainText(text)
    ensures var line := "  - " + text;
      && WithoutComment(line) == line && Trim(line) == "- " + text && Indent(line) == 2
      && StartsWith("- " + text, "- ") && ("- " + text)[2..] == text && "- " + text != ""
  {
    hide Trim, IsSpace, WithoutComment, Indent, IsLineTerminator;
    var line, item := "  - " + text, "- " + text;
    assert line == "  " + item && '#' !in line;
    Uncommented(line);
    assert item[|item| - 1] == text[|text| - 1] && item[0] == '-';
    DashIsPlain();
    TrimSpaces(item);
    TrimSpec(item);
    IndentOf(item);
    assert item[..2] == "- ";
  }

  lemma DashIsPlain()
    ensures !IsSpace('-')
  {
  }

  lemma ListItem(st: ParserState, block: string, text: string)
    requires BlockOpen(st) && OpenAt(st, block) && st.root[block].VList? && PlainText(text)
    ensures ParseLine(st, "  - " + text) == Ok(st.(root :=
      st.root[block := VList(st.root[block].items + [ParseScalar(text)])]))
  {
    ItemLine(text);
    hide WithoutComment, Trim, Indent, StartsWith, ParseScalar;
  }

  lemma BlankLine(st: ParserState)
    requires BlockOpen(st)
    ensures ParseLine(st, "") == Ok(st)
  {
    assert WithoutComment("") == "" && Trim("") == "";
  }

  lemma Continue(st: ParserState, line: string, rest: seq<string>, next: ParserState)
    requires BlockOpen(st) && ParseLine(st, line) == Ok(next)
    ensures BlockOpen(next) && ParseLines(st, [line] + rest) == ParseLines(next, rest)
  {
    hide ParseLine;
    assert ([line] + rest)[1..] == rest;
  }

  /** Lines in two parts are parsed one after the other; an error in the first part is the error. */
  lemma {:induction false} ParseConcat(st: ParserState, a: seq<string>, b: seq<string>)
    requires BlockOpen(st)
    ensures var r := ParseLines(st, a); ParseLines(st, a + b) == if r.Ok? then ParseLines(r.value, b) else r
    decreases |a|
  {
    hide ParseLine;
    if a == [] {
      assert a + b == b;
    } else {
      assert (a + b)[0] == a[0] && (a + b)[1..] == a[1..] + b;
      var r := ParseLine(st, a[0]);
      if r.Ok? { ParseConcat(r.value, a[1..], b); }
    }
  }

  // ------------------------------------------------------------------ the printer

  function BoolText(b: bool): string { if b then "true" else "false" }

  function ModeText(m: Mode): string { if m == Live then "live" else "paper" }

  function Entry(key: string, text: string): string { key + ": " + text }

  function Indented(key: string, text: string): string { "  " + Entry(key, text) }

  ghost predicate PrintsPlainly(p: Policy) {
    && PlainNumber(p.maxOpenOrders as real) && PlainNumber(p.maxOpenPositions as real)
    && PlainNumber(p.maxDailyLossFraction) && PlainNumber(p.maxWeeklyLossFraction)
    && PlainNumber(p.maxRiskPerTradeFraction)
    && PlainNumber(p.maxMarketDataAgeMs as real) && PlainNumber(p.maxOrderAgeSeconds as real)
    && PlainNumber(p.live.maxAutonomousNotionalUsd)
  }

  function ModeLines(p: Policy): seq<string> {
    [Entry("enabled", BoolText(p.enabled)), Entry("mode", ModeText(p.mode)), ""]
  }

  function Bullets(symbols: seq<string>): seq<string> {
    if symbols == [] then [] else ["  - " + symbols[0]] + Bullets(symbols[1..])
  }

  /** Joining no symbols still prints an empty line. */
  function SymbolLines(p: Policy): seq<string> {
    ["allowedSymbols:"] + (if p.allowedSymbols == [] then [""] else Bullets(p.allowedSymbols)) + [""]
  }

  function LimitLines(p: Policy): seq<string>
    requires PrintsPlainly(p)
  {
    [Entry("maxOpenOrders", NumberText(p.maxOpenOrders as real)),
     Entry("maxOpenPositions", NumberText(p.maxOpenPositions as real)),
     Entry("maxDailyLossFraction", NumberText(p.maxDailyLossFraction)),
     Entry("maxWeeklyLossFraction", NumberText(p.maxWeeklyLossFraction)),
     Entry("maxRiskPerTradeFraction", NumberText(p.maxRiskPerTradeFraction)),
     Entry("maxMarketDataAgeMs", NumberText(p.maxMarketDataAgeMs as real)),
     Entry("maxOrderAgeSeconds", NumberText(p.maxOrderAgeSeconds as real)),
     ""]
  }

  function ExecutionLines(p: Policy): seq<string> {
    ["execution:",
     Indented("allowMarketOrders", BoolText(p.execution.allowMarketOrders)),
     Indented("allowLeverage", BoolText(p.execution.allowLeverage)),
     Indented("allowMargin", BoolText(p.execution.allowMargin)),
     Indented("allowWithdrawals", BoolText(p.execution.allowWithdrawals)),
     Indented("postOnlyByDefault", BoolText(p.execution.postOnlyByDefault)),
     ""]
  }

  function LiveLines(p: Policy): seq<string>
    requires PrintsPlainly(p)
  {
    ["live:",
     Indented("requiresHumanApproval", BoolText(p.live.requiresHumanApproval)),
     Indented("maxAutonomousNotionalUsd", NumberText(p.live.maxAutonomousNotionalUsd)),
     ""]
  }

  /** Everything printed after the line of the id. */
  function RestLines(p: Policy): seq<string>
    requires PrintsPlainly(p)
  {
    ModeLines(p) + (SymbolLines(p) + (LimitLines(p) + (ExecutionLines(p) + LiveLines(p))))
  }

  function PolicyLines(p: Policy): seq<string>
    requires PrintsPlainly(p)
  {
    [Entry("id", p.id)] + RestLines(p)
  }

  function PolicyToYaml(p: Policy): string
    requires PrintsPlainly(p)
  {
    Joined(PolicyLines(p), LineFeeds(|PolicyLines(p)| - 1))
  }

  // ------------------------------------------------------------------ reading the printed sections

  /** The strings that a scalar keeps as they are. */
  predicate PlainScalar(s: string) {
    && s != "true" && s != "false" && s != "null"
    && !IsUnsignedNumber(s) && !(s != [] && s[0] == '-' && IsUnsignedNumber(s[1..]))
    && !Enclosed(s, '[', ']') && !Enclosed(s, '"', '"') && !Enclosed(s, '\'', '\'')
  }

  /** A trimmed scalar is read as the string it shows exactly when it looks like nothing else. */
  lemma ScalarKeptIff(s: string)
    requires Trim(s) == s
    ensures ParseScalar(s) == VStr(s) <==> PlainScalar(s)
    ensures ParseScalar(s).VStr? ==> |ParseScalar(s).s| <= |s| && (|ParseScalar(s).s| == |s| ==> ParseScalar(s).s == s)
  {
    hide IsUnsignedNumber, UnsignedNumber, Trim;
    assert Enclosed(s, '"', '"') || Enclosed(s, '\'', '\'') ==> |Inner(s)| < |s|;
  }

  lemma LetterIsNoNumber(s: string)
    requires s != [] && IsLetter(s[0])
    ensures !IsUnsignedNumber(s)
  {
    hide IndexOf;
    var dot := IndexOf(s, '.');
    assert dot > 0 ==> s[..dot][0] == s[0] && s[..dot][0] in s[..dot];
  }

  lemma WordScalar(s: string)
    requires PlainText(s) && IsLetter(s[0]) && s != "true" && s != "false" && s != "null"
    ensures ParseScalar(s) == VStr(s)
  {
    hide ParseScalar, IsUnsignedNumber, Trim;
    TrimPlain(s);
    LetterIsNoNumber(s);
    ScalarKeptIff(s);
  }

  lemma WordsAreScalars()
    ensures PlainText("true") && ParseScalar("true") == VBool(true) && PlainText("false") &&
      ParseScalar("false") == VBool(false)
    ensures PlainText("paper") && ParseScalar("paper") == VStr("paper") && PlainText("live") &&
      ParseScalar("live") == VStr("live")
    ensures PlainText("BTC/USD") && ParseScalar("BTC/USD") == VStr("BTC/USD")
    ensures PlainText("ETH/USD") && ParseScalar("ETH/USD") == VStr("ETH/USD")
  {
    hide ParseScalar;
    TrueFalse();
    WordScalar("paper");
    assert "live"[0] == 'l';
    WordScalar("live");
    WordScalar("BTC/USD");
    WordScalar("ETH/USD");
  }

  lemma TrueFalse()
    ensures PlainText("true") && ParseScalar("true") == VBool(true) && PlainText("false") &&
      ParseScalar("false") == VBool(false)
  {
    hide Trim, IsUnsignedNumber, UnsignedNumber, Inner, Enclosed, ParseParts;
    assert PlainText("true") && PlainText("false");
    hide PlainText, OneLineText;
    TrimSpec("true");
    TrimSpec("false");
    assert "true"[0] != "false"[0];
  }

  lemma BoolScalar(b: bool)
    ensures PlainText(BoolText(b)) && ParseScalar(BoolText(b)) == VBool(b)
  {
    hide ParseScalar, PlainText;
    WordsAreScalars();
  }

  ghost predicate Reads(st: ParserState, lines: seq<string>, end: ParserState) {
    BlockOpen(st) && ParseLines(st, lines) == Ok(end)
  }

  lemma ReadsStep(st: ParserState, line: string, next: ParserState, rest: seq<string>, end: ParserState)
    requires BlockOpen(st) && ParseLine(st, line) == Ok(next) && Reads(next, rest, end)
    ensures Reads(st, [line] + rest, end)
  {
    Continue(st, line, rest, next);
  }

  lemma ReadsBlank(st: ParserState)
    requires BlockOpen(st)
    ensures Reads(st, [""], st)
  {
    hide ParseLine;
    BlankLine(st);
    assert [""][1..] == [];
  }

  lemma ReadsConcat(st: ParserState, a: seq<string>, middle: ParserState, b: seq<string>, end: ParserState)
    requires Reads(st, a, middle) && Reads(middle, b, end)
    ensures Reads(st, a + b, end)
  {
    hide ParseLines;
    ParseConcat(st, a, b);
  }

  /** One `key: text` line at top level. */
  lemma ReadsScalar(st: ParserState, key: string, text: string, v: Value, rest: seq<string>, end: ParserState)
    requires BlockOpen(st) && PlainKey(key) && PlainText(text) && ParseScalar(text) == v
    requires Reads(ParserState(st.root[key := v], None), rest, end)
    ensures Reads(st, [Entry(key, text)] + rest, end)
  {
    hide Reads, PlainKey, PlainText, ParseScalar, ParseLine;
    TopScalar(st, key, text);
    ReadsStep(st, Entry(key, text), ParserState(st.root[key := v], None), rest, end);
  }

  /** One `  key: text` line inside an open block. */
  lemma ReadsNested(st: ParserState, block: string, key: string, text: string, v: Value, rest: seq<string>,
                    end: ParserState)
    requires BlockOpen(st) && OpenAt(st, block) && PlainKey(key) && PlainText(text) && ParseScalar(text) == v
    requires Reads(st.(root := st.root[block := VObj(BlockFields(st.root[block])[key := v])]), rest, end)
    ensures Reads(st, [Indented(key, text)] + rest, end)
  {
    hide Reads, PlainKey, PlainText, ParseScalar, ParseLine, BlockFields;
    NestedScalar(st, block, key, text);
    ReadsStep(st, Indented(key, text), st.(root := st.root[block := VObj(BlockFields(st.root[block])[key := v])]),
      rest, end);
  }

  function WithMode(f: Fields, p: Policy): Fields {
    f["enabled" := VBool(p.enabled)]["mode" := VStr(ModeText(p.mode))]
  }

  lemma ReadsMode(st: ParserState, p: Policy)
    requires BlockOpen(st)
    ensures Reads(st, ModeLines(p), ParserState(WithMode(st.root, p), None))
  {
    hide Reads, ParseScalar, PlainText, Entry;
    var r0 := st.root;
    var r1 := r0["enabled" := VBool(p.enabled)];
    var r2 := r1["mode" := VStr(ModeText(p.mode))];
    var end := ParserState(r2, None);
    BoolScalar(p.enabled);
    WordsAreScalars();
    ReadsBlank(end);
    ReadsScalar(ParserState(r1, None), "mode", ModeText(p.mode), VStr(ModeText(p.mode)), [""], end);
    ReadsScalar(st, "enabled", BoolText(p.enabled), VBool(p.enabled), [Entry("mode", ModeText(p.mode))] + [""], end);
    assert ModeLines(p) == [Entry("enabled", BoolText(p.enabled))] + ([Entry("mode", ModeText(p.mode))] + [""]);
  }

  function SymbolValues(symbols: seq<string>): (r: seq<Value>)
    ensures |r| == |symbols| && forall i :: 0 <= i < |r| ==> r[i] == VStr(symbols[i])
  {
    seq(|symbols|, i requires 0 <= i < |symbols| => VStr(symbols[i]))
  }

  lemma {:induction false} ReadsBullets(st: ParserState, block: string, symbols: seq<string>)
    requires BlockOpen(st) && OpenAt(st, block) && st.root[block].VList?
    requires forall s :: s in symbols ==> Supported(s)
    ensures Reads(st, Bullets(symbols), st.(root := st.root[block :=
      VList(st.root[block].items + SymbolValues(symbols))]))
    decreases |symbols|
  {
    hide ParseScalar, PlainText, ParseLine;
    if symbols == [] {
      assert st.root[block].items + SymbolValues(symbols) == st.root[block].items;
      assert st.root[block := st.root[block]] == st.root;
    } else {
      WordsAreScalars();
      assert Supported(symbols[0]);
      ListItem(st, block, symbols[0]);
      var items := st.root[block].items + [VStr(symbols[0])];
      var next := st.(root := st.root[block := VList(items)]);
      ReadsBullets(next, block, symbols[1..]);
      assert items + SymbolValues(symbols[1..]) == st.root[block].items + SymbolValues(symbols);
      assert next.root[block := VList(items + SymbolValues(symbols[1..]))] == st.root[block :=
        VList(items + SymbolValues(symbols[1..]))];
      ReadsStep(st, "  - " + symbols[0], next, Bullets(symbols[1..]),
                st.(root := st.root[block := VList(st.root[block].items + SymbolValues(symbols))]));
    }
  }

  lemma ReadsSymbols(st: ParserState, p: Policy)
    requires BlockOpen(st) && p.allowedSymbols != [] && forall s :: s in p.allowedSymbols ==> Supported(s)
    ensures Reads(st, SymbolLines(p),
                  ParserState(st.root["allowedSymbols" := VList(SymbolValues(p.allowedSymbols))],
                    Some("allowedSymbols")))
  {
    hide Reads, ParseScalar, PlainText, ParseLine, Supported;
    var key := "allowedSymbols";
    var open := ParserState(st.root[key := VList([])], Some(key));
    var end := ParserState(st.root[key := VList(SymbolValues(p.allowedSymbols))], Some(key));
    TopBlock(st, key);
    assert key + ":" == "allowedSymbols:";
    ReadsBullets(open, key, p.allowedSymbols);
    assert open.root[key].items + SymbolValues(p.allowedSymbols) == SymbolValues(p.allowedSymbols);
    assert open.root[key := VList(SymbolValues(p.allowedSymbols))] == end.root;
    ReadsBlank(end);
    ReadsConcat(open, Bullets(p.allowedSymbols), end, [""], end);
    ReadsStep(st, "allowedSymbols:", open, Bullets(p.allowedSymbols) + [""], end);
    assert SymbolLines(p) == ["allowedSymbols:"] + (Bullets(p.allowedSymbols) + [""]);
  }

  function WithCounts(f: Fields, p: Policy): Fields {
    f["maxOpenOrders" := VNum(p.maxOpenOrders as real)]["maxOpenPositions" := VNum(p.maxOpenPositions as real)]
  }

  function WithFractions(f: Fields, p: Policy): Fields {
    f["maxDailyLossFraction" := VNum(p.maxDailyLossFraction)]
     ["maxWeeklyLossFraction" := VNum(p.maxWeeklyLossFraction)]
     ["maxRiskPerTradeFraction" := VNum(p.maxRiskPerTradeFraction)]
  }

  function WithAges(f: Fields, p: Policy): Fields {
    f["maxMarketDataAgeMs" := VNum(p.maxMarketDataAgeMs as real)]["maxOrderAgeSeconds" :=
      VNum(p.maxOrderAgeSeconds as real)]
  }

  function WithLimits(f: Fields, p: Policy): Fields {
    WithAges(WithFractions(WithCounts(f, p), p), p)
  }

  /** One `key: number` line at top level. */
  lemma ReadsNumber(st: ParserState, key: string, v: real, rest: seq<string>, end: ParserState)
    requires BlockOpen(st) && PlainKey(key) && PlainNumber(v)
    requires Reads(ParserState(st.root[key := VNum(v)], None), rest, end)
    ensures Reads(st, [Entry(key, NumberText(v))] + rest, end)
  {
    hide Reads, PlainKey, PlainText, ParseScalar, PlainNumber;
    NumberScalar(v);
    ReadsScalar(st, key, NumberText(v), VNum(v), rest, end);
  }

  lemma FractionKeys()
    ensures PlainKey("maxDailyLossFraction") && PlainKey("maxWeeklyLossFraction") && PlainKey("maxRiskPerTradeFraction")
  {
  }

  lemma ExecutionKeys()
    ensures PlainKey("execution") && PlainKey("allowMarketOrders") && PlainKey("allowLeverage") &&
      PlainKey("allowMargin")
    ensures PlainKey("allowWithdrawals") && PlainKey("postOnlyByDefault")
  {
  }

  lemma ReadsAges(st: ParserState, p: Policy, rest: seq<string>, end: ParserState)
    requires BlockOpen(st) && PrintsPlainly(p)
    requires Reads(ParserState(WithAges(st.root, p), None), rest, end)
    ensures Reads(st, [Entry("maxMarketDataAgeMs", NumberText(p.maxMarketDataAgeMs as real))]
                      + ([Entry("maxOrderAgeSeconds", NumberText(p.maxOrderAgeSeconds as real))] + rest), end)
  {
    hide Reads, PlainNumber, Entry;
    ReadsNumber(ParserState(st.root["maxMarketDataAgeMs" := VNum(p.maxMarketDataAgeMs as real)], None),
                "maxOrderAgeSeconds", p.maxOrderAgeSeconds as real, rest, end);
    ReadsNumber(st, "maxMarketDataAgeMs", p.maxMarketDataAgeMs as real,
                [Entry("maxOrderAgeSeconds", NumberText(p.maxOrderAgeSeconds as real))] + rest, end);
  }

  lemma ReadsFractions(st: ParserState, p: Policy, rest: seq<string>, end: ParserState)
    requires BlockOpen(st) && PrintsPlainly(p)
    requires Reads(ParserState(WithFractions(st.root, p), None), rest, end)
    ensures Reads(st, [Entry("maxDailyLossFraction", NumberText(p.maxDailyLossFraction))]
                      + ([Entry("maxWeeklyLossFraction", NumberText(p.maxWeeklyLossFraction))]
                      + ([Entry("maxRiskPerTradeFraction", NumberText(p.maxRiskPerTradeFraction))] + rest)), end)
  {
    hide Reads, PlainNumber, Entry, NumberText, PlainKey;
    FractionKeys();
    var daily := ParserState(st.root["maxDailyLossFraction" := VNum(p.maxDailyLossFraction)], None);
    var weekly := ParserState(daily.root["maxWeeklyLossFraction" := VNum(p.maxWeeklyLossFraction)], None);
    var last := [Entry("maxRiskPerTradeFraction", NumberText(p.maxRiskPerTradeFraction))] + rest;
    ReadsNumber(weekly, "maxRiskPerTradeFraction", p.maxRiskPerTradeFraction, rest, end);
    ReadsNumber(daily, "maxWeeklyLossFraction", p.maxWeeklyLossFraction, last, end);
    ReadsNumber(st, "maxDailyLossFraction", p.maxDailyLossFraction,
                [Entry("maxWeeklyLossFraction", NumberText(p.maxWeeklyLossFraction))] + last, end);
  }

  lemma ReadsCounts(st: ParserState, p: Policy, rest: seq<string>, end: ParserState)
    requires BlockOpen(st) && PrintsPlainly(p)
    requires Reads(ParserState(WithCounts(st.root, p), None), rest, end)
    ensures Reads(st, [Entry("maxOpenOrders", NumberText(p.maxOpenOrders as real))]
                      + ([Entry("maxOpenPositions", NumberText(p.maxOpenPositions as real))] + rest), end)
  {
    hide Reads, PlainNumber, Entry;
    ReadsNumber(ParserState(st.root["maxOpenOrders" := VNum(p.maxOpenOrders as real)], None),
                "maxOpenPositions", p.maxOpenPositions as real, rest, end);
    ReadsNumber(st, "maxOpenOrders", p.maxOpenOrders as real,
                [Entry("maxOpenPositions", NumberText(p.maxOpenPositions as real))] + rest, end);
  }

  lemma ReadsLimits(st: ParserState, p: Policy)
    requires BlockOpen(st) && PrintsPlainly(p)
    ensures Reads(st, LimitLines(p), ParserState(WithLimits(st.root, p), None))
  {
    hide Reads, PlainNumber, Entry, NumberText, WithAges, WithFractions, WithCounts;
    var counts := ParserState(WithCounts(st.root, p), None);
    var fractions := ParserState(WithFractions(counts.root, p), None);
    var end := ParserState(WithAges(fractions.root, p), None);
    var ages := [Entry("maxMarketDataAgeMs", NumberText(p.maxMarketDataAgeMs as real))]
                + ([Entry("maxOrderAgeSeconds", NumberText(p.maxOrderAgeSeconds as real))] + [""]);
    var losses := [Entry("maxDailyLossFraction", NumberText(p.maxDailyLossFraction))]
                + ([Entry("maxWeeklyLossFraction", NumberText(p.maxWeeklyLossFraction))]
                + ([Entry("maxRiskPerTradeFraction", NumberText(p.maxRiskPerTradeFraction))] + ages));
    ReadsBlank(end);
    ReadsAges(fractions, p, [""], end);
    ReadsFractions(counts, p, ages, end);
    ReadsCounts(st, p, losses, end);
    assert LimitLines(p) == [Entry("maxOpenOrders", NumberText(p.maxOpenOrders as real))]
                      + ([Entry("maxOpenPositions", NumberText(p.maxOpenPositions as real))] + losses);
  }

  function ExecutionFields(e: Execution): Fields {
    map["allowMarketOrders" := VBool(e.allowMarketOrders)]
       ["allowLeverage" := VBool(e.allowLeverage)]
       ["allowMargin" := VBool(e.allowMargin)]
       ["allowWithdrawals" := VBool(e.allowWithdrawals)]
       ["postOnlyByDefault" := VBool(e.postOnlyByDefault)]
  }

  function LiveFields(l: LiveLimits): Fields {
    map["requiresHumanApproval" := VBool(l.requiresHumanApproval)]
       ["maxAutonomousNotionalUsd" := VNum(l.maxAutonomousNotionalUsd)]
  }

  /** The state inside a block whose fields so far are `fields`. */
  function Inside(root: Fields, block: string, fields: Fields): ParserState {
    ParserState(root[block := VObj(fields)], Some(block))
  }

  lemma ReadsField(root: Fields, block: string, fields: Fields, key: string, text: string, v: Value,
                   rest: seq<string>, end: ParserState)
    requires PlainKey(key) && PlainText(text) && ParseScalar(text) == v
    requires Reads(Inside(root, block, fields[key := v]), rest, end)
    ensures Reads(Inside(root, block, fields), [Indented(key, text)] + rest, end)
  {
    hide Reads, PlainKey, PlainText, ParseScalar, Indented;
    var st := Inside(root, block, fields);
    var next := st.(root := st.root[block := VObj(BlockFields(st.root[block])[key := v])]);
    assert next.root == root[block := VObj(fields[key := v])];
    ReadsNested(st, block, key, text, v, rest, end);
  }

  /** The first field turns the empty list of a fresh block into an object. */
  lemma ReadsFirstField(st: ParserState, block: string, key: string, text: string, v: Value, rest: seq<string>,
                        end: ParserState)
    requires BlockOpen(st) && PlainKey(block) && PlainKey(key) && PlainText(text) && ParseScalar(text) == v
    requires Reads(Inside(st.root, block, map[key := v]), rest, end)
    ensures Reads(st, [block + ":"] + ([Indented(key, text)] + rest), end)
  {
    hide Reads, PlainKey, PlainText, ParseScalar, Indented, ParseLine;
    var open := ParserState(st.root[block := VList([])], Some(block));
    var next := open.(root := open.root[block := VObj(BlockFields(open.root[block])[key := v])]);
    assert next.root == st.root[block := VObj(map[key := v])];
    assert next == Inside(st.root, block, map[key := v]);
    ReadsNested(open, block, key, text, v, rest, end);
    TopBlock(st, block);
    ReadsStep(st, block + ":", open, [Indented(key, text)] + rest, end);
  }

  lemma ReadsExecution(st: ParserState, p: Policy)
    requires BlockOpen(st)
    ensures Reads(st, ExecutionLines(p), Inside(st.root, "execution", ExecutionFields(p.execution)))
  {
    hide Reads, PlainText, ParseScalar, Indented, Inside, PlainKey, BoolText;
    ExecutionKeys();
    var e, block := p.execution, "execution";
    var f1: Fields := map["allowMarketOrders" := VBool(e.allowMarketOrders)];
    var f2 := f1["allowLeverage" := VBool(e.allowLeverage)];
    var f3 := f2["allowMargin" := VBool(e.allowMargin)];
    var f4 := f3["allowWithdrawals" := VBool(e.allowWithdrawals)];
    var f5 := f4["postOnlyByDefault" := VBool(e.postOnlyByDefault)];
    var end := Inside(st.root, block, f5);
    BoolScalar(e.allowMarketOrders);
    BoolScalar(e.allowLeverage);
    BoolScalar(e.allowMargin);
    BoolScalar(e.allowWithdrawals);
    BoolScalar(e.postOnlyByDefault);
    InsideReads(st.root, block, f5);
    var l5 := [Indented("postOnlyByDefault", BoolText(e.postOnlyByDefault))] + [""];
    ReadsField(st.root, block, f4, "postOnlyByDefault", BoolText(e.postOnlyByDefault), VBool(e.postOnlyByDefault),
      [""], end);
    var l4 := [Indented("allowWithdrawals", BoolText(e.allowWithdrawals))] + l5;
    ReadsField(st.root, block, f3, "allowWithdrawals", BoolText(e.allowWithdrawals), VBool(e.allowWithdrawals), l5,
      end);
    var l3 := [Indented("allowMargin", BoolText(e.allowMargin))] + l4;
    ReadsField(st.root, block, f2, "allowMargin", BoolText(e.allowMargin), VBool(e.allowMargin), l4, end);
    var l2 := [Indented("allowLeverage", BoolText(e.allowLeverage))] + l3;
    ReadsField(st.root, block, f1, "allowLeverage", BoolText(e.allowLeverage), VBool(e.allowLeverage), l3, end);
    ReadsFirstField(st, block, "allowMarketOrders", BoolText(e.allowMarketOrders), VBool(e.allowMarketOrders), l2, end);
    assert block + ":" == "execution:";
    assert ExecutionLines(p) == ["execution:"] + ([Indented("allowMarketOrders", BoolText(e.allowMarketOrders))] + l2);
  }

  lemma InsideReads(root: Fields, block: string, fields: Fields)
    ensures Reads(Inside(root, block, fields), [""], Inside(root, block, fields))
  {
    ReadsBlank(Inside(root, block, fields));
  }

  lemma ReadsLive(st: ParserState, p: Policy)
    requires BlockOpen(st) && PrintsPlainly(p)
    ensures Reads(st, LiveLines(p), Inside(st.root, "live", LiveFields(p.live)))
  {
    hide Reads, PlainText, ParseScalar, Indented, Inside, PlainNumber, NumberText;
    var l, block := p.live, "live";
    var f1: Fields := map["requiresHumanApproval" := VBool(l.requiresHumanApproval)];
    var f2 := f1["maxAutonomousNotionalUsd" := VNum(l.maxAutonomousNotionalUsd)];
    var end := Inside(st.root, block, f2);
    BoolScalar(l.requiresHumanApproval);
    NumberScalar(l.maxAutonomousNotionalUsd);
    InsideReads(st.root, block, f2);
    var notional := NumberText(l.maxAutonomousNotionalUsd);
    ReadsField(st.root, block, f1, "maxAutonomousNotionalUsd", notional, VNum(l.maxAutonomousNotionalUsd), [""], end);
    ReadsFirstField(st, block, "requiresHumanApproval", BoolText(l.requiresHumanApproval),
      VBool(l.requiresHumanApproval),
                    [Indented("maxAutonomousNotionalUsd", notional)] + [""], end);
    assert block + ":" == "live:";
    assert LiveLines(p) == ["live:"] + ([Indented("requiresHumanApproval", BoolText(l.requiresHumanApproval))]
                                        + ([Indented("maxAutonomousNotionalUsd", notional)] + [""]));
  }

  /** What the parser builds from the printed policy, apart from the id. */
  function Encoded(f: Fields, p: Policy): Fields {
    WithLimits(WithMode(f, p)["allowedSymbols" := VList(SymbolValues(p.allowedSymbols))], p)
      ["execution" := VObj(ExecutionFields(p.execution))]["live" := VObj(LiveFields(p.live))]
  }

  lemma BoundedSymbols(p: Policy)
    requires WithinBounds(p)
    ensures p.allowedSymbols != [] && forall s :: s in p.allowedSymbols ==> Supported(s)
  {
    hide Supported, Trim;
  }

  lemma ReadsBlocks(st: ParserState, p: Policy)
    requires BlockOpen(st) && PrintsPlainly(p)
    ensures Reads(st, ExecutionLines(p) + LiveLines(p),
                  ParserState(st.root["execution" := VObj(ExecutionFields(p.execution))]["live" :=
                    VObj(LiveFields(p.live))], Some("live")))
  {
    hide Reads, PrintsPlainly, ExecutionLines, LiveLines, ExecutionFields, LiveFields, BlockOpen;
    var middle := Inside(st.root, "execution", ExecutionFields(p.execution));
    var end := Inside(middle.root, "live", LiveFields(p.live));
    InsideIsOpen(st.root, "execution", ExecutionFields(p.execution));
    ReadsExecution(st, p);
    ReadsLive(middle, p);
    ReadsConcat(st, ExecutionLines(p), middle, LiveLines(p), end);
  }

  lemma InsideIsOpen(root: Fields, block: string, fields: Fields)
    ensures BlockOpen(Inside(root, block, fields))
  {
  }

  lemma ClosedIsOpen(root: Fields)
    ensures BlockOpen(ParserState(root, None))
  {
  }

  lemma ReadsRest(st: ParserState, p: Policy)
    requires BlockOpen(st) && PrintsPlainly(p) && WithinBounds(p)
    ensures Reads(st, RestLines(p), ParserState(Encoded(st.root, p), Some("live")))
  {
    hide Reads, PrintsPlainly, LimitLines, ExecutionLines, LiveLines, SymbolLines, ModeLines, WithLimits, WithMode,
      SymbolValues,
         ExecutionFields, LiveFields, Supported, WithinBounds, BlockOpen;
    BoundedSymbols(p);
    var s1 := ParserState(WithMode(st.root, p), None);
    var s2 := ParserState(s1.root["allowedSymbols" := VList(SymbolValues(p.allowedSymbols))], Some("allowedSymbols"));
    var s3 := ParserState(WithLimits(s2.root, p), None);
    var end := ParserState(Encoded(st.root, p), Some("live"));
    ClosedIsOpen(s1.root);
    ReadsMode(st, p);
    ReadsSymbols(s1, p);
    assert BlockOpen(s2) by { ReadsEndsOpen(s1, SymbolLines(p), s2); }
    ReadsLimits(s2, p);
    ClosedIsOpen(s3.root);
    ReadsBlocks(s3, p);
    var blocks := ExecutionLines(p) + LiveLines(p);
    ReadsConcat(s2, LimitLines(p), s3, blocks, end);
    ReadsConcat(s1, SymbolLines(p), s2, LimitLines(p) + blocks, end);
    ReadsConcat(st, ModeLines(p), s1, SymbolLines(p) + (LimitLines(p) + blocks), end);
  }

  lemma ReadsEndsOpen(st: ParserState, lines: seq<string>, end: ParserState)
    requires Reads(st, lines, end)
    ensures BlockOpen(end)
  {
    hide BlockOpen;
  }

  // ------------------------------------------------------------------ validating what was read

  lemma PolicyKeysDiffer()
    ensures |"id"| == 2 && |"enabled"| == 7 && |"mode"| == 4 && "mode"[0] == 'm' && |"allowedSymbols"| == 14
    ensures |"maxOpenOrders"| == 13 && |"maxOpenPositions"| == 16 && |"maxDailyLossFraction"| == 20
    ensures |"maxWeeklyLossFraction"| == 21 && |"maxRiskPerTradeFraction"| == 23
    ensures |"maxMarketDataAgeMs"| == 18 && "maxMarketDataAgeMs"[3] == 'M'
    ensures |"maxOrderAgeSeconds"| == 18 && "maxOrderAgeSeconds"[3] == 'O'
    ensures |"execution"| == 9 && |"live"| == 4 && "live"[0] == 'l'
  {
  }

  /** The fields that the validator looks up, each with the value printed for it. */
  ghost predicate Holds(f: Fields, v: Value, p: Policy) {
    && f.Keys == POLICY_KEYS && f["id"] == v
    && f["enabled"] == VBool(p.enabled) && f["mode"] == VStr(ModeText(p.mode))
    && f["allowedSymbols"] == VList(SymbolValues(p.allowedSymbols))
    && f["maxOpenOrders"] == VNum(p.maxOpenOrders as real) && f["maxOpenPositions"] == VNum(p.maxOpenPositions as real)
    && f["maxDailyLossFraction"] == VNum(p.maxDailyLossFraction)
    && f["maxWeeklyLossFraction"] == VNum(p.maxWeeklyLossFraction)
    && f["maxRiskPerTradeFraction"] == VNum(p.maxRiskPerTradeFraction)
    && f["maxMarketDataAgeMs"] == VNum(p.maxMarketDataAgeMs as real)
    && f["maxOrderAgeSeconds"] == VNum(p.maxOrderAgeSeconds as real)
    && f["execution"] == VObj(ExecutionFields(p.execution)) && f["live"] == VObj(LiveFields(p.live))
  }

  lemma EncodedKeys(v: Value, p: Policy)
    ensures Encoded(map["id" := v], p).Keys == POLICY_KEYS
  {
    hide SymbolValues, ExecutionFields, LiveFields, ModeText;
  }

  lemma EncodedHead(v: Value, p: Policy)
    ensures var f := Encoded(map["id" := v], p);
      && "id" in f && "enabled" in f && "mode" in f && "allowedSymbols" in f
      && f["id"] == v && f["enabled"] == VBool(p.enabled) && f["mode"] == VStr(ModeText(p.mode))
      && f["allowedSymbols"] == VList(SymbolValues(p.allowedSymbols))
  {
    hide SymbolValues, ExecutionFields, LiveFields, ModeText;
    PolicyKeysDiffer();
  }

  lemma EncodedCounts(v: Value, p: Policy)
    ensures var f := Encoded(map["id" := v], p);
      && "maxOpenOrders" in f && "maxOpenPositions" in f && "maxDailyLossFraction" in f && "maxWeeklyLossFraction" in f
      && f["maxOpenOrders"] == VNum(p.maxOpenOrders as real)
      && f["maxOpenPositions"] == VNum(p.maxOpenPositions as real)
      && f["maxDailyLossFraction"] == VNum(p.maxDailyLossFraction)
      && f["maxWeeklyLossFraction"] == VNum(p.maxWeeklyLossFraction)
  {
    hide SymbolValues, ExecutionFields, LiveFields, ModeText, WithMode;
    PolicyKeysDiffer();
  }

  lemma EncodedTail(v: Value, p: Policy)
    ensures var f := Encoded(map["id" := v], p);
      && "maxRiskPerTradeFraction" in f && "maxMarketDataAgeMs" in f && "maxOrderAgeSeconds" in f
      && "execution" in f && "live" in f
      && f["maxRiskPerTradeFraction"] == VNum(p.maxRiskPerTradeFraction)
      && f["maxMarketDataAgeMs"] == VNum(p.maxMarketDataAgeMs as real)
      && f["maxOrderAgeSeconds"] == VNum(p.maxOrderAgeSeconds as real)
      && f["execution"] == VObj(ExecutionFields(p.execution)) && f["live"] == VObj(LiveFields(p.live))
  {
    hide SymbolValues, ExecutionFields, LiveFields, ModeText, WithMode, WithCounts;
    PolicyKeysDiffer();
  }

  lemma EncodedHolds(v: Value, p: Policy)
    ensures Holds(Encoded(map["id" := v], p), v, p)
  {
    hide SymbolValues, ExecutionFields, LiveFields, ModeText, Encoded;
    EncodedKeys(v, p);
    EncodedHead(v, p);
    EncodedCounts(v, p);
    EncodedTail(v, p);
  }

  lemma ExecutionFieldsHold(e: Execution)
    ensures var f := ExecutionFields(e);
      && f.Keys == EXECUTION_KEYS
      && f["allowMarketOrders"] == VBool(e.allowMarketOrders) && f["allowLeverage"] == VBool(e.allowLeverage)
      && f["allowMargin"] == VBool(e.allowMargin) && f["allowWithdrawals"] == VBool(e.allowWithdrawals)
      && f["postOnlyByDefault"] == VBool(e.postOnlyByDefault)
  {
    assert |"allowMarketOrders"| == 17 && |"allowLeverage"| == 13 && |"allowMargin"| == 11;
    assert |"allowWithdrawals"| == 16 && |"postOnlyByDefault"| == 17 && "postOnlyByDefault"[0] == 'p' &&
      "allowMarketOrders"[0] == 'a';
  }

  lemma LiveFieldsHold(l: LiveLimits)
    ensures var f := LiveFields(l);
      && f.Keys == LIVE_KEYS && f["requiresHumanApproval"] == VBool(l.requiresHumanApproval)
      && f["maxAutonomousNotionalUsd"] == VNum(l.maxAutonomousNotionalUsd)
  {
    assert |"requiresHumanApproval"| == 21 && |"maxAutonomousNotionalUsd"| == 24;
  }

  lemma {:induction false} StringsOfSymbols(symbols: seq<string>)
    ensures Strings(SymbolValues(symbols)) == symbols
    decreases |symbols|
  {
    if symbols != [] {
      assert SymbolValues(symbols)[1..] == SymbolValues(symbols[1..]);
      StringsOfSymbols(symbols[1..]);
    }
  }

  lemma SymbolsValidate(f: Fields, v: Value, p: Policy)
    requires Holds(f, v, p) && WithinBounds(p)
    ensures SymbolErrors(f) == {} && SymbolList(f).Some? && Strings(SymbolList(f).value) == p.allowedSymbols
  {
    hide Supported, Strings, ExecutionFields, LiveFields, ModeText;
    StringsOfSymbols(p.allowedSymbols);
    assert "allowedSymbols" in POLICY_KEYS;
    assert SymbolList(f) == Some(SymbolValues(p.allowedSymbols));
    assert (set symbol | symbol in p.allowedSymbols && !Supported(symbol) :: UnsupportedSymbol(symbol)) == {};
  }

  lemma ExecutionValidates(f: Fields, v: Value, p: Policy)
    requires Holds(f, v, p) && WithinBounds(p)
    ensures ExecutionErrors(f) == {} && ReadExecution(f) == p.execution
  {
    hide ExecutionFields, LiveFields, SymbolValues, ModeText, Trim, Supported;
    ExecutionFieldsHold(p.execution);
    var e := ExecutionFields(p.execution);
    assert ObjectField(f, "execution") == Some(e);
    hide Holds, WithinBounds;
    assert UnknownErrors(e, EXECUTION_KEYS, "execution.") == {};
  }

  lemma LiveValidates(f: Fields, v: Value, p: Policy)
    requires Holds(f, v, p) && WithinBounds(p)
    ensures LiveErrors(f) == {} && ReadLive(f) == p.live
  {
    hide ExecutionFields, LiveFields, SymbolValues, ModeText, Trim, Supported;
    LiveFieldsHold(p.live);
    var l := LiveFields(p.live);
    assert ObjectField(f, "live") == Some(l);
    assert UnknownErrors(l, LIVE_KEYS, "live.") == {};
  }

  lemma NumbersValidate(f: Fields, v: Value, p: Policy)
    requires Holds(f, v, p) && WithinBounds(p)
    ensures NumberFieldErrors(f) == {}
    ensures NumberField(f, "maxOpenOrders", 0.0, Some(MAX_OPEN_ORDERS as real), true) == p.maxOpenOrders as real
    ensures NumberField(f, "maxOpenPositions", 0.0, Some(MAX_OPEN_POSITIONS as real),
      true) == p.maxOpenPositions as real
    ensures NumberField(f, "maxDailyLossFraction", 0.0, Some(1.0), false) == p.maxDailyLossFraction
    ensures NumberField(f, "maxWeeklyLossFraction", 0.0, Some(1.0), false) == p.maxWeeklyLossFraction
    ensures NumberField(f, "maxRiskPerTradeFraction", 0.0, Some(1.0), false) == p.maxRiskPerTradeFraction
    ensures NumberField(f, "maxMarketDataAgeMs", 1.0, None, true) == p.maxMarketDataAgeMs as real
    ensures NumberField(f, "maxOrderAgeSeconds", 1.0, None, true) == p.maxOrderAgeSeconds as real
  {
    hide ExecutionFields, LiveFields, SymbolValues, ModeText, Trim, Supported;
  }

  lemma ModeValidates(f: Fields, v: Value, p: Policy)
    requires Holds(f, v, p)
    ensures GoodMode(f) && (f["mode"] == VStr("live") <==> p.mode == Live)
    ensures BoolErrors(f, "enabled") == {} && BoolField(f, "enabled") == p.enabled &&
      UnknownErrors(f, POLICY_KEYS, "") == {}
  {
    hide ExecutionFields, LiveFields, SymbolValues;
    assert |"paper"| == 5 && |"live"| == 4;
  }

  /** The validator accepts the printed policy and returns it exactly when the id was read as the policy's id. */
  lemma ValidatesIff(f: Fields, v: Value, p: Policy)
    requires Holds(f, v, p) && WithinBounds(p)
    ensures Validated(VObj(f)) == LoadedPolicy(p, ProjectFile, true, {}) <==> v.VStr? && Trim(v.s) == p.id
  {
    hide UnknownErrors, SymbolErrors, NumberFieldErrors, ExecutionErrors, LiveErrors, BoolErrors, BoolField,
      NumberField,
         SymbolList, ReadExecution, ReadLive, Strings, Trim, ExecutionFields, LiveFields, SymbolValues, GoodMode,
           ModeText, Supported;
    SymbolsValidate(f, v, p);
    ExecutionValidates(f, v, p);
    LiveValidates(f, v, p);
    NumbersValidate(f, v, p);
    ModeValidates(f, v, p);
    assert "id" in f && f["id"] == v && "mode" in f;
    assert p.id != "";
    hide Holds, WithinBounds;
    assert FieldErrors(f) == if GoodId(f) then {} else {BadId};
    if GoodId(f) {
      assert ReadPolicy(f).(id := p.id) == p;
    }
  }
}
