/** The policy file: a line parser for a YAML subset, a fail-closed validator, and the printer. */
module PolicyLoader {
  import opened Basics
  import opened JsStrings
  import opened TradingTypes

  const MAX_OPEN_ORDERS := 5
  const MAX_OPEN_POSITIONS := 5

  datatype Value =
    | VBool(b: bool) | VNull | VNum(n: real) | VStr(s: string) | VList(items: seq<Value>) | VObj(fields: map<string,
      Value>)

  type Fields = map<string, Value>

  datatype ParseError =
    | TopLevelArray | ExpectedKeyValue | UnexpectedIndentation | OnlyTwoSpaces | NotAList | ExpectedNestedKeyValue

  datatype Parsed<+T> = Ok(value: T) | Err(error: ParseError) {
    predicate IsFailure() { Err? }
    function PropagateFailure<U>(): Parsed<U> requires Err? { Err(error) }
    function Extract(): T requires Ok? { value }
  }

  // ------------------------------------------------------------------ scanning

  function CountAlias(key: string): Option<string> {
    if key == "allowed_symbols" then Some("allowedSymbols")
    else if key == "max_open_orders" then Some("maxOpenOrders")
    else if key == "max_open_positions" then Some("maxOpenPositions")
    else None
  }

  function LimitAlias(key: string): Option<string> {
    if key == "max_daily_loss_fraction" then Some("maxDailyLossFraction")
    else if key == "max_weekly_loss_fraction" then Some("maxWeeklyLossFraction")
    else if key == "max_risk_per_trade_fraction" then Some("maxRiskPerTradeFraction")
    else None
  }

  function AgeAlias(key: string): Option<string> {
    if key == "max_market_data_age_ms" then Some("maxMarketDataAgeMs")
    else if key == "max_order_age_seconds" then Some("maxOrderAgeSeconds")
    else None
  }

  function ExecutionAlias(key: string): Option<string> {
    if key == "allow_market_orders" then Some("allowMarketOrders")
    else if key == "allow_leverage" then Some("allowLeverage")
    else if key == "allow_margin" then Some("allowMargin")
    else if key == "allow_withdrawals" then Some("allowWithdrawals")
    else if key == "post_only_by_default" then Some("postOnlyByDefault")
    else None
  }

  function LiveAlias(key: string): Option<string> {
    if key == "requires_human_approval" then Some("requiresHumanApproval")
    else if key == "max_autonomous_notional_usd" then Some("maxAutonomousNotionalUsd")
    else None
  }

  /** The snake_case spelling of a known field, or the key itself. */
  function CanonicalKey(key: string): string {
    if CountAlias(key).Some? then CountAlias(key).value
    else if LimitAlias(key).Some? then LimitAlias(key).value
    else if AgeAlias(key).Some? then AgeAlias(key).value
    else if ExecutionAlias(key).Some? then ExecutionAlias(key).value
    else if LiveAlias(key).Some? then LiveAlias(key).value
    else key
  }

  /** The quote state after character `i`: a quote not preceded by a backslash opens or closes. */
  function QuoteAfter(line: string, i: nat, quoted: Option<char>): Option<char>
    requires i < |line|
  {
    var c := line[i];
    if (c == '"' || c == '\'') && !(i > 0 && line[i - 1] == '\\') then
      if quoted == Some(c) then None else if quoted.Some? then quoted else Some(c)
    else quoted
  }

  /** Position of the first `#` outside quotes at or after `i`, or the length of the line. */
  function CommentStart(line: string, i: nat, quoted: Option<char>): (at: nat)
    requires i <= |line|
    ensures i <= at <= |line|
    ensures at < |line| ==> line[at] == '#'
    decreases |line| - i
  {
    if i == |line| then i
    else
      var q := QuoteAfter(line, i, quoted);
      if line[i] == '#' && q.None? then i else CommentStart(line, i + 1, q)
  }

  function WithoutComment(line: string): string {
    line[..CommentStart(line, 0, None)]
  }

  method StripComment(line: string) returns (kept: string)
    ensures kept == WithoutComment(line)
  {
    var quoted: Option<char> := None;
    var i := 0;
    while i < |line|
      invariant i <= |line|
      invariant CommentStart(line, i, quoted) == CommentStart(line, 0, None)
    {
      var c := line[i];
      if (c == '"' || c == '\'') && !(i > 0 && line[i - 1] == '\\') {
        quoted := if quoted == Some(c) then None else if quoted.Some? then quoted else Some(c);
      }
      if c == '#' && quoted.None? {
        return line[..i];
      }
      i := i + 1;
    }
    return line;
  }

  function IndexOf(s: string, c: char): (at: nat)
    ensures at <= |s|
    ensures at < |s| ==> s[at] == c
    ensures forall j :: 0 <= j < at ==> s[j] != c
  {
    if s == [] || s[0] == c then 0 else 1 + IndexOf(s[1..], c)
  }

  predicate StartsWith(s: string, prefix: string) {
    |prefix| <= |s| && s[..|prefix|] == prefix
  }

  predicate IsDigit(c: char) { '0' <= c <= '9' }

  predicate AllDigits(s: string) {
    s != [] && forall c :: c in s ==> IsDigit(c)
  }

  function DigitValue(c: char): nat
    requires IsDigit(c)
  {
    (c as int) - ('0' as int)
  }

  function WholeValue(s: string): nat
    requires forall c :: c in s ==> IsDigit(c)
  {
    if s == [] then 0 else 10 * WholeValue(s[..|s| - 1]) + DigitValue(s[|s| - 1])
  }

  function FractionValue(s: string): real
    requires forall c :: c in s ==> IsDigit(c)
  {
    if s == [] then 0.0 else (DigitValue(s[0]) as real + FractionValue(s[1..])) / 10.0
  }

  /** The pattern `^\d+(\.\d+)?$`. */
  predicate IsUnsignedNumber(s: string) {
    var dot := IndexOf(s, '.');
    AllDigits(s[..dot]) && (dot < |s| ==> AllDigits(s[dot + 1..]))
  }

  function UnsignedNumber(s: string): real
    requires IsUnsignedNumber(s)
  {
    var dot := IndexOf(s, '.');
    WholeValue(s[..dot]) as real + (if dot < |s| then FractionValue(s[dot + 1..]) else 0.0)
  }

  /** `slice(1, -1)` */
  function Inner(s: string): string {
    if |s| < 2 then "" else s[1..|s| - 1]
  }

  predicate Enclosed(s: string, left: char, right: char) {
    s != [] && s[0] == left && s[|s| - 1] == right
  }

  function ParseScalar(text: string): Value
    decreases |text|, 0
  {
    hide Trim, IsUnsignedNumber, UnsignedNumber;
    TrimSpec(text);
    var v := Trim(text);
    if v == "true" then VBool(true)
    else if v == "false" then VBool(false)
    else if v == "null" then VNull
    else if IsUnsignedNumber(v) then VNum(UnsignedNumber(v))
    else if v != [] && v[0] == '-' && IsUnsignedNumber(v[1..]) then VNum(-UnsignedNumber(v[1..]))
    else if Enclosed(v, '[', ']') then
      TrimSpec(Inner(v));
      var inner := Trim(Inner(v));
      if inner == [] then VList([]) else VList(ParseParts(inner))
    else if Enclosed(v, '"', '"') || Enclosed(v, '\'', '\'') then VStr(Inner(v))
    else VStr(v)
  }

  /** `inner.split(",").map(parseScalar)` */
  function ParseParts(s: string): seq<Value>
    decreases |s|, 1
  {
    var comma := IndexOf(s, ',');
    TrimSpec(s);
    TrimSpec(s[..comma]);
    if comma == |s| then [ParseScalar(Trim(s))]
    else [ParseScalar(Trim(s[..comma]))] + ParseParts(s[comma + 1..])
  }

  // ------------------------------------------------------------------ lines

  predicate IsLineTerminator(c: char) {
    c == '\n' || c == '\r' || c == '\U{2028}' || c == '\U{2029}'
  }

  /** `/^([^:]+):(.*)$/`: the dot does not match line terminators. */
  function MatchKeyValue(trimmed: string): Option<(string, string)> {
    var colon := IndexOf(trimmed, ':');
    if 0 < colon < |trimmed| && forall c :: c in trimmed[colon + 1..] ==> !IsLineTerminator(c)
    then Some((CanonicalKey(Trim(trimmed[..colon])), Trim(trimmed[colon + 1..])))
    else None
  }

  function Indent(s: string): nat {
    if s != [] && s[0] == ' ' then 1 + Indent(s[1..]) else 0
  }

  datatype ParserState = ParserState(root: Fields, current: Option<string>)

  /** The key whose block is open always holds a list or an object. */
  predicate BlockOpen(st: ParserState) {
    st.current.Some? ==>
      st.current.value in st.root && (st.root[st.current.value].VList? || st.root[st.current.value].VObj?)
  }

  function ParseTop(st: ParserState, trimmed: string): (r: Parsed<ParserState>)
    ensures r.Ok? ==> BlockOpen(r.value)
  {
    if StartsWith(trimmed, "- ") then Err(TopLevelArray)
    else
      match MatchKeyValue(trimmed)
      case None => Err(ExpectedKeyValue)
      case Some((key, rest)) =>
        if rest == "" then Ok(ParserState(st.root[key := VList([])], Some(key)))
        else Ok(ParserState(st.root[key := ParseScalar(rest)], None))
  }

  function ParseNested(st: ParserState, trimmed: string): (r: Parsed<ParserState>)
    requires BlockOpen(st) && st.current.Some?
    ensures r.Ok? ==> BlockOpen(r.value)
  {
    var block := st.root[st.current.value];
    if StartsWith(trimmed, "- ") then
      if !block.VList? then Err(NotAList)
      else Ok(st.(root := st.root[st.current.value := VList(block.items + [ParseScalar(trimmed[2..])])]))
    else
      match MatchKeyValue(trimmed)
      case None => Err(ExpectedNestedKeyValue)
      case Some((key, rest)) =>
        var fields := if block.VList? then map[] else block.fields;
        Ok(st.(root := st.root[st.current.value := VObj(fields[key := ParseScalar(rest)])]))
  }

  function ParseContent(st: ParserState, raw: string): (r: Parsed<ParserState>)
    requires BlockOpen(st)
    ensures r.Ok? ==> BlockOpen(r.value)
  {
    var trimmed := Trim(raw);
    if trimmed == "" then Ok(st)
    else if Indent(raw) == 0 then ParseTop(st, trimmed)
    else if st.current.None? then Err(UnexpectedIndentation)
    else if Indent(raw) != 2 then Err(OnlyTwoSpaces)
    else ParseNested(st, trimmed)
  }

  function ParseLine(st: ParserState, line: string): (r: Parsed<ParserState>)
    requires BlockOpen(st)
    ensures r.Ok? ==> BlockOpen(r.value)
  {
    ParseContent(st, WithoutComment(line))
  }

  function ParseLines(st: ParserState, lines: seq<string>): (r: Parsed<ParserState>)
    requires BlockOpen(st)
    ensures r.Ok? ==> BlockOpen(r.value)
    decreases |lines|
  {
    hide ParseLine;
    if lines == [] then Ok(st)
    else
      var next :- ParseLine(st, lines[0]);
      ParseLines(next, lines[1..])
  }

  /** `text.replace(/\r\n/g, "\n")` */
  function NormalizeNewlines(text: string): string {
    if text == [] then []
    else if StartsWith(text, "\r\n") then "\n" + NormalizeNewlines(text[2..])
    else [text[0]] + NormalizeNewlines(text[1..])
  }

  /** `text.split("\n")` */
  function SplitLines(text: string): (lines: seq<string>)
    ensures lines != []
  {
    var end := IndexOf(text, '\n');
    if end == |text| then [text] else [text[..end]] + SplitLines(text[end + 1..])
  }

  const START := ParserState(map[], None)

  function ParseYaml(text: string): Parsed<Fields> {
    var st :- ParseLines(START, SplitLines(NormalizeNewlines(text)));
    Ok(st.root)
  }

  /** The original's loop over the lines, updating the root and the open key. */
  method ParsePolicyYaml(text: string) returns (r: Parsed<Fields>)
    ensures r == ParseYaml(text)
  {
    hide CanonicalKey, ParseScalar, MatchKeyValue, WithoutComment, Indent, Trim, NormalizeNewlines;
    var root: Fields, currentKey: Option<string> := map[], None;
    var lines := SplitLines(NormalizeNewlines(text));
    var lineNumber := 0;
    while lineNumber < |lines|
      invariant lineNumber <= |lines|
      invariant BlockOpen(ParserState(root, currentKey))
      invariant ParseLines(ParserState(root, currentKey), lines[lineNumber..]) == ParseLines(START, lines)
    {
      ghost var before := ParserState(root, currentKey);
      assert lines[lineNumber..][1..] == lines[lineNumber + 1..];
      var raw := StripComment(lines[lineNumber]);
      assert ParseLine(before, lines[lineNumber]) == ParseContent(before, raw);
      lineNumber := lineNumber + 1;
      var trimmed := Trim(raw);
      if trimmed == "" { continue; }
      var indent := Indent(raw);
      if indent == 0 {
        if StartsWith(trimmed, "- ") { return Err(TopLevelArray); }
        var found := MatchKeyValue(trimmed);
        if found.None? { return Err(ExpectedKeyValue); }
        var (key, rest) := found.value;
        if rest == "" {
          currentKey := Some(key);
          root := root[key := VList([])];
        } else {
          currentKey := None;
          root := root[key := ParseScalar(rest)];
        }
        continue;
      }
      if currentKey.None? { return Err(UnexpectedIndentation); }
      if indent != 2 { return Err(OnlyTwoSpaces); }
      var open := currentKey.value;
      if StartsWith(trimmed, "- ") {
        if !root[open].VList? { return Err(NotAList); }
        root := root[open := VList(root[open].items + [ParseScalar(trimmed[2..])])];
        continue;
      }
      var found := MatchKeyValue(trimmed);
      if found.None? { return Err(ExpectedNestedKeyValue); }
      var (key, rest) := found.value;
      if root[open].VList? { root := root[open := VObj(map[])]; }
      root := root[open := VObj(root[open].fields[key := ParseScalar(rest)])];
      ghost var fields := if before.root[open].VList? then map[] else before.root[open].fields;
      assert root == before.root[open := VObj(fields[key := ParseScalar(rest)])];
    }
    return Ok(root);
  }

  // ------------------------------------------------------------------ validation

  const POLICY_KEYS: set<string> := {
    "id", "enabled", "mode", "allowedSymbols", "maxOpenOrders", "maxOpenPositions", "maxDailyLossFraction",
    "maxWeeklyLossFraction", "maxRiskPerTradeFraction", "maxMarketDataAgeMs", "maxOrderAgeSeconds", "execution", "live"}
  const EXECUTION_KEYS: set<string> := {
    "allowMarketOrders", "allowLeverage", "allowMargin", "allowWithdrawals", "postOnlyByDefault"}
  const LIVE_KEYS: set<string> := {"requiresHumanApproval", "maxAutonomousNotionalUsd"}

  predicate Supported(symbol: string) { symbol == "BTC/USD" || symbol == "ETH/USD" }

  predicate IsInteger(x: real) { x == x.Floor as real }

  function BoolField(f: Fields, key: string): bool {
    key in f && f[key] == VBool(true)
  }

  function BoolErrors(f: Fields, key: string): set<PolicyError> {
    if key in f && f[key].VBool? then {} else {NotBoolean(key)}
  }

  predicate NumberInRange(f: Fields, key: string, min: real, max: Option<real>, integer: bool) {
    && key in f && f[key].VNum? && f[key].n >= min
    && (max.Some? ==> f[key].n <= max.value) && (integer ==> IsInteger(f[key].n))
  }

  function NumberField(f: Fields, key: string, min: real, max: Option<real>, integer: bool): real {
    if NumberInRange(f, key, min, max, integer) then f[key].n else 0.0
  }

  function NumberErrors(f: Fields, key: string, min: real, max: Option<real>, integer: bool): set<PolicyError> {
    if NumberInRange(f, key, min, max, integer) then {} else {NotNumberInRange(key)}
  }

  function UnknownErrors(f: Fields, allowed: set<string>, prefix: string): set<PolicyError> {
    set key | key in f && key !in allowed :: UnknownField(prefix + key)
  }

  function Strings(items: seq<Value>): (r: seq<string>)
    ensures |r| <= |items|
    ensures |r| == |items| <==> forall v :: v in items ==> v.VStr?
  {
    if items == [] then []
    else
      assert items == [items[0]] + items[1..];
      (if items[0].VStr? then [items[0].s] else []) + Strings(items[1..])
  }

  function SymbolList(f: Fields): Option<seq<Value>> {
    if "allowedSymbols" in f && f["allowedSymbols"].VList? && f["allowedSymbols"].items != [] then
      Some(f["allowedSymbols"].items)
    else None
  }

  function SymbolErrors(f: Fields): set<PolicyError> {
    match SymbolList(f)
    case None => {SymbolsNotArray}
    case Some(items) =>
      (if |Strings(items)| != |items| then {SymbolsNotStrings} else {})
      + (set symbol | symbol in Strings(items) && !Supported(symbol) :: UnsupportedSymbol(symbol))
  }

  function ObjectField(f: Fields, key: string): Option<Fields> {
    if key in f && f[key].VObj? then Some(f[key].fields) else None
  }

  predicate GoodId(f: Fields) {
    "id" in f && f["id"].VStr? && Trim(f["id"].s) != ""
  }

  predicate GoodMode(f: Fields) {
    "mode" in f && (f["mode"] == VStr("paper") || f["mode"] == VStr("live"))
  }

  function NumberFieldErrors(f: Fields): set<PolicyError> {
    NumberErrors(f, "maxOpenOrders", 0.0, Some(MAX_OPEN_ORDERS as real), true)
    + NumberErrors(f, "maxOpenPositions", 0.0, Some(MAX_OPEN_POSITIONS as real), true)
    + NumberErrors(f, "maxDailyLossFraction", 0.0, Some(1.0), false)
    + NumberErrors(f, "maxWeeklyLossFraction", 0.0, Some(1.0), false)
    + NumberErrors(f, "maxRiskPerTradeFraction", 0.0, Some(1.0), false)
    + NumberErrors(f, "maxMarketDataAgeMs", 1.0, None, true)
    + NumberErrors(f, "maxOrderAgeSeconds", 1.0, None, true)
  }

  function ExecutionFieldErrors(e: Fields): set<PolicyError> {
    BoolErrors(e, "allowMarketOrders") + BoolErrors(e, "allowLeverage") + BoolErrors(e, "allowMargin")
    + BoolErrors(e, "allowWithdrawals") + BoolErrors(e, "postOnlyByDefault")
    + (if BoolField(e, "allowMarketOrders") then {MarketOrdersBlocked} else {})
    + (if BoolField(e, "allowLeverage") then {LeverageBlocked} else {})
    + (if BoolField(e, "allowMargin") then {MarginBlocked} else {})
    + (if BoolField(e, "allowWithdrawals") then {WithdrawalsBlocked} else {})
  }

  function ExecutionErrors(f: Fields): set<PolicyError> {
    match ObjectField(f, "execution")
    case None => {MustBeObject("execution")}
    case Some(e) => UnknownErrors(e, EXECUTION_KEYS, "execution.") + ExecutionFieldErrors(e)
  }

  function LiveFieldErrors(l: Fields): set<PolicyError> {
    BoolErrors(l, "requiresHumanApproval") + NumberErrors(l, "maxAutonomousNotionalUsd", 0.0, None, false)
  }

  function LiveErrors(f: Fields): set<PolicyError> {
    match ObjectField(f, "live")
    case None => {MustBeObject("live")}
    case Some(l) => UnknownErrors(l, LIVE_KEYS, "live.") + LiveFieldErrors(l)
  }

  function FieldErrors(f: Fields): set<PolicyError> {
    UnknownErrors(f, POLICY_KEYS, "")
    + (if GoodId(f) then {} else {BadId})
    + BoolErrors(f, "enabled")
    + (if GoodMode(f) then {} else {BadMode})
    + SymbolErrors(f) + NumberFieldErrors(f) + ExecutionErrors(f) + LiveErrors(f)
  }

  function ReadExecution(f: Fields): Execution {
    match ObjectField(f, "execution")
    case None => DEFAULT_POLICY.execution
    case Some(e) =>
      Execution(BoolField(e, "allowMarketOrders"), BoolField(e, "allowLeverage"), BoolField(e, "allowMargin"),
                BoolField(e, "allowWithdrawals"), BoolField(e, "postOnlyByDefault"))
  }

  function ReadLive(f: Fields): LiveLimits {
    match ObjectField(f, "live")
    case None => DEFAULT_POLICY.live
    case Some(l) => LiveLimits(BoolField(l, "requiresHumanApproval"),
      NumberField(l, "maxAutonomousNotionalUsd", 0.0, None, false))
  }

  function ReadPolicy(f: Fields): Policy {
    Policy(
      if GoodId(f) then Trim(f["id"].s) else DEFAULT_POLICY.id,
      BoolField(f, "enabled"),
      if GoodMode(f) then (if f["mode"] == VStr("live") then Live else Paper) else DEFAULT_POLICY.mode,
      if SymbolList(f).Some? then Strings(SymbolList(f).value) else DEFAULT_POLICY.allowedSymbols,
      NumberField(f, "maxOpenOrders", 0.0, Some(MAX_OPEN_ORDERS as real), true).Floor,
      NumberField(f, "maxOpenPositions", 0.0, Some(MAX_OPEN_POSITIONS as real), true).Floor,
      NumberField(f, "maxDailyLossFraction", 0.0, Some(1.0), false),
      NumberField(f, "maxWeeklyLossFraction", 0.0, Some(1.0), false),
      NumberField(f, "maxRiskPerTradeFraction", 0.0, Some(1.0), false),
      NumberField(f, "maxMarketDataAgeMs", 1.0, None, true).Floor,
      NumberField(f, "maxOrderAgeSeconds", 1.0, None, true).Floor,
      ReadExecution(f), ReadLive(f))
  }

  function Validated(value: Value): LoadedPolicy {
    var errors := if value.VObj? then FieldErrors(value.fields) else {NotAnObject};
    var policy := if value.VObj? then ReadPolicy(value.fields) else DEFAULT_POLICY;
    LoadedPolicy(if errors == {} then policy else policy.(enabled := false), ProjectFile, errors == {}, errors)
  }

  method RejectUnknown(f: Fields, allowed: set<string>, prefix: string, pushed: set<PolicyError>)
    returns (errors: set<PolicyError>)
    ensures errors == pushed + UnknownErrors(f, allowed, prefix)
  {
    errors := pushed;
    var remaining := f.Keys;
    while remaining != {}
      invariant remaining <= f.Keys
      invariant errors == pushed + set key | key in f && key !in remaining && key !in allowed ::
        UnknownField(prefix + key)
    {
      var key :| key in remaining;
      remaining := remaining - {key};
      if key !in allowed { errors := errors + {UnknownField(prefix + key)}; }
    }
  }

  method RequireObject(f: Fields, key: string, allowed: set<string>, prefix: string, pushed: set<PolicyError>)
    returns (errors: set<PolicyError>)
    ensures errors == pushed + match ObjectField(f, key)
                               case None => {MustBeObject(key)}
                               case Some(fields) => UnknownErrors(fields, allowed, prefix)
  {
    hide UnknownErrors;
    var field := ObjectField(f, key);
    if field.None? {
      errors := pushed + {MustBeObject(key)};
    } else {
      errors := RejectUnknown(field.value, allowed, prefix, pushed);
    }
  }

  method RequiredBoolean(f: Fields, key: string, pushed: set<PolicyError>)
    returns (value: bool, errors: set<PolicyError>)
    ensures value == BoolField(f, key) && errors == pushed + BoolErrors(f, key)
  {
    if key !in f || !f[key].VBool? { return false, pushed + {NotBoolean(key)}; }
    return f[key].b, pushed;
  }

  method RequiredNumber(f: Fields, key: string, pushed: set<PolicyError>, min: real, max: Option<real>, integer: bool)
    returns (value: real, errors: set<PolicyError>)
    ensures value == NumberField(f, key, min, max, integer) &&
      errors == pushed + NumberErrors(f, key, min, max, integer)
  {
    if key in f && f[key].VNum? {
      var n := f[key].n;
      if n >= min && (max.None? || n <= max.value) && (!integer || IsInteger(n)) { return n, pushed; }
    }
    return 0.0, pushed + {NotNumberInRange(key)};
  }

  method RejectUnsupported(symbols: seq<string>, pushed: set<PolicyError>) returns (errors: set<PolicyError>)
    ensures errors == pushed + set symbol | symbol in symbols && !Supported(symbol) :: UnsupportedSymbol(symbol)
  {
    hide Supported;
    errors := pushed;
    for i := 0 to |symbols|
      invariant errors == pushed + set symbol | symbol in symbols[..i] && !Supported(symbol) ::
        UnsupportedSymbol(symbol)
    {
      assert symbols[..i + 1] == symbols[..i] + [symbols[i]];
      if !Supported(symbols[i]) { errors := errors + {UnsupportedSymbol(symbols[i])}; }
    }
    assert symbols[..|symbols|] == symbols;
  }

  method CheckSymbols(f: Fields, pushed: set<PolicyError>) returns (symbols: seq<string>, errors: set<PolicyError>)
    ensures errors == pushed + SymbolErrors(f)
    ensures symbols == if SymbolList(f).Some? then Strings(SymbolList(f).value) else DEFAULT_POLICY.allowedSymbols
  {
    hide Supported, Strings, SymbolList;
    var list := SymbolList(f);
    if list.None? { return DEFAULT_POLICY.allowedSymbols, pushed + {SymbolsNotArray}; }
    errors := pushed;
    symbols := Strings(list.value);
    if |symbols| != |list.value| { errors := errors + {SymbolsNotStrings}; }
    errors := RejectUnsupported(symbols, errors);
  }

  method ReadNumbers(f: Fields, start: Policy, pushed: set<PolicyError>)
    returns (policy: Policy, errors: set<PolicyError>)
    ensures errors == pushed + NumberFieldErrors(f)
    ensures policy == start.(
      maxOpenOrders := ReadPolicy(f).maxOpenOrders, maxOpenPositions := ReadPolicy(f).maxOpenPositions,
      maxDailyLossFraction := ReadPolicy(f).maxDailyLossFraction, maxWeeklyLossFraction :=
        ReadPolicy(f).maxWeeklyLossFraction,
      maxRiskPerTradeFraction := ReadPolicy(f).maxRiskPerTradeFraction,
      maxMarketDataAgeMs := ReadPolicy(f).maxMarketDataAgeMs, maxOrderAgeSeconds := ReadPolicy(f).maxOrderAgeSeconds)
  {
    hide NumberField, NumberErrors, BoolField, GoodId, GoodMode, SymbolList, Strings, ReadExecution, ReadLive, Trim;
    var orders, positions, daily, weekly, risk, age, order;
    orders, errors := RequiredNumber(f, "maxOpenOrders", pushed, 0.0, Some(MAX_OPEN_ORDERS as real), true);
    positions, errors := RequiredNumber(f, "maxOpenPositions", errors, 0.0, Some(MAX_OPEN_POSITIONS as real), true);
    daily, errors := RequiredNumber(f, "maxDailyLossFraction", errors, 0.0, Some(1.0), false);
    weekly, errors := RequiredNumber(f, "maxWeeklyLossFraction", errors, 0.0, Some(1.0), false);
    risk, errors := RequiredNumber(f, "maxRiskPerTradeFraction", errors, 0.0, Some(1.0), false);
    age, errors := RequiredNumber(f, "maxMarketDataAgeMs", errors, 1.0, None, true);
    order, errors := RequiredNumber(f, "maxOrderAgeSeconds", errors, 1.0, None, true);
    policy := start.(
      maxOpenOrders := orders.Floor, maxOpenPositions := positions.Floor, maxDailyLossFraction := daily,
      maxWeeklyLossFraction := weekly, maxRiskPerTradeFraction := risk,
      maxMarketDataAgeMs := age.Floor, maxOrderAgeSeconds := order.Floor);
  }

  method ReadExecutionFields(e: Fields, pushed: set<PolicyError>)
    returns (execution: Execution, errors: set<PolicyError>)
    ensures errors == pushed + ExecutionFieldErrors(e)
    ensures execution == Execution(BoolField(e, "allowMarketOrders"), BoolField(e, "allowLeverage"),
      BoolField(e, "allowMargin"),
                                   BoolField(e, "allowWithdrawals"), BoolField(e, "postOnlyByDefault"))
  {
    hide BoolField, BoolErrors;
    var market, leverage, margin, withdrawals, postOnly;
    market, errors := RequiredBoolean(e, "allowMarketOrders", pushed);
    leverage, errors := RequiredBoolean(e, "allowLeverage", errors);
    margin, errors := RequiredBoolean(e, "allowMargin", errors);
    withdrawals, errors := RequiredBoolean(e, "allowWithdrawals", errors);
    postOnly, errors := RequiredBoolean(e, "postOnlyByDefault", errors);
    if market { errors := errors + {MarketOrdersBlocked}; }
    if leverage { errors := errors + {LeverageBlocked}; }
    if margin { errors := errors + {MarginBlocked}; }
    if withdrawals { errors := errors + {WithdrawalsBlocked}; }
    execution := Execution(market, leverage, margin, withdrawals, postOnly);
  }

  method ReadLiveFields(l: Fields, pushed: set<PolicyError>) returns (live: LiveLimits, errors: set<PolicyError>)
    ensures errors == pushed + LiveFieldErrors(l)
    ensures live == LiveLimits(BoolField(l, "requiresHumanApproval"),
      NumberField(l, "maxAutonomousNotionalUsd", 0.0, None, false))
  {
    hide BoolField, BoolErrors, NumberField, NumberErrors;
    var required, cap;
    required, errors := RequiredBoolean(l, "requiresHumanApproval", pushed);
    cap, errors := RequiredNumber(l, "maxAutonomousNotionalUsd", errors, 0.0, None, false);
    live := LiveLimits(required, cap);
  }

  method ReadId(f: Fields, pushed: set<PolicyError>) returns (id: string, errors: set<PolicyError>)
    ensures errors == pushed + (if GoodId(f) then {} else {BadId})
    ensures id == if GoodId(f) then Trim(f["id"].s) else DEFAULT_POLICY.id
  {
    hide Trim;
    if "id" !in f || !f["id"].VStr? || Trim(f["id"].s) == "" { return DEFAULT_POLICY.id, pushed + {BadId}; }
    return Trim(f["id"].s), pushed;
  }

  method ReadMode(f: Fields, pushed: set<PolicyError>) returns (mode: Mode, errors: set<PolicyError>)
    ensures errors == pushed + (if GoodMode(f) then {} else {BadMode})
    ensures mode == if GoodMode(f) then (if f["mode"] == VStr("live") then Live else Paper) else DEFAULT_POLICY.mode
  {
    if "mode" !in f || (f["mode"] != VStr("paper") && f["mode"] != VStr("live")) {
      return DEFAULT_POLICY.mode, pushed + {BadMode};
    }
    return if f["mode"] == VStr("live") then Live else Paper, pushed;
  }

  method ReadExecutionAndLive(f: Fields, start: Policy, pushed: set<PolicyError>)
    returns (policy: Policy, errors: set<PolicyError>)
    requires start.execution == DEFAULT_POLICY.execution && start.live == DEFAULT_POLICY.live
    ensures policy == start.(execution := ReadExecution(f), live := ReadLive(f))
    ensures errors == pushed
      + (if ObjectField(f, "execution").Some? then ExecutionFieldErrors(ObjectField(f, "execution").value) else {})
      + (if ObjectField(f, "live").Some? then LiveFieldErrors(ObjectField(f, "live").value) else {})
  {
    hide ExecutionFieldErrors, LiveFieldErrors, BoolField, NumberField;
    policy, errors := start, pushed;
    var execution, live := ObjectField(f, "execution"), ObjectField(f, "live");
    if execution.Some? {
      var read;
      read, errors := ReadExecutionFields(execution.value, errors);
      policy := policy.(execution := read);
    }
    if live.Some? {
      var read;
      read, errors := ReadLiveFields(live.value, errors);
      policy := policy.(live := read);
    }
  }

  /** The branch for a record: every field in turn, with its errors. */
  method ReadFields(f: Fields, pushed: set<PolicyError>) returns (policy: Policy, errors: set<PolicyError>)
    ensures errors == pushed + FieldErrors(f) && policy == ReadPolicy(f)
  {
    hide UnknownErrors, SymbolErrors, NumberFieldErrors, ExecutionFieldErrors, LiveFieldErrors, BoolErrors, BoolField,
      GoodId,
      GoodMode, NumberField, SymbolList, Strings, Trim, ReadExecution, ReadLive;
    policy := DEFAULT_POLICY;
    errors := RejectUnknown(f, POLICY_KEYS, "", pushed);
    errors := RequireObject(f, "execution", EXECUTION_KEYS, "execution.", errors);
    errors := RequireObject(f, "live", LIVE_KEYS, "live.", errors);
    var id, enabled, mode, symbols;
    id, errors := ReadId(f, errors);
    enabled, errors := RequiredBoolean(f, "enabled", errors);
    mode, errors := ReadMode(f, errors);
    symbols, errors := CheckSymbols(f, errors);
    policy := policy.(id := id, enabled := enabled, mode := mode, allowedSymbols := symbols);
    policy, errors := ReadNumbers(f, policy, errors);
    policy, errors := ReadExecutionAndLive(f, policy, errors);
  }

  method ValidatePolicy(value: Value) returns (loaded: LoadedPolicy)
    ensures loaded == Validated(value)
  {
    hide FieldErrors, ReadPolicy;
    var errors: set<PolicyError>, policy := {}, DEFAULT_POLICY;
    if !value.VObj? { errors := errors + {NotAnObject}; } else { policy, errors := ReadFields(value.fields, errors); }
    if errors != {} { policy := policy.(enabled := false); }
    loaded := LoadedPolicy(policy, ProjectFile, errors == {}, errors);
  }

  /** The documented bounds of a policy that may drive trading. */
  ghost predicate WithinBounds(p: Policy) {
    && p.id != "" && Trim(p.id) == p.id
    && p.allowedSymbols != [] && (forall s :: s in p.allowedSymbols ==> Supported(s))
    && 0 <= p.maxOpenOrders <= MAX_OPEN_ORDERS && 0 <= p.maxOpenPositions <= MAX_OPEN_POSITIONS
    && 0.0 <= p.maxDailyLossFraction <= 1.0 && 0.0 <= p.maxWeeklyLossFraction <= 1.0
    && 0.0 <= p.maxRiskPerTradeFraction <= 1.0
    && 1 <= p.maxMarketDataAgeMs && 1 <= p.maxOrderAgeSeconds
    && !p.execution.allowMarketOrders && !p.execution.allowLeverage && !p.execution.allowMargin
    && !p.execution.allowWithdrawals
    && 0.0 <= p.live.maxAutonomousNotionalUsd
  }

  lemma TrimIdempotent(s: string)
    ensures Trim(Trim(s)) == Trim(s)
  {
    hide IsSpace, Trim;
    TrimSpec(s);
    TrimSpec(Trim(s));
  }

  /** Fail closed: whatever the file holds, the policy kept is within bounds or disabled. */
  lemma ValidatedIsBoundedOrDisabled(value: Value)
    ensures var l := Validated(value); l.valid ==> WithinBounds(l.policy)
    ensures var l := Validated(value); !l.valid ==> !l.policy.enabled && l.errors != {}
  {
    if Validated(value).valid {
      var f := value.fields;
      assert FieldErrors(f) == {};
      ValidFieldsGiveBounds(f);
    }
  }

  lemma ValidFieldsGiveBounds(f: Fields)
    requires FieldErrors(f) == {}
    ensures WithinBounds(ReadPolicy(f))
  {
    hide UnknownErrors, SymbolErrors, NumberFieldErrors, ExecutionErrors, LiveErrors, BoolErrors;
    assert SymbolErrors(f) == {} && NumberFieldErrors(f) == {} && ExecutionErrors(f) == {} && LiveErrors(f) == {};
    IdInBounds(f);
    SymbolsInBounds(f);
    NumbersInBounds(f);
    ExecutionInBounds(f);
    LiveInBounds(f);
  }

  lemma IdInBounds(f: Fields)
    requires FieldErrors(f) == {}
    ensures ReadPolicy(f).id != "" && Trim(ReadPolicy(f).id) == ReadPolicy(f).id
  {
    hide UnknownErrors, SymbolErrors, NumberFieldErrors, ExecutionErrors, LiveErrors, BoolErrors;
    assert (if GoodId(f) then {} else {BadId}) <= FieldErrors(f);
    assert GoodId(f);
    TrimIdempotent(f["id"].s);
  }

  lemma LiveInBounds(f: Fields)
    requires LiveErrors(f) == {}
    ensures 0.0 <= ReadPolicy(f).live.maxAutonomousNotionalUsd
  {
    hide UnknownErrors, SymbolErrors, NumberFieldErrors, ExecutionErrors, BoolErrors;
  }

  lemma SymbolsInBounds(f: Fields)
    requires SymbolErrors(f) == {}
    ensures ReadPolicy(f).allowedSymbols != [] && forall s :: s in ReadPolicy(f).allowedSymbols ==> Supported(s)
  {
    assert SymbolList(f).Some?;
    var symbols := Strings(SymbolList(f).value);
    assert |symbols| == |SymbolList(f).value|;
    forall s | s in symbols
      ensures Supported(s) || UnsupportedSymbol(s) in SymbolErrors(f)
    {
    }
  }

  lemma NumbersInBounds(f: Fields)
    requires NumberFieldErrors(f) == {}
    ensures var p := ReadPolicy(f);
      && 0 <= p.maxOpenOrders <= MAX_OPEN_ORDERS && 0 <= p.maxOpenPositions <= MAX_OPEN_POSITIONS
      && 0.0 <= p.maxDailyLossFraction <= 1.0 && 0.0 <= p.maxWeeklyLossFraction <= 1.0
      && 0.0 <= p.maxRiskPerTradeFraction <= 1.0
      && 1 <= p.maxMarketDataAgeMs && 1 <= p.maxOrderAgeSeconds
  {
    assert NumberErrors(f, "maxMarketDataAgeMs", 1.0, None, true) == {};
    assert NumberErrors(f, "maxOrderAgeSeconds", 1.0, None, true) == {};
    assert NumberErrors(f, "maxOpenOrders", 0.0, Some(MAX_OPEN_ORDERS as real), true) == {};
    assert NumberErrors(f, "maxOpenPositions", 0.0, Some(MAX_OPEN_POSITIONS as real), true) == {};
  }

  lemma ExecutionInBounds(f: Fields)
    requires ExecutionErrors(f) == {}
    ensures var e := ReadPolicy(f).execution;
      !e.allowMarketOrders && !e.allowLeverage && !e.allowMargin && !e.allowWithdrawals
  {
    var e := ObjectField(f, "execution").value;
    assert (if BoolField(e, "allowMarketOrders") then {MarketOrdersBlocked} else {}) <= ExecutionErrors(f);
    assert (if BoolField(e, "allowLeverage") then {LeverageBlocked} else {}) <= ExecutionErrors(f);
    assert (if BoolField(e, "allowMargin") then {MarginBlocked} else {}) <= ExecutionErrors(f);
    assert (if BoolField(e, "allowWithdrawals") then {WithdrawalsBlocked} else {}) <= ExecutionErrors(f);
  }

  // ------------------------------------------------------------------ loading

  datatype PolicyFile = Missing | Text(text: string) | Unreadable

  function DefaultLoadedPolicy(): LoadedPolicy {
    LoadedPolicy(DEFAULT_POLICY, Default, true, {})
  }

  function LoadProjectPolicy(file: PolicyFile): LoadedPolicy {
    match file
    case Missing => DefaultLoadedPolicy()
    case Unreadable => LoadedPolicy(DEFAULT_POLICY.(enabled := false), ProjectFile, false, {CouldNotLoad})
    case Text(text) =>
      match ParseYaml(text)
      case Err(_) => LoadedPolicy(DEFAULT_POLICY.(enabled := false), ProjectFile, false, {CouldNotLoad})
      case Ok(fields) => Validated(VObj(fields))
  }

  ghost predicate BoundedOrDisabled(l: LoadedPolicy) {
    (l.valid ==> WithinBounds(l.policy)) && (!l.valid ==> !l.policy.enabled)
  }

  lemma DefaultWithinBounds()
    ensures WithinBounds(DEFAULT_POLICY)
  {
    hide Trim;
    var id := DEFAULT_POLICY.id;
    assert Trim(id) == id by {
      assert id[0] == 'c' && id[|id| - 1] == '1';
      TrimSpec(id);
    }
    forall s | s in DEFAULT_POLICY.allowedSymbols
      ensures Supported(s)
    {
      assert s == DEFAULT_POLICY.allowedSymbols[0] || s == DEFAULT_POLICY.allowedSymbols[1];
    }
  }

  /** No project file, readable or not, can put an enabled policy outside its bounds in force. */
  lemma LoadedPolicyIsBoundedOrDisabled(file: PolicyFile)
    ensures BoundedOrDisabled(LoadProjectPolicy(file))
  {
    hide WithinBounds, ParseYaml, Validated;
    DefaultWithinBounds();
    if file.Text? && ParseYaml(file.text).Ok? {
      ValidatedIsBoundedOrDisabled(VObj(ParseYaml(file.text).value));
    }
  }
}
