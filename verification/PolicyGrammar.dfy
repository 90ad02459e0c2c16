/** Which texts the line parser accepts at all, and how the keys of a policy file are spelled. */
module PolicyGrammar {
  import opened Basics
  import opened JsStrings
  import opened PolicyLoader

  // ------------------------------------------------------------------ the lines that are accepted

  /** What the key on the last unindented line has open: nothing, a list, or an object. */
  datatype Block = Closed | Listed | Keyed

  ghost predicate EndsLine(c: char) {
    c == '\n' || c == '\r' || c == '\U{2028}' || c == '\U{2029}'
  }

  /** A key, a colon, and a value without a line terminator. */
  ghost predicate KeyLine(text: string) {
    exists colon ::
      && 0 < colon < |text| && text[colon] == ':' && ':' !in text[..colon]
      && forall c :: c in text[colon + 1..] ==> !EndsLine(c)
  }

  ghost predicate ItemLine(text: string) {
    |text| >= 2 && text[0] == '-' && text[1] == ' '
  }

  /** Whether nothing but white space follows the first colon. */
  ghost predicate OpensBlock(text: string) {
    exists colon ::
      && 0 < colon < |text| && text[colon] == ':' && ':' !in text[..colon]
      && forall c :: c in text[colon + 1..] ==> IsSpace(c)
  }

  /** The line, without its comment, fits after the lines before it. */
  ghost predicate LineFits(block: Block, raw: string) {
    var text := Trim(raw);
    || text == ""
    || (raw[0] != ' ' && !ItemLine(text) && KeyLine(text))
    || (TwoSpaces(raw) && block != Closed && (if ItemLine(text) then block == Listed else KeyLine(text)))
  }

  ghost predicate TwoSpaces(raw: string) {
    |raw| > 2 && raw[0] == ' ' && raw[1] == ' ' && raw[2] != ' '
  }

  ghost function Next(block: Block, raw: string): Block {
    var text := Trim(raw);
    if text == "" then block
    else if raw[0] != ' ' then (if OpensBlock(text) then Listed else Closed)
    else if ItemLine(text) then Listed else Keyed
  }

  /** The lines fit one after the other. */
  ghost predicate Fits(block: Block, lines: seq<string>)
    decreases |lines|
  {
    lines == [] ||
    (LineFits(block, WithoutComment(lines[0])) && Fits(Next(block, WithoutComment(lines[0])), lines[1..]))
  }

  ghost function BlockOf(st: ParserState): Block
    requires BlockOpen(st)
  {
    if st.current.None? then Closed else if st.root[st.current.value].VList? then Listed else Keyed
  }

  lemma ItemLineIff(text: string)
    ensures StartsWith(text, "- ") <==> ItemLine(text)
  {
    if ItemLine(text) { assert text[..2] == "- "; }
  }

  lemma KeyLineIff(text: string)
    ensures MatchKeyValue(text).Some? <==> KeyLine(text)
    ensures MatchKeyValue(text).Some? ==> (MatchKeyValue(text).value.1 == "" <==> OpensBlock(text))
  {
    hide CanonicalKey, Trim, IsSpace;
    var first := IndexOf(text, ':');
    FirstColon(text);
    if first < |text| {
      BlankIff(text[first + 1..]);
      assert forall c :: EndsLine(c) <==> IsLineTerminator(c);
      hide EndsLine, IsLineTerminator;
    }
  }

  /** The first colon is the only place with a colon and none before it. */
  lemma FirstColon(text: string)
    ensures var first := IndexOf(text, ':');
      && (first < |text| ==> ':' !in text[..first])
      && forall colon :: 0 <= colon < |text| && text[colon] == ':' && ':' !in text[..colon] ==> colon == first
  {
    forall colon | 0 <= colon < |text| && text[colon] == ':' && ':' !in text[..colon]
      ensures colon == IndexOf(text, ':')
    {
      assert forall j :: 0 <= j < colon ==> text[j] == text[..colon][j];
    }
  }

  lemma IndentIs(raw: string)
    requires Trim(raw) != ""
    ensures raw != "" && (Indent(raw) == 0 <==> raw[0] != ' ') && (Indent(raw) == 2 <==> TwoSpaces(raw))
  {
    BlankIff(raw);
    hide Trim;
    if raw[0] == ' ' {
      assert Indent(raw) == 1 + Indent(raw[1..]);
      if |raw| >= 2 && raw[1] == ' ' {
        assert Indent(raw[1..]) == 1 + Indent(raw[2..]);
        if |raw| == 2 { OnlySpaces(raw); }
      }
    }
  }

  lemma OnlySpaces(raw: string)
    requires |raw| == 2 && raw[0] == ' ' && raw[1] == ' '
    ensures Trim(raw) == ""
  {
    BlankIff(raw);
  }

  /** One line is accepted exactly when it fits, and leaves open what it should. */
  lemma LineIff(st: ParserState, line: string)
    requires BlockOpen(st)
    ensures var raw := WithoutComment(line);
      && (ParseLine(st, line).Ok? <==> LineFits(BlockOf(st), raw))
      && (ParseLine(st, line).Ok? ==> BlockOf(ParseLine(st, line).value) == Next(BlockOf(st), raw))
  {
    hide WithoutComment, Trim, MatchKeyValue, KeyLine, OpensBlock, ItemLine, TwoSpaces, ParseScalar, StartsWith, Indent,
      IsSpace;
    var raw := WithoutComment(line);
    var text := Trim(raw);
    if text != "" {
      IndentIs(raw);
      ItemLineIff(text);
      KeyLineIff(text);
      NotBoth(raw);
    }
  }

  lemma NotBoth(raw: string)
    ensures TwoSpaces(raw) ==> raw != "" && raw[0] == ' '
  {
  }

  lemma {:induction false} LinesIff(st: ParserState, lines: seq<string>)
    requires BlockOpen(st)
    ensures ParseLines(st, lines).Ok? <==> Fits(BlockOf(st), lines)
    decreases |lines|
  {
    hide ParseLine, LineFits, Next, BlockOf, WithoutComment;
    if lines != [] {
      LineIff(st, lines[0]);
      var r := ParseLine(st, lines[0]);
      if r.Ok? { LinesIff(r.value, lines[1..]); }
    }
  }

  /** The text of a policy file is accepted exactly when its lines fit one after the other; any other is refused. */
  lemma ParsesIff(text: string)
    ensures ParseYaml(text).Ok? <==> Fits(Closed, SplitLines(NormalizeNewlines(text)))
  {
    hide ParseLines, Fits, SplitLines, NormalizeNewlines;
    LinesIff(START, SplitLines(NormalizeNewlines(text)));
  }

  // ------------------------------------------------------------------ the spelling of the keys

  function Upper(c: char): char {
    if 'a' <= c <= 'z' then ((c as int) - 32) as char else c
  }

  function Capital(word: string): string {
    if word == "" then "" else [Upper(word[0])] + word[1..]
  }

  /** `camel` is `snake` with each underscore dropped and the letter after it capital. */
  ghost predicate Spelled(snake: string, camel: string)
    decreases |snake|
  {
    || (snake == camel && '_' !in snake)
    || exists n, m ::
         && 0 < n < |snake| && 0 <= m <= |camel| && snake[n] == '_' && '_' !in snake[n + 1..]
         && camel[m..] == Capital(snake[n + 1..]) && Spelled(snake[..n], camel[..m])
  }

  lemma OneWord(word: string)
    requires '_' !in word
    ensures Spelled(word, word)
  {
  }

  lemma NextWord(snake: string, camel: string, word: string)
    requires Spelled(snake, camel) && snake != "" && '_' !in word
    ensures Spelled(snake + "_" + word, camel + Capital(word))
  {
    var s, c, n, m := snake + "_" + word, camel + Capital(word), |snake|, |camel|;
    assert s[n] == '_' && s[n + 1..] == word && s[..n] == snake && c[m..] == Capital(word) && c[..m] == camel;
    hide Capital;
  }

  lemma AllowedSymbols()
    ensures Spelled("allowed_symbols", "allowedSymbols")
  {
    hide Spelled;
    OneWord("allowed");
    NextWord("allowed", "allowed", "symbols");
    assert "allowed" + "_" + "symbols" == "allowed_symbols" && "allowed" + Capital("symbols") == "allowedSymbols";
  }

  lemma MaxOpenOrders()
    ensures Spelled("max_open_orders", "maxOpenOrders")
  {
    hide Spelled;
    OneWord("max");
    NextWord("max", "max", "open");
    assert "max" + "_" + "open" == "max_open" && "max" + Capital("open") == "maxOpen";
    NextWord("max_open", "maxOpen", "orders");
    assert "max_open" + "_" + "orders" == "max_open_orders" && "maxOpen" + Capital("orders") == "maxOpenOrders";
  }

  lemma MaxOpenPositions()
    ensures Spelled("max_open_positions", "maxOpenPositions")
  {
    hide Spelled;
    OneWord("max");
    NextWord("max", "max", "open");
    assert "max" + "_" + "open" == "max_open" && "max" + Capital("open") == "maxOpen";
    NextWord("max_open", "maxOpen", "positions");
    assert "max_open" + "_" + "positions" == "max_open_positions";
    assert "maxOpen" + Capital("positions") == "maxOpenPositions";
  }

  lemma MaxDailyLossFraction()
    ensures Spelled("max_daily_loss_fraction", "maxDailyLossFraction")
  {
    hide Spelled;
    OneWord("max");
    NextWord("max", "max", "daily");
    assert "max" + "_" + "daily" == "max_daily" && "max" + Capital("daily") == "maxDaily";
    NextWord("max_daily", "maxDaily", "loss");
    assert "max_daily" + "_" + "loss" == "max_daily_loss" && "maxDaily" + Capital("loss") == "maxDailyLoss";
    NextWord("max_daily_loss", "maxDailyLoss", "fraction");
    assert "max_daily_loss" + "_" + "fraction" == "max_daily_loss_fraction";
    assert "maxDailyLoss" + Capital("fraction") == "maxDailyLossFraction";
  }

  lemma MaxWeeklyLossFraction()
    ensures Spelled("max_weekly_loss_fraction", "maxWeeklyLossFraction")
  {
    hide Spelled;
    OneWord("max");
    NextWord("max", "max", "weekly");
    assert "max" + "_" + "weekly" == "max_weekly" && "max" + Capital("weekly") == "maxWeekly";
    NextWord("max_weekly", "maxWeekly", "loss");
    assert "max_weekly" + "_" + "loss" == "max_weekly_loss" && "maxWeekly" + Capital("loss") == "maxWeeklyLoss";
    NextWord("max_weekly_loss", "maxWeeklyLoss", "fraction");
    assert "max_weekly_loss" + "_" + "fraction" == "max_weekly_loss_fraction";
    assert "maxWeeklyLoss" + Capital("fraction") == "maxWeeklyLossFraction";
  }

  lemma MaxRiskPerTradeFraction()
    ensures Spelled("max_risk_per_trade_fraction", "maxRiskPerTradeFraction")
  {
    hide Spelled;
    OneWord("max");
    NextWord("max", "max", "risk");
    assert "max" + "_" + "risk" == "max_risk" && "max" + Capital("risk") == "maxRisk";
    NextWord("max_risk", "maxRisk", "per");
    assert "max_risk" + "_" + "per" == "max_risk_per" && "maxRisk" + Capital("per") == "maxRiskPer";
    NextWord("max_risk_per", "maxRiskPer", "trade");
    assert "max_risk_per" + "_" + "trade" == "max_risk_per_trade";
    assert "maxRiskPer" + Capital("trade") == "maxRiskPerTrade";
    NextWord("max_risk_per_trade", "maxRiskPerTrade", "fraction");
    assert "max_risk_per_trade" + "_" + "fraction" == "max_risk_per_trade_fraction";
    assert "maxRiskPerTrade" + Capital("fraction") == "maxRiskPerTradeFraction";
  }

  lemma MaxMarketDataAgeMs()
    ensures Spelled("max_market_data_age_ms", "maxMarketDataAgeMs")
  {
    hide Spelled;
    OneWord("max");
    NextWord("max", "max", "market");
    assert "max" + "_" + "market" == "max_market" && "max" + Capital("market") == "maxMarket";
    NextWord("max_market", "maxMarket", "data");
    assert "max_market" + "_" + "data" == "max_market_data" && "maxMarket" + Capital("data") == "maxMarketData";
    NextWord("max_market_data", "maxMarketData", "age");
    assert "max_market_data" + "_" + "age" == "max_market_data_age";
    assert "maxMarketData" + Capital("age") == "maxMarketDataAge";
    NextWord("max_market_data_age", "maxMarketDataAge", "ms");
    assert "max_market_data_age" + "_" + "ms" == "max_market_data_age_ms";
    assert "maxMarketDataAge" + Capital("ms") == "maxMarketDataAgeMs";
  }

  lemma MaxOrderAgeSeconds()
    ensures Spelled("max_order_age_seconds", "maxOrderAgeSeconds")
  {
    hide Spelled;
    OneWord("max");
    NextWord("max", "max", "order");
    assert "max" + "_" + "order" == "max_order" && "max" + Capital("order") == "maxOrder";
    NextWord("max_order", "maxOrder", "age");
    assert "max_order" + "_" + "age" == "max_order_age" && "maxOrder" + Capital("age") == "maxOrderAge";
    NextWord("max_order_age", "maxOrderAge", "seconds");
    assert "max_order_age" + "_" + "seconds" == "max_order_age_seconds";
    assert "maxOrderAge" + Capital("seconds") == "maxOrderAgeSeconds";
  }

  lemma AllowMarketOrders()
    ensures Spelled("allow_market_orders", "allowMarketOrders")
  {
    hide Spelled;
    OneWord("allow");
    NextWord("allow", "allow", "market");
    assert "allow" + "_" + "market" == "allow_market" && "allow" + Capital("market") == "allowMarket";
    NextWord("allow_market", "allowMarket", "orders");
    assert "allow_market" + "_" + "orders" == "allow_market_orders";
    assert "allowMarket" + Capital("orders") == "allowMarketOrders";
  }

  lemma AllowLeverage()
    ensures Spelled("allow_leverage", "allowLeverage")
  {
    hide Spelled;
    OneWord("allow");
    NextWord("allow", "allow", "leverage");
    assert "allow" + "_" + "leverage" == "allow_leverage" && "allow" + Capital("leverage") == "allowLeverage";
  }

  lemma AllowMargin()
    ensures Spelled("allow_margin", "allowMargin")
  {
    hide Spelled;
    OneWord("allow");
    NextWord("allow", "allow", "margin");
    assert "allow" + "_" + "margin" == "allow_margin" && "allow" + Capital("margin") == "allowMargin";
  }

  lemma AllowWithdrawals()
    ensures Spelled("allow_withdrawals", "allowWithdrawals")
  {
    hide Spelled;
    OneWord("allow");
    NextWord("allow", "allow", "withdrawals");
    assert "allow" + "_" + "withdrawals" == "allow_withdrawals";
    assert "allow" + Capital("withdrawals") == "allowWithdrawals";
  }

  lemma PostOnlyByDefault()
    ensures Spelled("post_only_by_default", "postOnlyByDefault")
  {
    hide Spelled;
    OneWord("post");
    NextWord("post", "post", "only");
    assert "post" + "_" + "only" == "post_only" && "post" + Capital("only") == "postOnly";
    NextWord("post_only", "postOnly", "by");
    assert "post_only" + "_" + "by" == "post_only_by" && "postOnly" + Capital("by") == "postOnlyBy";
    NextWord("post_only_by", "postOnlyBy", "default");
    assert "post_only_by" + "_" + "default" == "post_only_by_default";
    assert "postOnlyBy" + Capital("default") == "postOnlyByDefault";
  }

  lemma RequiresHumanApproval()
    ensures Spelled("requires_human_approval", "requiresHumanApproval")
  {
    hide Spelled;
    OneWord("requires");
    NextWord("requires", "requires", "human");
    assert "requires" + "_" + "human" == "requires_human" && "requires" + Capital("human") == "requiresHuman";
    NextWord("requires_human", "requiresHuman", "approval");
    assert "requires_human" + "_" + "approval" == "requires_human_approval";
    assert "requiresHuman" + Capital("approval") == "requiresHumanApproval";
  }

  lemma MaxAutonomousNotionalUsd()
    ensures Spelled("max_autonomous_notional_usd", "maxAutonomousNotionalUsd")
  {
    hide Spelled;
    OneWord("max");
    NextWord("max", "max", "autonomous");
    assert "max" + "_" + "autonomous" == "max_autonomous" && "max" + Capital("autonomous") == "maxAutonomous";
    NextWord("max_autonomous", "maxAutonomous", "notional");
    assert "max_autonomous" + "_" + "notional" == "max_autonomous_notional";
    assert "maxAutonomous" + Capital("notional") == "maxAutonomousNotional";
    NextWord("max_autonomous_notional", "maxAutonomousNotional", "usd");
    assert "max_autonomous_notional" + "_" + "usd" == "max_autonomous_notional_usd";
    assert "maxAutonomousNotional" + Capital("usd") == "maxAutonomousNotionalUsd";
  }

  /** A key that is read as another one is that field's name in snake_case. */
  lemma AliasIsSpelling(key: string)
    ensures CanonicalKey(key) != key ==> Spelled(key, CanonicalKey(key))
  {
    hide Spelled;
    AllowedSymbols();
    MaxOpenOrders();
    MaxOpenPositions();
    MaxDailyLossFraction();
    MaxWeeklyLossFraction();
    MaxRiskPerTradeFraction();
    MaxMarketDataAgeMs();
    MaxOrderAgeSeconds();
    AllowMarketOrders();
    AllowLeverage();
    AllowMargin();
    AllowWithdrawals();
    PostOnlyByDefault();
    RequiresHumanApproval();
    MaxAutonomousNotionalUsd();
  }
}
