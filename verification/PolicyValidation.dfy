/** Exactly which policy values are accepted, and what is read from them, without the validator's own steps. */
module PolicyValidation {
  import opened Basics
  import opened JsStrings
  import opened TradingTypes
  import opened PolicyLoader

  // ------------------------------------------------------------------ the documented form

  predicate IsNumberWithin(v: Value, min: real, max: real) {
    v.VNum? && min <= v.n <= max
  }

  ghost predicate IsWhole(v: Value) {
    v.VNum? && v.n.Floor as real == v.n
  }

  ghost predicate CountsFit(f: Fields)
    requires f.Keys >= {"maxOpenOrders", "maxOpenPositions", "maxMarketDataAgeMs", "maxOrderAgeSeconds"}
  {
    && IsNumberWithin(f["maxOpenOrders"], 0.0, 5.0) && IsWhole(f["maxOpenOrders"])
    && IsNumberWithin(f["maxOpenPositions"], 0.0, 5.0) && IsWhole(f["maxOpenPositions"])
    && IsWhole(f["maxMarketDataAgeMs"]) && f["maxMarketDataAgeMs"].n >= 1.0
    && IsWhole(f["maxOrderAgeSeconds"]) && f["maxOrderAgeSeconds"].n >= 1.0
  }

  ghost predicate FractionsFit(f: Fields)
    requires f.Keys >= {"maxDailyLossFraction", "maxWeeklyLossFraction", "maxRiskPerTradeFraction"}
  {
    && IsNumberWithin(f["maxDailyLossFraction"], 0.0, 1.0) && IsNumberWithin(f["maxWeeklyLossFraction"], 0.0, 1.0)
    && IsNumberWithin(f["maxRiskPerTradeFraction"], 0.0, 1.0)
  }

  ghost predicate SymbolsFit(v: Value) {
    v.VList? && v.items != [] && forall x :: x in v.items ==> x == VStr("BTC/USD") || x == VStr("ETH/USD")
  }

  /** The five switches of the execution block, of which only the last may be on. */
  ghost predicate ExecutionFits(v: Value) {
    && v.VObj?
    && v.fields.Keys == {"allowMarketOrders", "allowLeverage", "allowMargin", "allowWithdrawals", "postOnlyByDefault"}
    && v.fields["allowMarketOrders"] == VBool(false) && v.fields["allowLeverage"] == VBool(false)
    && v.fields["allowMargin"] == VBool(false) && v.fields["allowWithdrawals"] == VBool(false)
    && v.fields["postOnlyByDefault"].VBool?
  }

  ghost predicate LiveFits(v: Value) {
    && v.VObj? && v.fields.Keys == {"requiresHumanApproval", "maxAutonomousNotionalUsd"}
    && v.fields["requiresHumanApproval"].VBool?
    && v.fields["maxAutonomousNotionalUsd"].VNum? && v.fields["maxAutonomousNotionalUsd"].n >= 0.0
  }

  /** Exactly the documented fields, each of its documented kind and range. */
  ghost predicate Documented(f: Fields) {
    && f.Keys == {"id", "enabled", "mode", "allowedSymbols", "maxOpenOrders", "maxOpenPositions",
                  "maxDailyLossFraction", "maxWeeklyLossFraction", "maxRiskPerTradeFraction", "maxMarketDataAgeMs",
                  "maxOrderAgeSeconds", "execution", "live"}
    && f["id"].VStr? && (exists c :: c in f["id"].s && !IsSpace(c)) && f["enabled"].VBool?
    && (f["mode"] == VStr("paper") || f["mode"] == VStr("live"))
    && SymbolsFit(f["allowedSymbols"]) && CountsFit(f) && FractionsFit(f)
    && ExecutionFits(f["execution"]) && LiveFits(f["live"])
  }

  // ------------------------------------------------------------------ acceptance

  lemma NoErrors(a: set<PolicyError>, b: set<PolicyError>)
    ensures a + b == {} <==> a == {} && b == {}
  {
    assert a <= a + b && b <= a + b;
  }

  lemma UnknownIff(f: Fields, allowed: set<string>, prefix: string)
    ensures UnknownErrors(f, allowed, prefix) == {} <==> f.Keys <= allowed
  {
    if key :| key in f && key !in allowed { assert UnknownField(prefix + key) in UnknownErrors(f, allowed, prefix); }
  }

  lemma NumberIff(f: Fields, key: string, min: real, max: Option<real>, integer: bool)
    ensures NumberErrors(f, key, min, max, integer) == {} <==>
            && key in f && f[key].VNum? && min <= f[key].n
            && (max.Some? ==> f[key].n <= max.value) && (integer ==> IsWhole(f[key]))
  {
  }

  lemma BoolIff(f: Fields, key: string)
    ensures BoolErrors(f, key) == {} <==> key in f && f[key].VBool?
  {
  }

  lemma NumbersIff(f: Fields)
    ensures NumberFieldErrors(f) == {} <==>
            && f.Keys >= {"maxOpenOrders", "maxOpenPositions", "maxDailyLossFraction", "maxWeeklyLossFraction",
                          "maxRiskPerTradeFraction", "maxMarketDataAgeMs", "maxOrderAgeSeconds"}
            && CountsFit(f) && FractionsFit(f)
  {
    hide NumberErrors;
    NumberIff(f, "maxOpenOrders", 0.0, Some(MAX_OPEN_ORDERS as real), true);
    NumberIff(f, "maxOpenPositions", 0.0, Some(MAX_OPEN_POSITIONS as real), true);
    NumberIff(f, "maxDailyLossFraction", 0.0, Some(1.0), false);
    NumberIff(f, "maxWeeklyLossFraction", 0.0, Some(1.0), false);
    NumberIff(f, "maxRiskPerTradeFraction", 0.0, Some(1.0), false);
    NumberIff(f, "maxMarketDataAgeMs", 1.0, None, true);
    NumberIff(f, "maxOrderAgeSeconds", 1.0, None, true);
    var a, b, c := NumberErrors(f, "maxOpenOrders", 0.0, Some(MAX_OPEN_ORDERS as real), true),
      NumberErrors(f, "maxOpenPositions", 0.0, Some(MAX_OPEN_POSITIONS as real), true),
      NumberErrors(f, "maxDailyLossFraction", 0.0, Some(1.0), false);
    var d, e, g, h := NumberErrors(f, "maxWeeklyLossFraction", 0.0, Some(1.0), false),
      NumberErrors(f, "maxRiskPerTradeFraction", 0.0, Some(1.0), false),
      NumberErrors(f, "maxMarketDataAgeMs", 1.0, None, true), NumberErrors(f, "maxOrderAgeSeconds", 1.0, None, true);
    NoErrors(a, b);
    NoErrors(a + b, c);
    NoErrors(a + b + c, d);
    NoErrors(a + b + c + d, e);
    NoErrors(a + b + c + d + e, g);
    NoErrors(a + b + c + d + e + g, h);
  }

  lemma ExecutionIff(f: Fields)
    ensures ExecutionErrors(f) == {} <==> "execution" in f && ExecutionFits(f["execution"])
  {
    if "execution" in f && f["execution"].VObj? {
      var e := f["execution"].fields;
      UnknownIff(e, EXECUTION_KEYS, "execution.");
      NoErrors(UnknownErrors(e, EXECUTION_KEYS, "execution."), ExecutionFieldErrors(e));
      SwitchesIff(e);
      hide UnknownErrors, ExecutionFieldErrors;
    }
  }

  lemma SwitchesIff(e: Fields)
    ensures ExecutionFieldErrors(e) == {} <==>
            && e.Keys >= {"allowMarketOrders", "allowLeverage", "allowMargin", "allowWithdrawals", "postOnlyByDefault"}
            && e["allowMarketOrders"] == VBool(false) && e["allowLeverage"] == VBool(false)
            && e["allowMargin"] == VBool(false) && e["allowWithdrawals"] == VBool(false)
            && e["postOnlyByDefault"].VBool?
  {
    var m, l, g, w, p := BoolErrors(e, "allowMarketOrders"), BoolErrors(e, "allowLeverage"),
      BoolErrors(e, "allowMargin"), BoolErrors(e, "allowWithdrawals"), BoolErrors(e, "postOnlyByDefault");
    var m', l', g', w' := if BoolField(e, "allowMarketOrders") then {MarketOrdersBlocked} else {},
      if BoolField(e, "allowLeverage") then {LeverageBlocked} else {},
      if BoolField(e, "allowMargin") then {MarginBlocked} else {},
      if BoolField(e, "allowWithdrawals") then {WithdrawalsBlocked} else {};
    NoErrors(m, l);
    NoErrors(m + l, g);
    NoErrors(m + l + g, w);
    NoErrors(m + l + g + w, p);
    NoErrors(m + l + g + w + p, m');
    NoErrors(m + l + g + w + p + m', l');
    NoErrors(m + l + g + w + p + m' + l', g');
    NoErrors(m + l + g + w + p + m' + l' + g', w');
  }

  lemma LiveIff(f: Fields)
    ensures LiveErrors(f) == {} <==> "live" in f && LiveFits(f["live"])
  {
    if "live" in f && f["live"].VObj? {
      var l := f["live"].fields;
      UnknownIff(l, LIVE_KEYS, "live.");
      NoErrors(UnknownErrors(l, LIVE_KEYS, "live."), LiveFieldErrors(l));
      BoolIff(l, "requiresHumanApproval");
      NumberIff(l, "maxAutonomousNotionalUsd", 0.0, None, false);
      NoErrors(BoolErrors(l, "requiresHumanApproval"), NumberErrors(l, "maxAutonomousNotionalUsd", 0.0, None, false));
      hide UnknownErrors, BoolErrors, NumberErrors, IsWhole;
    }
  }

  /** The texts of a list of texts, in their order. */
  lemma {:induction false} StringsAt(items: seq<Value>)
    requires forall v :: v in items ==> v.VStr?
    ensures |Strings(items)| == |items| && forall j :: 0 <= j < |items| ==> items[j] == VStr(Strings(items)[j])
  {
    if items != [] {
      assert items == [items[0]] + items[1..];
      StringsAt(items[1..]);
    }
  }

  lemma SymbolsIff(f: Fields)
    ensures SymbolErrors(f) == {} <==> "allowedSymbols" in f && SymbolsFit(f["allowedSymbols"])
  {
    if SymbolList(f).Some? {
      var items := SymbolList(f).value;
      if |Strings(items)| == |items| {
        StringsAt(items);
        hide Strings;
        var bad := set symbol | symbol in Strings(items) && !Supported(symbol) :: UnsupportedSymbol(symbol);
        if j :| 0 <= j < |items| && !Supported(Strings(items)[j]) {
          assert UnsupportedSymbol(Strings(items)[j]) in bad;
          assert items[j] in items;
        } else {
          assert forall symbol :: symbol in Strings(items) ==> Supported(symbol);
        }
      }
    }
  }

  lemma GoodIdIff(f: Fields)
    ensures GoodId(f) <==> "id" in f && f["id"].VStr? && exists c :: c in f["id"].s && !IsSpace(c)
  {
    hide Trim, IsSpace;
    if "id" in f && f["id"].VStr? { BlankIff(f["id"].s); }
  }

  lemma FieldsIff(f: Fields)
    ensures FieldErrors(f) == {} <==> Documented(f)
  {
    hide UnknownErrors, SymbolErrors, NumberFieldErrors, ExecutionErrors, LiveErrors, BoolErrors, GoodId, SymbolsFit,
      CountsFit, FractionsFit, ExecutionFits, LiveFits, IsSpace;
    UnknownIff(f, POLICY_KEYS, "");
    GoodIdIff(f);
    BoolIff(f, "enabled");
    SymbolsIff(f);
    NumbersIff(f);
    ExecutionIff(f);
    LiveIff(f);
    var a, b, c, d := UnknownErrors(f, POLICY_KEYS, ""), if GoodId(f) then {} else {BadId}, BoolErrors(f, "enabled"),
      if GoodMode(f) then {} else {BadMode};
    NoErrors(a, b);
    NoErrors(a + b, c);
    NoErrors(a + b + c, d);
    NoErrors(a + b + c + d, SymbolErrors(f));
    NoErrors(a + b + c + d + SymbolErrors(f), NumberFieldErrors(f));
    NoErrors(a + b + c + d + SymbolErrors(f) + NumberFieldErrors(f), ExecutionErrors(f));
    NoErrors(a + b + c + d + SymbolErrors(f) + NumberFieldErrors(f) + ExecutionErrors(f), LiveErrors(f));
  }

  // ------------------------------------------------------------------ what is read

  /** The policy says what the file says, field by field. */
  ghost predicate SaysTheSame(p: Policy, f: Fields)
    requires Documented(f)
  {
    var e, l := f["execution"].fields, f["live"].fields;
    && p.id == Trim(f["id"].s) && f["enabled"] == VBool(p.enabled) && (p.mode.Live? <==> f["mode"] == VStr("live"))
    && |p.allowedSymbols| == |f["allowedSymbols"].items|
    && (forall j :: 0 <= j < |p.allowedSymbols| ==> f["allowedSymbols"].items[j] == VStr(p.allowedSymbols[j]))
    && f["maxOpenOrders"] == VNum(p.maxOpenOrders as real) && f["maxOpenPositions"] == VNum(p.maxOpenPositions as real)
    && f["maxDailyLossFraction"] == VNum(p.maxDailyLossFraction)
    && f["maxWeeklyLossFraction"] == VNum(p.maxWeeklyLossFraction)
    && f["maxRiskPerTradeFraction"] == VNum(p.maxRiskPerTradeFraction)
    && f["maxMarketDataAgeMs"] == VNum(p.maxMarketDataAgeMs as real)
    && f["maxOrderAgeSeconds"] == VNum(p.maxOrderAgeSeconds as real)
    && e["allowMarketOrders"] == VBool(p.execution.allowMarketOrders)
    && e["allowLeverage"] == VBool(p.execution.allowLeverage) && e["allowMargin"] == VBool(p.execution.allowMargin)
    && e["allowWithdrawals"] == VBool(p.execution.allowWithdrawals)
    && e["postOnlyByDefault"] == VBool(p.execution.postOnlyByDefault)
    && l["requiresHumanApproval"] == VBool(p.live.requiresHumanApproval)
    && l["maxAutonomousNotionalUsd"] == VNum(p.live.maxAutonomousNotionalUsd)
  }

  lemma ReadSaysTheSame(f: Fields)
    requires Documented(f)
    ensures SaysTheSame(ReadPolicy(f), f)
  {
    hide Trim, Strings, IsSpace, GoodId;
    GoodIdIff(f);
    StringsAt(f["allowedSymbols"].items);
  }

  /**
   A policy value is valid exactly when it holds the documented fields and no other, each of its kind and range; the
   policy then says what the value says, and any other value leaves a disabled policy.
   */
  lemma ValidatedIff(value: Value)
    ensures var l := Validated(value);
      && (l.valid <==> value.VObj? && Documented(value.fields))
      && (l.valid ==> SaysTheSame(l.policy, value.fields)) && (!l.valid ==> !l.policy.enabled)
  {
    hide FieldErrors, Documented, ReadPolicy, SaysTheSame;
    if value.VObj? {
      FieldsIff(value.fields);
      if Documented(value.fields) { ReadSaysTheSame(value.fields); }
    }
  }
}
