/** The deterministic gates in front of every order: system safety, intention checks, approval checks. */
module TradingSafety {
  import opened Basics
  import opened TradingTypes
  import opened StableSort

  const STREAM_STALE_MS := 120_000
  const MAX_API_ERRORS := 3

  datatype SystemReason =
    | KillSwitchIsLatched | AdapterUnhealthy | ExchangeUnsafe
    | MarketMissing(symbol: string) | MarketStale(symbol: string)
    | OrderMismatch(id: string) | UnknownExchangeOrder(id: string) | EquityUnreadable
    | DailyLoss | WeeklyLoss | PermissionAnomaly | UnexpectedPosition | UnexpectedOrder | StreamStale | ApiErrors

  /** The reasons whose text matches the original's "critical" pattern. */
  predicate Critical(r: SystemReason) {
    || r.OrderMismatch? || r.UnknownExchangeOrder? || r.DailyLoss? || r.WeeklyLoss? || r.PermissionAnomaly?
    || r.UnexpectedPosition? || r.UnexpectedOrder? || r.StreamStale?
  }

  function Equity(s: Snapshot): real {
    if s.equity.Some? then s.equity.value else 0.0
  }

  function PerUnitLoss(i: Intention): real {
    if i.side.Buy? then i.limitPrice - i.invalidationPrice else i.invalidationPrice - i.limitPrice
  }

  /** What the position loses if the market reaches the invalidation price. */
  function LossAtInvalidation(i: Intention): real {
    Max(0.0, PerUnitLoss(i) * i.quantity)
  }

  /** `Math.max(0, ...) || equity * risk_fraction`: a zero loss falls back to the declared fraction. */
  function EstimateRiskAmount(i: Intention, s: Snapshot): real {
    if LossAtInvalidation(i) != 0.0 then LossAtInvalidation(i) else Equity(s) * i.riskFraction
  }

  // ------------------------------------------------------------------ system safety

  function MarketReason(symbol: string, p: Policy, s: Snapshot, now: int): seq<SystemReason> {
    if symbol !in s.market then [MarketMissing(symbol)]
    else When(now - s.market[symbol].lastUpdateAt > p.maxMarketDataAgeMs, MarketStale(symbol))
  }

  function MarketReasons(symbols: seq<string>, p: Policy, s: Snapshot, now: int): seq<SystemReason> {
    if symbols == [] then []
    else MarketReasons(symbols[..|symbols| - 1], p, s, now) + MarketReason(symbols[|symbols| - 1], p, s, now)
  }

  ghost predicate FreshMarket(symbol: string, p: Policy, s: Snapshot, now: int) {
    symbol in s.market && now - s.market[symbol].lastUpdateAt <= p.maxMarketDataAgeMs
  }

  ghost predicate FreshMarkets(symbols: seq<string>, p: Policy, s: Snapshot, now: int) {
    forall j :: 0 <= j < |symbols| ==> FreshMarket(symbols[j], p, s, now)
  }

  lemma {:induction false} MarketReasonsMeaning(symbols: seq<string>, p: Policy, s: Snapshot, now: int)
    ensures MarketReasons(symbols, p, s, now) == [] <==> FreshMarkets(symbols, p, s, now)
  {
    if symbols != [] {
      var init, last := symbols[..|symbols| - 1], symbols[|symbols| - 1];
      MarketReasonsMeaning(init, p, s, now);
      assert MarketReason(last, p, s, now) == [] <==> FreshMarket(last, p, s, now);
      hide FreshMarket, MarketReason;
      assert forall j :: 0 <= j < |init| ==> symbols[j] == init[j];
      assert |MarketReasons(symbols, p, s, now)| == |MarketReasons(init, p, s, now)| + |MarketReason(last, p, s, now)|;
    }
  }

  /** `new Set(orders.map(o => o.clientOrderId))` in insertion order. */
  function OrderIds(orders: seq<OpenOrder>): (r: seq<string>)
    ensures forall id :: id in r <==> exists o :: o in orders && o.clientOrderId == id
  {
    if orders == [] then []
    else
      assert orders == orders[..|orders| - 1] + [orders[|orders| - 1]];
      var r := OrderIds(orders[..|orders| - 1]);
      var id := orders[|orders| - 1].clientOrderId;
      if id in r then r else r + [id]
  }

  function Unmatched(ids: seq<string>, others: seq<string>, local: bool): seq<SystemReason> {
    if ids == [] then []
    else
      var id := ids[|ids| - 1];
      Unmatched(ids[..|ids| - 1], others, local)
      + When(id !in others, if local then OrderMismatch(id) else UnknownExchangeOrder(id))
  }

  lemma {:induction false} UnmatchedMeaning(ids: seq<string>, others: seq<string>, local: bool)
    ensures Unmatched(ids, others, local) == [] <==> forall id :: id in ids ==> id in others
    ensures forall x :: x in Unmatched(ids, others, local) ==> Critical(x)
  {
    if ids != [] {
      var init, last := ids[..|ids| - 1], ids[|ids| - 1];
      UnmatchedMeaning(init, others, local);
      assert ids == init + [last];
    }
  }

  function AccountReasons(p: Policy, r: Runtime, s: Snapshot, now: int): seq<SystemReason> {
    var equity := Equity(s);
    When(s.equity.None? || s.equity.value <= 0.0, EquityUnreadable)
    + When(equity > 0.0 && s.dailyRealizedPnl <= -(equity * p.maxDailyLossFraction), DailyLoss)
    + When(equity > 0.0 && s.weeklyRealizedPnl <= -(equity * p.maxWeeklyLossFraction), WeeklyLoss)
    + When(s.permissionAnomaly, PermissionAnomaly)
    + When(s.openPositions > p.maxOpenPositions, UnexpectedPosition)
    + When(|s.openOrders| > p.maxOpenOrders, UnexpectedOrder)
    + When(p.mode.Live? && |s.openOrders| > 0 &&
           (r.lastPrivateStreamAt.None? || now - r.lastPrivateStreamAt.value > STREAM_STALE_MS), StreamStale)
    + When(s.apiErrorCount > MAX_API_ERRORS, ApiErrors)
  }

  function ExchangeReasons(s: Snapshot): seq<SystemReason> {
    When(!s.adapterHealthy, AdapterUnhealthy)
    + When(s.exchangeStatus.Maintenance? || s.exchangeStatus.CancelOnly? || s.exchangeStatus.Unknown?, ExchangeUnsafe)
  }

  function OrderReasons(s: Snapshot): seq<SystemReason> {
    var local, exchange := OrderIds(s.localOpenOrders), OrderIds(s.openOrders);
    Unmatched(local, exchange, true) + Unmatched(exchange, local, false)
  }

  function SystemReasons(p: Policy, r: Runtime, s: Snapshot, now: int): seq<SystemReason> {
    ExchangeReasons(s) + MarketReasons(p.allowedSymbols, p, s, now) + OrderReasons(s) + AccountReasons(p, r, s, now)
  }

  predicate IsCritical(reasons: seq<SystemReason>) {
    exists i :: 0 <= i < |reasons| && Critical(reasons[i])
  }

  ghost predicate SafeAccount(p: Policy, r: Runtime, s: Snapshot, now: int) {
    && s.equity.Some? && s.equity.value > 0.0
    && s.dailyRealizedPnl > -(s.equity.value * p.maxDailyLossFraction)
    && s.weeklyRealizedPnl > -(s.equity.value * p.maxWeeklyLossFraction)
    && !s.permissionAnomaly
    && s.openPositions <= p.maxOpenPositions && |s.openOrders| <= p.maxOpenOrders
    && (p.mode.Live? && |s.openOrders| > 0 ==>
          r.lastPrivateStreamAt.Some? && now - r.lastPrivateStreamAt.value <= 2 * 60 * 1000)
    && s.apiErrorCount <= 3
  }

  ghost predicate SameOrderIds(s: Snapshot) {
    (set o | o in s.localOpenOrders :: o.clientOrderId) == (set o | o in s.openOrders :: o.clientOrderId)
  }

  /** What "safe" means, without the list of reasons. */
  ghost predicate SafeSystem(p: Policy, r: Runtime, s: Snapshot, now: int) {
    && s.adapterHealthy && (s.exchangeStatus.Online? || s.exchangeStatus.PostOnly?)
    && FreshMarkets(p.allowedSymbols, p, s, now)
    && SameOrderIds(s)
    && SafeAccount(p, r, s, now)
  }

  lemma SystemSafetyMeaning(p: Policy, r: Runtime, s: Snapshot, now: int)
    ensures SystemReasons(p, r, s, now) == [] <==> SafeSystem(p, r, s, now)
  {
    hide SafeAccount, AccountReasons, MarketReasons, OrderReasons, SameOrderIds, FreshMarkets;
    OrderSafetyMeaning(s);
    AccountSafetyMeaning(p, r, s, now);
    MarketReasonsMeaning(p.allowedSymbols, p, s, now);
    var e, m, o, a := ExchangeReasons(s), MarketReasons(p.allowedSymbols, p, s, now), OrderReasons(s),
      AccountReasons(p, r, s, now);
    assert |SystemReasons(p, r, s, now)| == |e| + |m| + |o| + |a|;
    assert e == [] <==> s.adapterHealthy && (s.exchangeStatus.Online? || s.exchangeStatus.PostOnly?);
  }

  lemma OrderSafetyMeaning(s: Snapshot)
    ensures OrderReasons(s) == [] <==> SameOrderIds(s)
  {
    var local, exchange := OrderIds(s.localOpenOrders), OrderIds(s.openOrders);
    UnmatchedMeaning(local, exchange, true);
    UnmatchedMeaning(exchange, local, false);
    var localSet, exchangeSet := set o | o in s.localOpenOrders :: o.clientOrderId, set o | o in s.openOrders ::
      o.clientOrderId;
    assert forall id :: id in local <==> id in localSet;
    assert forall id :: id in exchange <==> id in exchangeSet;
    if localSet == exchangeSet {
    } else {
      var id :| (id in localSet) != (id in exchangeSet);
    }
  }

  lemma AccountSafetyMeaning(p: Policy, r: Runtime, s: Snapshot, now: int)
    ensures AccountReasons(p, r, s, now) == [] <==> SafeAccount(p, r, s, now)
  {
  }

  /** The loops of the original, pushing reasons one by one. */
  method ValidateSystemSafety(p: Policy, r: Runtime, s: Snapshot, now: int)
    returns (ok: bool, critical: bool, reasons: seq<SystemReason>)
    ensures reasons == SystemReasons(p, r, s, now)
    ensures ok <==> SafeSystem(p, r, s, now)
    ensures critical <==> IsCritical(reasons)
  {
    reasons := [];
    if !s.adapterHealthy { reasons := reasons + [AdapterUnhealthy]; }
    if s.exchangeStatus.Maintenance? || s.exchangeStatus.CancelOnly? ||
      s.exchangeStatus.Unknown? { reasons := reasons + [ExchangeUnsafe]; }
    assert reasons == ExchangeReasons(s);
    reasons := PushMarketReasons(reasons, p, s, now);
    reasons := PushOrderReasons(reasons, s);
    reasons := reasons + AccountReasons(p, r, s, now);
    SystemSafetyMeaning(p, r, s, now);
    ok := |reasons| == 0;
    critical := IsCritical(reasons);
  }

  method PushOrderReasons(pushed: seq<SystemReason>, s: Snapshot) returns (reasons: seq<SystemReason>)
    ensures reasons == pushed + OrderReasons(s)
  {
    var local, exchange := OrderIds(s.localOpenOrders), OrderIds(s.openOrders);
    reasons := PushUnmatched(pushed, local, exchange, true);
    reasons := PushUnmatched(reasons, exchange, local, false);
  }

  method PushMarketReasons(pushed: seq<SystemReason>, p: Policy, s: Snapshot, now: int)
    returns (reasons: seq<SystemReason>)
    ensures reasons == pushed + MarketReasons(p.allowedSymbols, p, s, now)
  {
    reasons := pushed;
    for i := 0 to |p.allowedSymbols|
      invariant reasons == pushed + MarketReasons(p.allowedSymbols[..i], p, s, now)
    {
      var symbol := p.allowedSymbols[i];
      assert p.allowedSymbols[..i + 1][..i] == p.allowedSymbols[..i];
      if symbol !in s.market {
        reasons := reasons + [MarketMissing(symbol)];
      } else if now - s.market[symbol].lastUpdateAt > p.maxMarketDataAgeMs {
        reasons := reasons + [MarketStale(symbol)];
      }
    }
    assert p.allowedSymbols[..|p.allowedSymbols|] == p.allowedSymbols;
  }

  method PushUnmatched(pushed: seq<SystemReason>, ids: seq<string>, others: seq<string>, local: bool)
    returns (reasons: seq<SystemReason>)
    ensures reasons == pushed + Unmatched(ids, others, local)
  {
    reasons := pushed;
    for i := 0 to |ids|
      invariant reasons == pushed + Unmatched(ids[..i], others, local)
    {
      assert ids[..i + 1][..i] == ids[..i];
      if ids[i] !in others {
        reasons := reasons + [if local then OrderMismatch(ids[i]) else UnknownExchangeOrder(ids[i])];
      }
    }
    assert ids[..|ids|] == ids;
  }

  // ------------------------------------------------------------------ intention checks

  datatype IntentionReason =
    | IdRequired | NotExecutable | CreatedAtInvalid | ExpiresAtInvalid | IntentionExpired | PolicyMismatch
    | SymbolNotAllowed | LimitPriceNotPositive | QuantityNotPositive | InvalidationNotPositive | RiskFractionTooHigh
    | MarketDataMissing | MarketDataStale | SpreadTooWide | NoEquity | RiskTooHigh | DailyLossBreached
    | TooManyOrders | TooManyPositions
    | ApprovalMissing | ApprovalReused | ApprovalExpired | ApprovalForOtherIntention | ApprovalSymbol | ApprovalSide
    | ApprovalQuantity | ApprovalPolicy | ApprovalStrategy | ApprovalRisk | ApprovalLimitPrice | MarketMoved
    | CapNotPositive | NotionalNotPositive | NotionalAboveCap

  function Tolerance(a: Approval): real {
    a.limitPrice * (a.toleranceBps / 10000.0)
  }

  function ApprovalReasons(i: Intention, approval: Option<Approval>, s: Snapshot, now: int): seq<IntentionReason> {
    match approval
    case None => [ApprovalMissing]
    case Some(a) =>
      When(a.usedAt.Some?, ApprovalReused)
      + When(a.expiresAt <= now, ApprovalExpired)
      + When(a.intentionId != i.id, ApprovalForOtherIntention)
      + When(a.symbol != i.symbol, ApprovalSymbol)
      + When(a.side != i.side, ApprovalSide)
      + When(a.quantity != i.quantity, ApprovalQuantity)
      + When(a.policyId != i.policyId, ApprovalPolicy)
      + When(a.strategyId != i.strategyId, ApprovalStrategy)
      + When(Abs(a.riskAmount - EstimateRiskAmount(i, s)) > 0.000001, ApprovalRisk)
      + When(Abs(a.limitPrice - i.limitPrice) > Tolerance(a), ApprovalLimitPrice)
      + When(i.symbol in s.market && Abs(s.market[i.symbol].mid - a.limitPrice) > Tolerance(a), MarketMoved)
  }

  function AutonomousReasons(i: Intention, p: Policy): seq<IntentionReason> {
    if i.mode != Live || p.live.requiresHumanApproval then []
    else
      var cap, notional := p.live.maxAutonomousNotionalUsd, i.limitPrice * i.quantity;
      When(cap <= 0.0, CapNotPositive)
      + (if notional <= 0.0 then [NotionalNotPositive] else When(cap > 0.0 && notional > cap, NotionalAboveCap))
  }

  function FieldReasons(i: Intention, p: Policy, now: int): seq<IntentionReason> {
    When(i.id == "", IdRequired)
    + When(i.status != Staged && i.status != Approved, NotExecutable)
    + When(i.createdAt.Invalid?, CreatedAtInvalid)
    + When(i.expiresAt.Invalid?, ExpiresAtInvalid)
    + When(i.expiresAt.NotAfter(now), IntentionExpired)
    + When(i.policyId != p.id, PolicyMismatch)
    + When(i.symbol !in p.allowedSymbols, SymbolNotAllowed)
    + When(i.limitPrice <= 0.0, LimitPriceNotPositive)
    + When(i.quantity <= 0.0, QuantityNotPositive)
    + When(i.invalidationPrice <= 0.0, InvalidationNotPositive)
    + When(i.riskFraction > p.maxRiskPerTradeFraction, RiskFractionTooHigh)
  }

  function MarketAndRiskReasons(i: Intention, p: Policy, s: Snapshot, now: int): seq<IntentionReason> {
    var equity := Equity(s);
    (if i.symbol !in s.market then [MarketDataMissing]
     else When(now - s.market[i.symbol].lastUpdateAt > p.maxMarketDataAgeMs, MarketDataStale)
          + When(s.market[i.symbol].spreadBps > i.maxSpreadBps, SpreadTooWide))
    + (if equity <= 0.0 then [NoEquity]
       else When(EstimateRiskAmount(i, s) / equity > p.maxRiskPerTradeFraction, RiskTooHigh))
    + When(equity > 0.0 && s.dailyRealizedPnl <= -(equity * p.maxDailyLossFraction), DailyLossBreached)
    + When(|s.openOrders| >= p.maxOpenOrders, TooManyOrders)
    + When(s.openPositions >= p.maxOpenPositions, TooManyPositions)
  }

  function IntentionReasons(i: Intention, approval: Option<Approval>, p: Policy, s: Snapshot,
                            now: int): seq<IntentionReason>
  {
    FieldReasons(i, p, now)
    + MarketAndRiskReasons(i, p, s, now)
    + (if i.mode.Live? && p.live.requiresHumanApproval then ApprovalReasons(i, approval, s, now) else [])
    + AutonomousReasons(i, p)
  }

  /** The loss from the limit price to the invalidation price, which a buy has below it and a sell above it. */
  ghost predicate LosesAtMost(i: Intention, bound: real) {
    && (i.side.Buy? ==> (i.limitPrice - i.invalidationPrice) * i.quantity <= bound)
    && (i.side.Sell? ==> (i.invalidationPrice - i.limitPrice) * i.quantity <= bound)
  }

  /** The risk of an intention: its loss at invalidation, or the declared fraction of equity where it loses nothing. */
  ghost predicate HasRisk(i: Intention, equity: real, risk: real) {
    var loss := if i.side.Buy? then (i.limitPrice - i.invalidationPrice) * i.quantity
                else (i.invalidationPrice - i.limitPrice) * i.quantity;
    risk == if loss > 0.0 then loss else equity * i.riskFraction
  }

  lemma EstimateIsRisk(i: Intention, s: Snapshot)
    ensures HasRisk(i, if s.equity.Some? then s.equity.value else 0.0, EstimateRiskAmount(i, s))
  {
  }

  ghost predicate Within(x: real, y: real, tolerance: real) {
    -tolerance <= x - y <= tolerance
  }

  /** The approval is for this intention, unused and unexpired, and neither risk nor prices have moved beyond it. */
  ghost predicate ApprovalFits(i: Intention, a: Approval, s: Snapshot, now: int) {
    && a.usedAt.None? && now < a.expiresAt && a.intentionId == i.id
    && a.symbol == i.symbol && a.side == i.side && a.quantity == i.quantity
    && a.policyId == i.policyId && a.strategyId == i.strategyId
    && (exists risk :: HasRisk(i, if s.equity.Some? then s.equity.value else 0.0, risk) &&
                       Within(a.riskAmount, risk, 0.000001))
    && Within(a.limitPrice, i.limitPrice, a.limitPrice * (a.toleranceBps / 10000.0))
    && (i.symbol in s.market ==>
          Within(s.market[i.symbol].mid, a.limitPrice, a.limitPrice * (a.toleranceBps / 10000.0)))
  }

  ghost predicate FieldsFit(i: Intention, p: Policy, now: int) {
    && i.id != "" && (i.status.Staged? || i.status.Approved?)
    && i.createdAt.At? && i.expiresAt.At? && now < i.expiresAt.ms
    && i.policyId == p.id && i.symbol in p.allowedSymbols
    && i.limitPrice > 0.0 && i.quantity > 0.0 && i.invalidationPrice > 0.0
    && i.riskFraction <= p.maxRiskPerTradeFraction
  }

  ghost predicate MarketFits(i: Intention, p: Policy, s: Snapshot, now: int) {
    && i.symbol in s.market && now - s.market[i.symbol].lastUpdateAt <= p.maxMarketDataAgeMs
    && s.market[i.symbol].spreadBps <= i.maxSpreadBps
    && s.equity.Some? && s.equity.value > 0.0
    && s.dailyRealizedPnl > -(s.equity.value * p.maxDailyLossFraction)
    && |s.openOrders| < p.maxOpenOrders && s.openPositions < p.maxOpenPositions
  }

  /** What an acceptable intention is, field by field, without the list of reasons. */
  ghost predicate Acceptable(i: Intention, approval: Option<Approval>, p: Policy, s: Snapshot, now: int) {
    && FieldsFit(i, p, now) && MarketFits(i, p, s, now)
    && LosesAtMost(i, Max(0.0, p.maxRiskPerTradeFraction * s.equity.value))
    && (i.mode.Live? && p.live.requiresHumanApproval ==> approval.Some? && ApprovalFits(i, approval.value, s, now))
    && (i.mode.Live? && !p.live.requiresHumanApproval ==> NotionalFits(i, p))
  }

  /** The notional is positive and at most what the policy lets pass without a human. */
  ghost predicate NotionalFits(i: Intention, p: Policy) {
    0.0 < i.limitPrice * i.quantity <= p.live.maxAutonomousNotionalUsd
  }

  /** Validation gives no reason exactly for the acceptable intentions. */
  lemma AcceptedIff(i: Intention, approval: Option<Approval>, p: Policy, s: Snapshot, now: int)
    ensures IntentionReasons(i, approval, p, s, now) == [] <==> Acceptable(i, approval, p, s, now)
  {
    hide FieldReasons, MarketAndRiskReasons, ApprovalReasons, AutonomousReasons, FieldsFit, MarketFits, ApprovalFits,
      LosesAtMost, NotionalFits;
    var f, m, n := FieldReasons(i, p, now), MarketAndRiskReasons(i, p, s, now), AutonomousReasons(i, p);
    var a := if i.mode.Live? && p.live.requiresHumanApproval then ApprovalReasons(i, approval, s, now) else [];
    assert |IntentionReasons(i, approval, p, s, now)| == |f| + |m| + |a| + |n|;
    FieldsFitIff(i, p, now);
    MarketHasEquity(i, p, s, now);
    if f == [] { MarketFitsIff(i, p, s, now); }
    if approval.Some? { ApprovalFitsIff(i, approval.value, s, now); } else { NoApproval(i, s, now); }
    AutonomousIff(i, p);
  }

  lemma MarketHasEquity(i: Intention, p: Policy, s: Snapshot, now: int)
    ensures MarketFits(i, p, s, now) ==> s.equity.Some?
  {
  }

  lemma NoApproval(i: Intention, s: Snapshot, now: int)
    ensures ApprovalReasons(i, None, s, now) != []
  {
  }

  lemma FieldsFitIff(i: Intention, p: Policy, now: int)
    ensures FieldReasons(i, p, now) == [] <==> FieldsFit(i, p, now)
    ensures FieldsFit(i, p, now) ==> i.riskFraction <= p.maxRiskPerTradeFraction
  {
  }

  lemma AutonomousIff(i: Intention, p: Policy)
    ensures AutonomousReasons(i, p) == [] <==>
            (i.mode.Live? && !p.live.requiresHumanApproval ==> NotionalFits(i, p))
  {
  }

  lemma ApprovalFitsIff(i: Intention, a: Approval, s: Snapshot, now: int)
    ensures ApprovalReasons(i, Some(a), s, now) == [] <==> ApprovalFits(i, a, s, now)
  {
    var equity, risk := if s.equity.Some? then s.equity.value else 0.0, EstimateRiskAmount(i, s);
    EstimateIsRisk(i, s);
    OneRisk(i, equity, risk);
    hide EstimateRiskAmount, HasRisk;
    var tolerance := a.limitPrice * (a.toleranceBps / 10000.0);
    AbsWithin(a.riskAmount, risk, 0.000001);
    AbsWithin(a.limitPrice, i.limitPrice, tolerance);
    if i.symbol in s.market { AbsWithin(s.market[i.symbol].mid, a.limitPrice, tolerance); }
    hide Within, Abs;
  }

  lemma OneRisk(i: Intention, equity: real, risk: real)
    requires HasRisk(i, equity, risk)
    ensures forall other :: HasRisk(i, equity, other) ==> other == risk
  {
  }

  lemma AbsWithin(x: real, y: real, tolerance: real)
    ensures Abs(x - y) <= tolerance <==> Within(x, y, tolerance)
  {
  }

  /** The estimate stays below the policy's fraction of equity exactly when the loss does. */
  lemma MarketFitsIff(i: Intention, p: Policy, s: Snapshot, now: int)
    requires i.riskFraction <= p.maxRiskPerTradeFraction
    ensures MarketAndRiskReasons(i, p, s, now) == [] <==>
            MarketFits(i, p, s, now) && LosesAtMost(i, Max(0.0, p.maxRiskPerTradeFraction * s.equity.value))
  {
    var equity, risk, cap := Equity(s), EstimateRiskAmount(i, s), p.maxRiskPerTradeFraction;
    if equity > 0.0 {
      RiskIff(i, s, cap);
      hide EstimateRiskAmount, LosesAtMost, Max;
    }
  }

  lemma RiskIff(i: Intention, s: Snapshot, cap: real)
    requires Equity(s) > 0.0 && i.riskFraction <= cap
    ensures EstimateRiskAmount(i, s) / Equity(s) <= cap <==> LosesAtMost(i, Max(0.0, cap * Equity(s)))
  {
    var equity, loss := Equity(s), LossAtInvalidation(i);
    QuotientAtMost(EstimateRiskAmount(i, s), equity, cap);
    MultiplyBound(i.riskFraction, cap, equity);
    LosesIff(i, Max(0.0, cap * equity));
    LossIsPositive(i);
    assert EstimateRiskAmount(i, s) == if loss != 0.0 then loss else equity * i.riskFraction;
    hide EstimateRiskAmount, LosesAtMost, LossAtInvalidation, Equity;
  }

  lemma LossIsPositive(i: Intention)
    ensures LossAtInvalidation(i) >= 0.0
  {
  }

  lemma LosesIff(i: Intention, bound: real)
    requires bound >= 0.0
    ensures LosesAtMost(i, bound) <==> LossAtInvalidation(i) <= bound
  {
  }

  lemma QuotientAtMost(x: real, y: real, cap: real)
    requires y > 0.0
    ensures x / y <= cap <==> x <= cap * y
  {
    assert (x / y) * y == x;
    FactorAtMost(x / y, y, cap, x);
  }

  lemma FactorAtMost(q: real, y: real, cap: real, x: real)
    requires y > 0.0 && q * y == x
    ensures q <= cap <==> x <= cap * y
  {
    if q <= cap { MultiplyBound(q, cap, y); } else { MultiplyStrict(cap, q, y); }
  }

  lemma MultiplyBound(a: real, b: real, c: real)
    requires a <= b && c >= 0.0
    ensures a * c <= b * c
  {
    assert (b - a) * c >= 0.0;
  }

  lemma MultiplyStrict(a: real, b: real, c: real)
    requires a < b && c > 0.0
    ensures a * c < b * c
  {
    assert (b - a) * c > 0.0;
  }

  // ------------------------------------------------------------------ selection and expiry

  predicate Executable(i: Intention) {
    i.status.Staged? || i.status.Approved?
  }

  function Created(i: Intention): real {
    if i.createdAt.At? then i.createdAt.ms as real else 0.0
  }

  function Eligible(list: seq<Intention>, now: int): seq<Intention> {
    if list == [] then []
    else (if Executable(list[0]) && list[0].expiresAt.After(now) then [list[0]] else []) + Eligible(list[1..], now)
  }

  lemma {:induction false} EligibleMember(list: seq<Intention>, now: int, i: Intention)
    ensures i in Eligible(list, now) <==> i in list && Executable(i) && i.expiresAt.After(now)
  {
    if list != [] {
      EligibleMember(list[1..], now, i);
      assert list == [list[0]] + list[1..];
    }
  }

  lemma {:induction false} EligibleConcat(a: seq<Intention>, b: seq<Intention>, now: int)
    ensures Eligible(a + b, now) == Eligible(a, now) + Eligible(b, now)
  {
    if a == [] {
      assert a + b == b;
    } else {
      assert (a + b)[1..] == a[1..] + b;
      EligibleConcat(a[1..], b, now);
    }
  }

  function SelectNext(list: seq<Intention>, now: int): Option<Intention> {
    var sorted := Sort(Eligible(list, now), Created);
    if sorted == [] then None else Some(sorted[0])
  }

  ghost predicate Candidate(list: seq<Intention>, at: nat, now: int)
    requires at < |list|
  {
    Executable(list[at]) && list[at].expiresAt.After(now)
  }

  /** `at` is the first of the candidates that the sort puts foremost. */
  ghost predicate FirstLeast(list: seq<Intention>, at: nat, now: int) {
    && at < |list| && Candidate(list, at, now)
    && (forall j :: 0 <= j < |list| && Candidate(list, j, now) ==> Created(list[at]) <= Created(list[j]))
    && (forall j :: 0 <= j < at && Candidate(list, j, now) ==> Created(list[at]) < Created(list[j]))
  }

  lemma SelectsFirstLeast(list: seq<Intention>, at: nat, now: int)
    requires FirstLeast(list, at, now)
    ensures SelectNext(list, now) == Some(list[at])
  {
    hide Executable, Created;
    var before, after := list[..at], list[at + 1..];
    assert list == before + ([list[at]] + after);
    EligibleConcat(before, [list[at]] + after, now);
    assert ([list[at]] + after)[1..] == after;
    var eligible, e := Eligible(list, now), |Eligible(before, now)|;
    assert eligible[e] == list[at];
    forall j | 0 <= j < |eligible|
      ensures Created(eligible[e]) <= Created(eligible[j])
      ensures j < e ==> Created(eligible[e]) < Created(eligible[j])
    {
      EligibleMember(list, now, eligible[j]);
      var k :| 0 <= k < |list| && list[k] == eligible[j];
      assert Candidate(list, k, now);
      if j < e {
        EligibleMember(before, now, eligible[j]);
        var b :| 0 <= b < |before| && before[b] == eligible[j];
        assert Candidate(list, b, now);
      }
    }
    SortHead(eligible, Created, e);
  }

  lemma {:induction false} FirstLeastExists(list: seq<Intention>, now: int, n: nat) returns (at: nat)
    requires n <= |list| && exists j :: 0 <= j < n && Candidate(list, j, now)
    ensures at < n && FirstLeast(list[..n], at, now)
  {
    var prefix := list[..n];
    if exists j :: 0 <= j < n - 1 && Candidate(list, j, now) {
      at := FirstLeastExists(list, now, n - 1);
      var shorter := list[..n - 1];
      assert Candidate(shorter, at, now);
      forall j | 0 <= j < n && Candidate(prefix, j, now)
        ensures j < n - 1 ==> Created(shorter[at]) <= Created(prefix[j])
        ensures j < at ==> Created(shorter[at]) < Created(prefix[j])
      {
        if j < n - 1 { assert Candidate(shorter, j, now); }
      }
      if Candidate(list, n - 1, now) && Created(list[n - 1]) < Created(list[at]) {
        at := n - 1;
      }
      assert Candidate(prefix, at, now);
    } else {
      at := n - 1;
      var j :| 0 <= j < n && Candidate(list, j, now);
      assert Candidate(prefix, at, now);
      assert forall k :: 0 <= k < n - 1 ==> (Candidate(prefix, k, now) <==> Candidate(list, k, now));
    }
  }

  /** Every candidate has a readable creation date. */
  ghost predicate Dated(list: seq<Intention>, now: int) {
    forall j :: 0 <= j < |list| && Candidate(list, j, now) ==> list[j].createdAt.At?
  }

  /** `at` is the candidate created first, and the first in listing order among those created with it. */
  ghost predicate FirstOldest(list: seq<Intention>, at: nat, now: int) {
    && at < |list| && Candidate(list, at, now) && Dated(list, now)
    && (forall j :: 0 <= j < |list| && Candidate(list, j, now) ==> list[at].createdAt.ms <= list[j].createdAt.ms)
    && (forall j :: 0 <= j < at && Candidate(list, j, now) ==> list[at].createdAt.ms < list[j].createdAt.ms)
  }

  lemma LeastIsOldest(list: seq<Intention>, at: nat, now: int)
    requires Dated(list, now)
    ensures FirstLeast(list, at, now) <==> FirstOldest(list, at, now)
  {
    if at < |list| && Candidate(list, at, now) {
      forall j | 0 <= j < |list| && Candidate(list, j, now)
        ensures Created(list[at]) <= Created(list[j]) <==> list[at].createdAt.ms <= list[j].createdAt.ms
        ensures Created(list[at]) < Created(list[j]) <==> list[at].createdAt.ms < list[j].createdAt.ms
      {
      }
      hide Created, Executable;
    }
  }

  /** The scheduler takes the unexpired candidate created first, ties broken by listing order. */
  lemma SelectsFirstOldest(list: seq<Intention>, at: nat, now: int)
    requires FirstOldest(list, at, now)
    ensures SelectNext(list, now) == Some(list[at])
  {
    LeastIsOldest(list, at, now);
    SelectsFirstLeast(list, at, now);
  }

  /** Nothing is selected exactly when nothing is pending; otherwise the first oldest record is. */
  lemma SelectNextSpec(list: seq<Intention>, now: int)
    ensures SelectNext(list, now).None? <==> forall j :: 0 <= j < |list| ==> !Candidate(list, j, now)
    ensures SelectNext(list, now).Some? ==>
              exists at: nat ::
                at < |list| && Candidate(list, at, now) && SelectNext(list, now).value == list[at]
                && (Dated(list, now) ==> FirstOldest(list, at, now))
  {
    hide SelectNext, FirstOldest, FirstLeast, Dated, Created;
    if exists j :: 0 <= j < |list| && Candidate(list, j, now) {
      var at := FirstLeastExists(list, now, |list|);
      assert list[..|list|] == list;
      SelectsFirstLeast(list, at, now);
      if Dated(list, now) { LeastIsOldest(list, at, now); }
      assert at < |list| && Candidate(list, at, now) by { LeastIsCandidate(list, at, now); }
    } else {
      NothingSelected(list, now);
    }
  }

  lemma LeastIsCandidate(list: seq<Intention>, at: nat, now: int)
    requires FirstLeast(list, at, now)
    ensures at < |list| && Candidate(list, at, now)
  {
  }

  lemma NothingSelected(list: seq<Intention>, now: int)
    requires forall j :: 0 <= j < |list| ==> !Candidate(list, j, now)
    ensures SelectNext(list, now).None?
  {
    var eligible := Eligible(list, now);
    SortSpec(eligible, Created);
    if eligible != [] {
      EligibleMember(list, now, eligible[0]);
      var k :| 0 <= k < |list| && list[k] == eligible[0];
      assert Candidate(list, k, now);
    }
  }

  /** The expiry sweep: only staged records expire. */
  function RejectExpired(list: seq<Intention>, now: int): (r: seq<Intention>)
    ensures |r| == |list|
    ensures forall j :: 0 <= j < |list| ==>
              r[j] == if list[j].status.Staged? && list[j].expiresAt.NotAfter(now) then list[j].(status := Expired)
                else list[j]
  {
    if list == [] then []
    else
      [if list[0].status.Staged? && list[0].expiresAt.NotAfter(now) then list[0].(status := Expired) else list[0]]
      + RejectExpired(list[1..], now)
  }
}
