/** Position sizing and the pre-trade risk gate, which must agree about the loss of the same order. */
module PositionSizing {
  import opened Basics

  datatype Side = Buy | Sell | OtherSide

  // ------------------------------------------------------------------ sizing

  datatype SizingInput = SizingInput(
    equity: real, side: Side, entry: real, stop: real, riskFraction: Option<real>, maxNotionalFraction: Option<real>,
    feeBps: real, slippageBps: real, quantityStep: Option<real>)

  datatype SizingReason =
    | EquityNotPositive | SizeSide | EntryNotPositive | StopNotPositive | RiskFractionNotPositive
    | NotionalFractionNotPositive | BuyStopNotBelow | SellStopNotAbove | RiskPerUnitNotPositive | RoundsToZero

  datatype Sizing = Sizing(
    quantity: real, notional: real, maxLoss: real, riskFraction: Option<real>, reasons: seq<SizingReason>) {
    predicate Ok() { reasons == [] }
  }

  function RiskFractionOf(i: SizingInput): real {
    if i.riskFraction.Some? then i.riskFraction.value else 0.001
  }

  function NotionalFractionOf(i: SizingInput): real {
    if i.maxNotionalFraction.Some? then i.maxNotionalFraction.value else 0.01
  }

  function StepOf(i: SizingInput): real {
    if i.quantityStep.Some? then i.quantityStep.value else 0.00000001
  }

  function BasicReasons(i: SizingInput): seq<SizingReason> {
    When(i.equity <= 0.0, EquityNotPositive)
    + When(i.side.OtherSide?, SizeSide)
    + When(i.entry <= 0.0, EntryNotPositive)
    + When(i.stop <= 0.0, StopNotPositive)
    + When(RiskFractionOf(i) <= 0.0, RiskFractionNotPositive)
    + When(NotionalFractionOf(i) <= 0.0, NotionalFractionNotPositive)
  }

  function InputReasons(i: SizingInput): seq<SizingReason> {
    var basic := BasicReasons(i);
    if basic != [] then basic
    else
      When(i.side.Buy? && i.stop >= i.entry, BuyStopNotBelow)
      + When(i.side.Sell? && i.stop <= i.entry, SellStopNotAbove)
  }

  function RiskPerUnit(i: SizingInput): real {
    Abs(i.entry - i.stop) + i.entry * (i.feeBps + i.slippageBps) / 10000.0
  }

  function LossBudget(i: SizingInput): real { i.equity * RiskFractionOf(i) }

  function NotionalBudget(i: SizingInput): real { i.equity * NotionalFractionOf(i) }

  function Divide(a: real, b: real): (q: real)
    requires b != 0.0
    ensures q * b == a
  {
    a / b
  }

  /** The quantity before rounding; a zero risk per unit divides to infinity, so only the notional limits it. */
  function RawQuantity(i: SizingInput): real
    requires i.entry > 0.0
  {
    var byNotional := Divide(NotionalBudget(i), i.entry);
    if RiskPerUnit(i) == 0.0 then byNotional else Min(Divide(LossBudget(i), RiskPerUnit(i)), byNotional)
  }

  function Multiple(n: int, step: real): real { n as real * step }

  function RoundDown(q: real, step: real): real {
    if step > 0.0 then Multiple(Divide(q, step).Floor, step) else q
  }

  function SizePosition(i: SizingInput): Sizing {
    var invalid := InputReasons(i);
    if invalid != [] then Sizing(0.0, 0.0, 0.0, None, invalid)
    else
      var q := RoundDown(RawQuantity(i), StepOf(i));
      Sizing(q, q * i.entry, q * RiskPerUnit(i), if i.equity > 0.0 then Some(q * RiskPerUnit(i) / i.equity) else None,
             When(RiskPerUnit(i) <= 0.0, RiskPerUnitNotPositive) + When(q <= 0.0, RoundsToZero))
  }

  /** The loss of one unit: from entry to stop, with fee and slippage on the entry. */
  ghost predicate LosesPerUnit(i: SizingInput, loss: real) {
    loss == (if i.entry >= i.stop then i.entry - i.stop else i.stop - i.entry)
            + i.entry * (i.feeBps + i.slippageBps) / 10000.0
  }

  /**
   A quantity fits when its loss stays within the declared fraction of equity, or a thousandth, and its notional within
   the declared fraction, or a hundredth.
   */
  ghost predicate Fits(i: SizingInput, q: real) {
    && (forall loss :: LosesPerUnit(i, loss) ==>
          q * loss <= i.equity * (if i.riskFraction.Some? then i.riskFraction.value else 0.001))
    && q * i.entry <= i.equity * (if i.maxNotionalFraction.Some? then i.maxNotionalFraction.value else 0.01)
  }

  lemma FitsWithinBudgets(i: SizingInput, q: real)
    ensures LosesPerUnit(i, RiskPerUnit(i))
    ensures Fits(i, q) <==> q * RiskPerUnit(i) <= LossBudget(i) && q * i.entry <= NotionalBudget(i)
  {
    OneLoss(i);
    hide RiskPerUnit, LosesPerUnit;
  }

  lemma OneLoss(i: SizingInput)
    ensures forall loss :: LosesPerUnit(i, loss) <==> loss == RiskPerUnit(i)
  {
  }

  /** The step of the input, or a hundred-millionth. */
  ghost predicate IsStep(i: SizingInput, step: real) {
    step == if i.quantityStep.Some? then i.quantityStep.value else 0.00000001
  }

  lemma MulMono(a: real, b: real, c: real)
    requires a <= b && 0.0 <= c
    ensures a * c <= b * c
  {
    assert (b - a) * c >= 0.0;
  }

  lemma MulStrict(a: real, b: real, c: real)
    requires a < b && 0.0 < c
    ensures a * c < b * c
  {
    assert (b - a) * c > 0.0;
  }

  lemma DivideBound(z: real, a: real, b: real)
    requires b > 0.0
    ensures z * b <= a <==> z <= Divide(a, b)
  {
    hide Divide;
    var q := Divide(a, b);
    assert q * b == a;
    if z <= q { MulMono(z, q, b); } else { MulStrict(q, z, b); }
  }

  /** Fitting both budgets is being at most the unrounded quantity. */
  lemma FitsIffAtMostRaw(i: SizingInput, z: real)
    requires i.entry > 0.0 && RiskPerUnit(i) > 0.0
    ensures Fits(i, z) <==> z <= RawQuantity(i)
  {
    FitsWithinBudgets(i, z);
    hide RiskPerUnit, LossBudget, NotionalBudget, Fits;
    DivideBound(z, LossBudget(i), RiskPerUnit(i));
    DivideBound(z, NotionalBudget(i), i.entry);
  }

  /** Rounding down gives the largest multiple of the step that is not above the quantity. */
  lemma RoundDownSpec(q: real, step: real, n: int)
    requires step > 0.0
    ensures RoundDown(q, step) <= q
    ensures Multiple(n, step) <= q ==> Multiple(n, step) <= RoundDown(q, step)
  {
    var ratio := Divide(q, step);
    MulMono(ratio.Floor as real, ratio, step);
    if Multiple(n, step) <= q {
      DivideBound(n as real, q, step);
      assert n <= ratio.Floor;
      MulMono(n as real, ratio.Floor as real, step);
    }
  }

  lemma ValidInputs(i: SizingInput)
    requires SizePosition(i).Ok()
    ensures InputReasons(i) == [] && BasicReasons(i) == [] && i.equity > 0.0 && i.entry > 0.0 && i.stop > 0.0
    ensures RiskPerUnit(i) > 0.0 && SizePosition(i).quantity > 0.0
    ensures (i.side.Buy? && i.stop < i.entry) || (i.side.Sell? && i.stop > i.entry)
    ensures SizePosition(i).quantity == RoundDown(RawQuantity(i), StepOf(i))
  {
    hide RiskPerUnit, RoundDown, RawQuantity;
  }

  lemma RoundedIsMultiple(q: real, step: real)
    ensures step > 0.0 ==> RoundDown(q, step) == Multiple(Divide(q, step).Floor, step)
    ensures step <= 0.0 ==> RoundDown(q, step) == q
  {
  }

  /** An accepted size fits both budgets, and no larger multiple of the step (or real, without a step) does. */
  lemma SizeIsTheLargestThatFits(i: SizingInput, n: int, z: real, step: real)
    requires SizePosition(i).Ok() && IsStep(i, step)
    ensures var q := SizePosition(i).quantity;
      && q > 0.0 && Fits(i, q)
      && (step > 0.0 ==> exists k: int :: q == Multiple(k, step))
      && (step > 0.0 && Fits(i, Multiple(n, step)) ==> Multiple(n, step) <= q)
      && (step <= 0.0 && Fits(i, z) ==> z <= q)
  {
    assert step == StepOf(i);
    ValidInputs(i);
    hide *;
    FitsIffAtMostRaw(i, z);
    FitsIffAtMostRaw(i, Multiple(n, step));
    FitsIffAtMostRaw(i, SizePosition(i).quantity);
    RoundedIsMultiple(RawQuantity(i), step);
    if step > 0.0 { RoundDownSpec(RawQuantity(i), step, n); }
  }

  /** The amounts reported beside an accepted size are those of that size. */
  lemma SizingReports(i: SizingInput, loss: real)
    requires SizePosition(i).Ok() && LosesPerUnit(i, loss)
    ensures var z := SizePosition(i);
      && z.notional == z.quantity * i.entry && z.maxLoss == z.quantity * loss
      && z.riskFraction.Some? && z.riskFraction.value * i.equity == z.maxLoss
  {
    OneLoss(i);
    hide RiskPerUnit, RoundDown, RawQuantity, LosesPerUnit;
    ValidInputs(i);
  }

  /** What may be sized at all: a stop on the losing side of the entry, and amounts and fractions above zero. */
  ghost predicate Sizable(i: SizingInput) {
    && i.equity > 0.0 && i.entry > 0.0 && i.stop > 0.0
    && ((i.side.Buy? && i.stop < i.entry) || (i.side.Sell? && i.stop > i.entry))
    && (i.riskFraction.Some? ==> i.riskFraction.value > 0.0)
    && (i.maxNotionalFraction.Some? ==> i.maxNotionalFraction.value > 0.0)
    && (forall loss :: LosesPerUnit(i, loss) ==> loss > 0.0)
  }

  lemma SizableIff(i: SizingInput)
    ensures Sizable(i) <==> InputReasons(i) == [] && RiskPerUnit(i) > 0.0
  {
    OneLoss(i);
    hide RiskPerUnit, LosesPerUnit;
    assert LosesPerUnit(i, RiskPerUnit(i));
  }

  /** The sizing succeeds exactly for a sizable input of which one step fits both budgets, or that has no step. */
  lemma SizingSucceedsIff(i: SizingInput, step: real)
    requires IsStep(i, step)
    ensures SizePosition(i).Ok() <==> Sizable(i) && (step > 0.0 ==> Fits(i, step))
  {
    assert step == StepOf(i);
    SizableIff(i);
    hide RiskPerUnit, Fits, StepOf, Sizable;
    if InputReasons(i) == [] && RiskPerUnit(i) > 0.0 {
      PositiveInputs(i);
      RawIsPositive(i);
      FitsIffAtMostRaw(i, step);
      if step > 0.0 {
        RoundDownSpec(RawQuantity(i), step, 1);
        RoundDownPositive(RawQuantity(i), step);
      }
      hide RawQuantity;
    }
  }

  lemma PositiveInputs(i: SizingInput)
    requires InputReasons(i) == []
    ensures i.entry > 0.0 && LossBudget(i) > 0.0 && NotionalBudget(i) > 0.0
  {
    MulStrict(0.0, i.equity, RiskFractionOf(i));
    MulStrict(0.0, i.equity, NotionalFractionOf(i));
  }

  lemma RawIsPositive(i: SizingInput)
    requires i.entry > 0.0 && RiskPerUnit(i) > 0.0 && LossBudget(i) > 0.0 && NotionalBudget(i) > 0.0
    ensures RawQuantity(i) > 0.0
  {
    hide RiskPerUnit, LossBudget, NotionalBudget;
    DividePositive(LossBudget(i), RiskPerUnit(i));
    DividePositive(NotionalBudget(i), i.entry);
  }

  lemma DividePositive(a: real, b: real)
    requires a > 0.0 && b > 0.0
    ensures Divide(a, b) > 0.0
  {
    hide Divide;
    if Divide(a, b) <= 0.0 { MulMono(Divide(a, b), 0.0, b); }
  }

  lemma RoundDownPositive(q: real, step: real)
    requires step > 0.0
    ensures RoundDown(q, step) > 0.0 <==> step <= q
  {
    DivideBound(1.0, q, step);
    var k := Divide(q, step).Floor;
    if k >= 1 { MulStrict(0.0, k as real, step); } else { MulMono(k as real, 0.0, step); }
  }

  // ------------------------------------------------------------------ the risk gate

  datatype Intent = Intent(
    live: bool, side: Side, entry: real, stop: real, quantity: real, feeBps: real, slippageBps: real,
    symbol: string, orderType: string, leverage: bool)
  datatype Account = Account(equity: real, dailyPnl: real, weeklyPnl: real, openOrders: Option<nat>)
  datatype GatePolicy = GatePolicy(
    liveEnabled: bool, killSwitchLatched: bool, allowedSymbols: set<string>, allowedOrderTypes: set<string>,
    allowMarketOrders: bool, allowLeverage: bool, maxRisk: real, maxNotionalFraction: real,
    maxDailyLoss: real, maxWeeklyLoss: real, maxOpenOrders: int)

  datatype GateReason =
    | LiveDisabled | KillSwitchOn | NoAccountEquity | GateSide | GateEntry | GateStop | GateQuantity | SymbolNotAllowed
    | OrderTypeNotAllowed | MarketOrdersDisabled | LeverageForbidden
    | BuyStop | SellStop | RiskTooHigh | NotionalTooHigh
    | DailyBreached | WeeklyBreached | DailyAtRisk | TooManyOrders

  function IntentReasons(i: Intent, p: GatePolicy): seq<GateReason> {
    When(i.live && !p.liveEnabled, LiveDisabled)
    + When(p.killSwitchLatched, KillSwitchOn)
    + When(i.side.OtherSide?, GateSide)
    + When(i.entry <= 0.0, GateEntry)
    + When(i.stop <= 0.0, GateStop)
    + When(i.quantity <= 0.0, GateQuantity)
    + When(p.allowedSymbols != {} && i.symbol !in p.allowedSymbols, SymbolNotAllowed)
    + When(i.orderType !in p.allowedOrderTypes, OrderTypeNotAllowed)
    + When(i.orderType == "market" && !p.allowMarketOrders, MarketOrdersDisabled)
    + When(i.leverage && !p.allowLeverage, LeverageForbidden)
  }

  function GateLoss(i: Intent): real {
    i.quantity * (if i.side.Buy? then i.entry - i.stop else i.stop - i.entry)
    + i.quantity * i.entry * (i.feeBps + i.slippageBps) / 10000.0
  }

  function GateNotional(i: Intent): real { i.quantity * i.entry }

  function LimitReasons(i: Intent, a: Account, p: GatePolicy): seq<GateReason>
    requires a.equity > 0.0
  {
    When(i.side.Buy? && i.stop >= i.entry, BuyStop)
    + When(!i.side.Buy? && i.stop <= i.entry, SellStop)
    + When(Divide(GateLoss(i), a.equity) > p.maxRisk, RiskTooHigh)
    + When(Divide(GateNotional(i), a.equity) > p.maxNotionalFraction, NotionalTooHigh)
    + When(a.dailyPnl <= -(a.equity * p.maxDailyLoss), DailyBreached)
    + When(a.weeklyPnl <= -(a.equity * p.maxWeeklyLoss), WeeklyBreached)
    + When(a.dailyPnl - GateLoss(i) <= -(a.equity * p.maxDailyLoss), DailyAtRisk)
    + When(a.openOrders.Some? && a.openOrders.value >= p.maxOpenOrders, TooManyOrders)
  }

  function RiskGate(i: Intent, a: Account, p: GatePolicy): seq<GateReason> {
    if a.equity <= 0.0 then [NoAccountEquity]
    else if IntentReasons(i, p) != [] then IntentReasons(i, p)
    else LimitReasons(i, a, p)
  }

  /** The order that the sizing proposes, as the gate sees it. */
  ghost predicate SameOrder(s: SizingInput, i: Intent) {
    && i.side == s.side && i.entry == s.entry && i.stop == s.stop
    && i.feeBps == s.feeBps && i.slippageBps == s.slippageBps && i.quantity == SizePosition(s).quantity
  }

  /** Both sides compute the same loss. */
  lemma SizingAndGateAgreeOnTheLoss(s: SizingInput, i: Intent)
    requires SizePosition(s).Ok() && SameOrder(s, i)
    ensures GateLoss(i) == SizePosition(s).maxLoss && GateNotional(i) == SizePosition(s).notional
  {
    SameTerms(s, i);
    ValidInputs(s);
    SizingAmounts(s);
    NotionalIs(i);
    var d, c := if s.side.Buy? then s.entry - s.stop else s.stop - s.entry, s.feeBps + s.slippageBps;
    hide *;
    DistanceIs(s, d, c);
    GateLossIs(i, d, c);
    SameProduct(i.quantity, RiskPerUnit(s), d, s.entry, c);
  }

  lemma NotionalIs(i: Intent)
    ensures GateNotional(i) == i.quantity * i.entry
  {
  }

  lemma SameProduct(q: real, perUnit: real, d: real, e: real, c: real)
    requires perUnit == d + e * c / 10000.0
    ensures q * perUnit == q * d + q * e * c / 10000.0
  {
    SpreadProduct(q, d, e, c);
  }

  lemma DistanceIs(s: SizingInput, d: real, c: real)
    requires d >= 0.0 && c == s.feeBps + s.slippageBps && (d == s.entry - s.stop || d == s.stop - s.entry)
    ensures RiskPerUnit(s) == d + s.entry * c / 10000.0
  {
  }

  lemma GateLossIs(i: Intent, d: real, c: real)
    requires c == i.feeBps + i.slippageBps && d == if i.side.Buy? then i.entry - i.stop else i.stop - i.entry
    ensures GateLoss(i) == i.quantity * d + i.quantity * i.entry * c / 10000.0
  {
  }

  lemma SpreadProduct(q: real, d: real, e: real, c: real)
    ensures q * (d + e * c / 10000.0) == q * d + q * e * c / 10000.0
  {
    assert q * (e * c) == q * e * c;
    assert e * c / 10000.0 == (e * c) * 0.0001 && q * e * c / 10000.0 == (q * e * c) * 0.0001;
  }

  /** What the gate asks of the order itself. */
  ghost predicate OrderFits(i: Intent, p: GatePolicy) {
    && (i.live ==> p.liveEnabled) && !p.killSwitchLatched
    && (i.side.Buy? || i.side.Sell?) && i.entry > 0.0 && i.stop > 0.0 && i.quantity > 0.0
    && (p.allowedSymbols == {} || i.symbol in p.allowedSymbols) && i.orderType in p.allowedOrderTypes
    && (i.orderType == "market" ==> p.allowMarketOrders) && (i.leverage ==> p.allowLeverage)
  }

  /** What the order loses at its stop, with fee and slippage on its notional. */
  ghost predicate LosesInAll(i: Intent, loss: real) {
    loss == i.quantity * (if i.side.Buy? then i.entry - i.stop else i.stop - i.entry)
            + i.quantity * i.entry * (i.feeBps + i.slippageBps) / 10000.0
  }

  /** What the gate asks of the account: no limit reached, with or without the loss of the order. */
  ghost predicate AccountFits(i: Intent, a: Account, p: GatePolicy) {
    && a.dailyPnl > -(a.equity * p.maxDailyLoss) && a.weeklyPnl > -(a.equity * p.maxWeeklyLoss)
    && (forall loss :: LosesInAll(i, loss) ==> a.dailyPnl - loss > -(a.equity * p.maxDailyLoss))
    && (a.openOrders.Some? ==> a.openOrders.value < p.maxOpenOrders)
  }

  /** What remains to be checked about a properly sized order. */
  ghost predicate Admissible(i: Intent, a: Account, p: GatePolicy) {
    OrderFits(i, p) && AccountFits(i, a, p)
  }

  lemma IntentFitsIff(i: Intent, p: GatePolicy)
    ensures IntentReasons(i, p) == [] <==> OrderFits(i, p)
  {
  }

  lemma OneLossInAll(i: Intent)
    ensures forall loss :: LosesInAll(i, loss) <==> loss == GateLoss(i)
  {
  }

  /**
   The gate approves an order exactly when the account has equity, the order and the account fit, the stop is on the
   losing side, and loss and notional are within the policy's fractions of equity.
   */
  lemma GateApprovesIff(i: Intent, a: Account, p: GatePolicy)
    ensures RiskGate(i, a, p) == [] <==>
            && a.equity > 0.0 && OrderFits(i, p) && AccountFits(i, a, p)
            && (i.side.Buy? ==> i.stop < i.entry) && (i.side.Sell? ==> i.stop > i.entry)
            && (forall loss :: LosesInAll(i, loss) ==> loss <= p.maxRisk * a.equity)
            && i.quantity * i.entry <= p.maxNotionalFraction * a.equity
  {
    IntentFitsIff(i, p);
    AccountFitsIff(i, a, p);
    OneLossInAll(i);
    hide GateLoss, Divide, IntentReasons, LosesInAll, AccountFits, OrderFits;
    assert LosesInAll(i, GateLoss(i));
    if a.equity > 0.0 {
      DivideBoundBelow(GateLoss(i), a.equity, p.maxRisk);
      DivideBoundBelow(GateNotional(i), a.equity, p.maxNotionalFraction);
    }
    FittingSide(i, p);
  }

  lemma FittingSide(i: Intent, p: GatePolicy)
    ensures OrderFits(i, p) ==> i.side.Buy? || i.side.Sell?
  {
  }

  lemma AccountFitsIff(i: Intent, a: Account, p: GatePolicy)
    ensures AccountFits(i, a, p) <==>
            && a.dailyPnl > -(a.equity * p.maxDailyLoss) && a.weeklyPnl > -(a.equity * p.maxWeeklyLoss)
            && a.dailyPnl - GateLoss(i) > -(a.equity * p.maxDailyLoss)
            && (a.openOrders.Some? ==> a.openOrders.value < p.maxOpenOrders)
  {
    OneLossInAll(i);
    hide GateLoss, LosesInAll;
    assert LosesInAll(i, GateLoss(i));
  }

  lemma DivideBoundBelow(a: real, b: real, z: real)
    requires b > 0.0
    ensures Divide(a, b) <= z <==> a <= z * b
  {
    hide Divide;
    FactorBound(Divide(a, b), b, z, a);
  }

  lemma FactorBound(q: real, b: real, z: real, a: real)
    requires b > 0.0 && q * b == a
    ensures q <= z <==> a <= z * b
  {
    if q <= z { MulMono(q, z, b); } else { MulStrict(z, q, b); }
  }

  /**
   A sized order passes the gate's risk and notional limits whenever the sizing fractions do not exceed the
   policy's: the gate approves it exactly when everything else it checks is in order.
   */
  lemma SizedOrderPassesTheGate(s: SizingInput, i: Intent, a: Account, p: GatePolicy)
    requires SizePosition(s).Ok() && SameOrder(s, i) && a.equity == s.equity
    requires RiskFractionOf(s) <= p.maxRisk && NotionalFractionOf(s) <= p.maxNotionalFraction
    ensures RiskGate(i, a, p) == [] <==> Admissible(i, a, p)
  {
    hide SizePosition, GateLoss, GateNotional, Divide, RiskFractionOf, NotionalFractionOf, IntentReasons, LimitReasons,
      Sizing.Ok, OrderFits, LosesInAll, AccountFits, SameOrder;
    assert i.side == s.side && i.entry == s.entry && i.stop == s.stop by { SameTerms(s, i); }
    ValidInputs(s);
    SizingAndGateAgreeOnTheLoss(s, i);
    SizedAmountsFit(s);
    WithinFractions(GateLoss(i), s.equity, RiskFractionOf(s), p.maxRisk);
    WithinFractions(GateNotional(i), s.equity, NotionalFractionOf(s), p.maxNotionalFraction);
    IntentFitsIff(i, p);
    AccountFitsIff(i, a, p);
    LimitsMeaning(i, a, p);
  }

  lemma SameTerms(s: SizingInput, i: Intent)
    requires SameOrder(s, i)
    ensures i.side == s.side && i.entry == s.entry && i.stop == s.stop && i.quantity == SizePosition(s).quantity
    ensures i.feeBps == s.feeBps && i.slippageBps == s.slippageBps
  {
    hide SizePosition;
  }

  lemma SizedAmountsFit(s: SizingInput)
    requires SizePosition(s).Ok()
    ensures SizePosition(s).maxLoss <= s.equity * RiskFractionOf(s)
    ensures SizePosition(s).notional <= s.equity * NotionalFractionOf(s)
  {
    Budgets(s);
    SizeFits(s);
    hide *;
    SizingAmounts(s);
    FitsWithinBudgets(s, SizePosition(s).quantity);
  }

  lemma SizeFits(s: SizingInput)
    requires SizePosition(s).Ok()
    ensures Fits(s, SizePosition(s).quantity)
  {
    assert IsStep(s, StepOf(s));
    hide *;
    SizeIsTheLargestThatFits(s, 0, 0.0, StepOf(s));
  }

  lemma Budgets(s: SizingInput)
    ensures LossBudget(s) == s.equity * RiskFractionOf(s) && NotionalBudget(s) == s.equity * NotionalFractionOf(s)
  {
  }

  lemma SizingAmounts(s: SizingInput)
    requires SizePosition(s).Ok()
    ensures var z := SizePosition(s); z.maxLoss == z.quantity * RiskPerUnit(s) && z.notional == z.quantity * s.entry
  {
    hide RiskPerUnit, RoundDown, RawQuantity;
  }

  lemma WithinFractions(amount: real, equity: real, f: real, max: real)
    requires equity > 0.0 && amount <= equity * f && f <= max
    ensures Divide(amount, equity) <= max
  {
    hide Divide;
    DivideAtMost(amount, equity, f);
  }

  lemma DivideAtMost(x: real, e: real, f: real)
    requires e > 0.0 && x <= e * f
    ensures Divide(x, e) <= f
  {
    var d := Divide(x, e);
    if d > f { MulStrict(f, d, e); }
  }

  lemma LimitsMeaning(i: Intent, a: Account, p: GatePolicy)
    requires a.equity > 0.0 && (i.side.Buy? ==> i.stop < i.entry) && (!i.side.Buy? ==> i.stop > i.entry)
    requires Divide(GateLoss(i), a.equity) <= p.maxRisk && Divide(GateNotional(i), a.equity) <= p.maxNotionalFraction
    ensures LimitReasons(i, a, p) == [] <==>
            && a.dailyPnl > -(a.equity * p.maxDailyLoss) && a.weeklyPnl > -(a.equity * p.maxWeeklyLoss)
            && a.dailyPnl - GateLoss(i) > -(a.equity * p.maxDailyLoss)
            && (a.openOrders.Some? ==> a.openOrders.value < p.maxOpenOrders)
  {
    hide GateLoss, Divide;
  }
}
