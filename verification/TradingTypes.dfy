/** Records and constants of the Kraken trading plugin. Times are integers in milliseconds, numbers exact. */
module TradingTypes {
  import opened Basics

  datatype Mode = Paper | Live
  datatype Side = Buy | Sell
  datatype Status = Staged | Rejected | ApprovalRequested | Approved | Executed | Expired | Cancelled
  datatype ExchangeStatus = Online | PostOnly | CancelOnly | Maintenance | Unknown

  /** A date string: unparsable ones compare false with everything. */
  datatype Date = Invalid | At(ms: int) {
    predicate After(now: int) { At? && ms > now }
    predicate NotAfter(now: int) { At? && ms <= now }
  }

  datatype Execution = Execution(allowMarketOrders: bool, allowLeverage: bool, allowMargin: bool,
                                 allowWithdrawals: bool, postOnlyByDefault: bool)
  datatype LiveLimits = LiveLimits(requiresHumanApproval: bool, maxAutonomousNotionalUsd: real)

  datatype Policy = Policy(
    id: string, enabled: bool, mode: Mode, allowedSymbols: seq<string>,
    maxOpenOrders: int, maxOpenPositions: int,
    maxDailyLossFraction: real, maxWeeklyLossFraction: real, maxRiskPerTradeFraction: real,
    maxMarketDataAgeMs: int, maxOrderAgeSeconds: int,
    execution: Execution, live: LiveLimits)

  const DEFAULT_POLICY := Policy(
    "conservative_spot_only_v1", true, Paper, ["BTC/USD", "ETH/USD"], 1, 1, 0.01, 0.03, 0.0025, 10000, 180,
    Execution(false, false, false, false, true), LiveLimits(true, 10.0))

  datatype PolicyError =
    | NotAnObject | CouldNotLoad
    | UnknownField(path: string) | MustBeObject(path: string)
    | BadId | BadMode | NotBoolean(key: string) | NotNumberInRange(key: string)
    | SymbolsNotArray | SymbolsNotStrings | UnsupportedSymbol(symbol: string)
    | MarketOrdersBlocked | LeverageBlocked | MarginBlocked | WithdrawalsBlocked

  datatype PolicySource = ProjectFile | Default

  datatype LoadedPolicy = LoadedPolicy(policy: Policy, source: PolicySource, valid: bool, errors: set<PolicyError>)

  datatype OpenOrder = OpenOrder(clientOrderId: string, symbol: string, side: Side)
  datatype PaperOrder = PaperOrder(clientOrderId: string, intentionId: string)

  datatype Runtime = Runtime(
    adapterHealthy: bool, apiErrorCount: int,
    lastCronAt: Option<int>, lastJournalAt: Option<int>, lastPrivateStreamAt: Option<int>,
    openOrders: seq<OpenOrder>, paperOrders: seq<PaperOrder>,
    dailyRealizedPnl: real, weeklyRealizedPnl: real)

  const DEFAULT_RUNTIME := Runtime(true, 0, None, None, None, [], [], 0.0, 0.0)

  datatype Intention = Intention(
    id: string, mode: Mode, status: Status, symbol: string, side: Side,
    limitPrice: real, quantity: real, invalidationPrice: real,
    strategyId: string, policyId: string, createdAt: Date, expiresAt: Date,
    requiresHumanApproval: bool, humanApprovalId: Option<string>,
    maxSlippageBps: real, maxSpreadBps: real, riskFraction: real)

  datatype Approval = Approval(
    id: string, intentionId: string, expiresAt: int, usedAt: Option<int>,
    symbol: string, side: Side, quantity: real, limitPrice: real, toleranceBps: real,
    policyId: string, strategyId: string, riskAmount: real)

  datatype LatchCause = UnsafeSystem | LiveOrderException
  datatype KillSwitch = KillSwitch(latched: bool, latchedAt: Option<int>, panic: bool, reason: Option<LatchCause>)

  const DEFAULT_KILL_SWITCH := KillSwitch(false, None, false, None)

  datatype Market = Market(mid: real, spreadBps: real, lastUpdateAt: int)

  datatype Snapshot = Snapshot(
    adapterHealthy: bool, exchangeStatus: ExchangeStatus, market: map<string, Market>,
    equity: Option<real>, dailyRealizedPnl: real, weeklyRealizedPnl: real,
    openOrders: seq<OpenOrder>, openPositions: nat, localOpenOrders: seq<OpenOrder>,
    permissionAnomaly: bool, apiErrorCount: int)

  datatype JournalKind =
    | NoAction | IntentionStaged | IntentionRejected | ApprovalRequestedEntry | PaperOrderEntry | LiveOrderEntry
    | ReconcileRequired | Halt | KillSwitchEntry | ErrorEntry

  datatype JournalEntry = JournalEntry(kind: JournalKind, intentionId: Option<string>, timestamp: int)
  datatype Incident = Incident(cancelAttempted: bool, cause: LatchCause, timestamp: int)
  datatype Lock = Lock(expiresAt: int)
}
