/** The trading protocol on the value of the store: staging, the minute cron, cancelling, policy refresh. */
module OpsSpec {
  import opened Basics
  import opened JsStrings
  import opened TradingTypes
  import opened TradingSafety
  import opened StorageSpec
  import PolicyLoader

  const LOCK_TTL_MS := 90_000
  const APPROVAL_TTL_MS := 300_000

  // ------------------------------------------------------------------ staging

  /** A numeric field of the input: absent, null or blank; not readable as a finite number; or a number. */
  datatype RawNumber = Blank | NotFinite | Number(value: real)

  /** The tool's untrusted input, field by field; None where a text, mode or date is absent or of the wrong type. */
  datatype RawIntention = RawIntention(
    id: Option<string>, mode: Option<Mode>, symbol: Option<string>, sell: bool, orderType: Option<string>,
    limitPrice: RawNumber, quantity: RawNumber, invalidationPrice: RawNumber,
    strategyId: Option<string>, policyId: Option<string>, createdAt: Option<Date>, expiresAt: Option<Date>,
    humanApprovalId: Option<string>, maxSlippageBps: RawNumber, maxSpreadBps: RawNumber, riskFraction: RawNumber,
    unsupportedFeature: bool, generatedId: string)

  function AsString(value: Option<string>, fallback: string): string {
    if value.Some? then Take(Trim(value.value), 500) else fallback
  }

  function OrElse<T>(value: Option<T>, fallback: T): T {
    if value.Some? then value.value else fallback
  }

  /** `Number("")` is zero, so an absent field never takes the fallback: only an unreadable one does. */
  function AsNumber(value: RawNumber, fallback: real): real {
    match value
    case Blank => 0.0
    case NotFinite => fallback
    case Number(v) => v
  }

  function NormalizeIntention(raw: RawIntention, p: Policy, now: int): Intention {
    var mode := OrElse(raw.mode, p.mode);
    Intention(
      AsString(raw.id, raw.generatedId), mode, Staged, AsString(raw.symbol, ""), if raw.sell then Sell else Buy,
      AsNumber(raw.limitPrice, 0.0), AsNumber(raw.quantity, 0.0), AsNumber(raw.invalidationPrice, 0.0),
      AsString(raw.strategyId, "unspecified"), AsString(raw.policyId, p.id),
      OrElse(raw.createdAt, At(now)), OrElse(raw.expiresAt, At(now + p.maxOrderAgeSeconds * 1000)),
      mode.Live? && p.live.requiresHumanApproval, raw.humanApprovalId,
      AsNumber(raw.maxSlippageBps, 10.0), AsNumber(raw.maxSpreadBps, 15.0),
      AsNumber(raw.riskFraction, p.maxRiskPerTradeFraction))
  }

  datatype StageReason =
    | PolicyInvalidReason | PolicyDisabledReason | StageIdRequired | StageSymbol | StageMarketOrder | StageLimitPrice
    | StageQuantity | StageInvalidation | StageCreatedAt | StageExpiresAt | StageExpired | StagePolicyId | StageMode
    | StageRiskFraction | StageNotional | StageUnsupported

  function StageReasons(raw: RawIntention, i: Intention, ps: LoadedPolicy, now: int): seq<StageReason> {
    var p := ps.policy;
    When(!ps.valid && ps.errors != {}, PolicyInvalidReason)
    + When(!p.enabled, PolicyDisabledReason)
    + When(i.id == "", StageIdRequired)
    + When(i.symbol !in p.allowedSymbols, StageSymbol)
    + When(AsString(raw.orderType, "limit") != "limit", StageMarketOrder)
    + When(i.limitPrice <= 0.0, StageLimitPrice)
    + When(i.quantity <= 0.0, StageQuantity)
    + When(i.invalidationPrice <= 0.0, StageInvalidation)
    + When(i.createdAt.Invalid?, StageCreatedAt)
    + When(i.expiresAt.Invalid?, StageExpiresAt)
    + When(i.expiresAt.NotAfter(now), StageExpired)
    + When(i.policyId != p.id, StagePolicyId)
    + When(i.mode != p.mode, StageMode)
    + When(i.riskFraction > p.maxRiskPerTradeFraction, StageRiskFraction)
    + When(i.mode.Live? && !p.live.requiresHumanApproval && i.limitPrice * i.quantity > p.live.maxAutonomousNotionalUsd,
           StageNotional)
    + When(raw.unsupportedFeature, StageUnsupported)
  }

  function NoteStaging(h: History, key: string, reference: Option<string>): History {
    h.(stagings := h.stagings + [key],
       references := h.references + if reference.Some? then {reference.value} else {})
  }

  /** The accepted record reaches the store: that is one staging of its key, even if the journal then fails. */
  function SaveStaged(w: World, i: Intention): Outcome<()> {
    var r := SaveIntention(w, i);
    if SafeId(i.id).None? || NextFault(w).ThrowsBefore? then r
    else
      var w1 := r.world.(history := NoteStaging(r.world.history, SafeId(i.id).value, i.humanApprovalId));
      if r.Done? then Done(w1, ()) else Threw(w1)
  }

  function StageIntention(w: World, raw: RawIntention): Outcome<bool> {
    var (w0, _) :- Touch(w);
    var ps := w0.store.policyState;
    var i := NormalizeIntention(raw, ps.policy, w0.now);
    if StageReasons(raw, i, ps, w0.now) != [] then
      var (w1, _) :- SaveIntention(w0, i.(status := Rejected));
      var (w2, _) :- AppendJournal(w1, IntentionRejected, Some(i.id));
      Done(w2, false)
    else
      var (w1, _) :- SaveStaged(w0, i);
      var (w2, _) :- AppendJournal(w1, IntentionStaged, Some(i.id));
      Done(w2, true)
  }

  function CancelIntention(w: World, id: string): Outcome<bool> {
    var (w0, _) :- Touch(w);
    var (w1, found) :- ReadIntention(w0, id);
    if found.None? then Done(w1, false)
    else
      var (w2, _) :- SaveIntention(w1, found.value.(status := Cancelled));
      Done(w2, true)
  }

  function RefreshPolicy(w: World, file: PolicyLoader.PolicyFile): Outcome<()> {
    WritePolicyState(w, PolicyLoader.LoadProjectPolicy(file))
  }

  // ------------------------------------------------------------------ the minute cron

  datatype TickStatus =
    | Locked | PolicyDisabled | PolicyInvalid | Halted | UnsafeStatus | ReconcileStatus | NothingToDo
    | RequestedApproval(id: string) | RejectedByChecks(id: string) | PaperPlaced(id: string) | LivePlaced(id: string)
    | KillSwitched(id: string) | CronError

  function LatchCritical(w: World, cause: LatchCause, liveEnabled: bool): Outcome<()> {
    var (w1, _) :- LatchKillSwitch(w, cause);
    var w2 := if liveEnabled then CancelAllOrders(w1) else w1;
    var (w3, _) :- AppendIncident(w2, Incident(liveEnabled, cause, w2.now));
    var (w4, _) :- AppendJournal(w3, KillSwitchEntry, None);
    Touch(w4)
  }

  function NewApproval(i: Intention, p: Policy, s: Snapshot, id: string, now: int): Approval {
    Approval(id, i.id, now + APPROVAL_TTL_MS, None, i.symbol, i.side, i.quantity, i.limitPrice, i.maxSlippageBps,
             p.id, i.strategyId, EstimateRiskAmount(i, s))
  }

  function NoteReuse(h: History, st: Store, key: Option<string>): History {
    h.(reused := h.reused + if key.Some? && key.value in st.approvals then multiset{key.value} else multiset{})
  }

  function SaveNewApproval(w: World, a: Approval): Outcome<()> {
    var r := SaveApproval(w, a);
    var w1 := r.world.(history := NoteReuse(r.world.history, w.store, SafeId(a.id)));
    if r.Done? then Done(w1, ()) else Threw(w1)
  }

  function RequestApproval(w: World, env: TickInput, i: Intention, p: Policy): Outcome<TickStatus> {
    var (w1, s) :- GetRuntimeSnapshot(w, env.later);
    var (w2, _) :- SaveNewApproval(w1, NewApproval(i, p, s, env.approvalId, w1.now));
    var (w3, _) :- SaveIntention(w2, i.(humanApprovalId := Some(env.approvalId), status := ApprovalRequested));
    var (w4, _) :- AppendJournal(w3, ApprovalRequestedEntry, Some(i.id));
    var (w5, _) :- Touch(w4);
    Done(w5, RequestedApproval(i.id))
  }

  function Reject(w: World, i: Intention): Outcome<TickStatus> {
    var (w1, _) :- SaveIntention(w, i.(status := Rejected));
    var (w2, _) :- AppendJournal(w1, IntentionRejected, Some(i.id));
    Done(w2, RejectedByChecks(i.id))
  }

  function PaperOrderOf(i: Intention): PaperOrder {
    PaperOrder("paper-" + i.id, i.id)
  }

  function ExecutePaper(w: World, i: Intention, runtime: Runtime): Outcome<TickStatus> {
    var (w1, _) :- SaveIntention(w, i.(status := Executed));
    var (w2, _) :- WriteRuntime(w1, runtime.(paperOrders := runtime.paperOrders + [PaperOrderOf(i)]));
    var (w3, _) :- AppendJournal(w2, PaperOrderEntry, Some(i.id));
    var (w4, _) :- Touch(w3);
    Done(w4, PaperPlaced(i.id))
  }

  function MarkUsed(w: World, approval: Option<Approval>): Outcome<()> {
    match approval
    case None => Done(w, ())
    case Some(a) => SaveApproval(w, a.(usedAt := Some(w.now)))
  }

  /** The body of the inner try. */
  function TryLive(w: World, i: Intention, runtime: Runtime, s: Snapshot, approval: Option<Approval>,
                   gateAt: int): Outcome<TickStatus>
    requires SafeId(i.id).Some?
  {
    var (w1, orderId) :- PlaceLimitOrder(w, i, s, approval, gateAt);
    var (w2, _) :- SaveIntention(w1, i.(status := Executed));
    var (w3, _) :- WriteRuntime(w2, runtime.(openOrders := runtime.openOrders +
      [OpenOrder(orderId, i.symbol, i.side)]));
    var (w4, _) :- AppendJournal(w3, LiveOrderEntry, Some(i.id));
    var (w5, _) :- Touch(w4);
    var (w6, _) :- MarkUsed(w5, approval);
    Done(w6, LivePlaced(i.id))
  }

  /** The inner try with its catch: any exception after the attempt latches the kill switch. */
  function ExecuteLive(w: World, i: Intention, runtime: Runtime, s: Snapshot, approval: Option<Approval>,
                       gateAt: int): Outcome<TickStatus>
    requires SafeId(i.id).Some?
  {
    var tried := TryLive(w, i, runtime, s, approval, gateAt);
    if tried.Done? then tried
    else
      var (w1, _) :- LatchCritical(tried.world, LiveOrderException, true);
      Done(w1, KillSwitched(i.id))
  }

  /** `for (const expired of ...)`: persist the records whose status changed. */
  function Sweep(w: World, list: seq<Intention>): Outcome<()>
    decreases |list|
  {
    if list == [] then Done(w, ())
    else
      var (w1, stored) :- ReadIntention(w, list[0].id);
      if stored.None? || stored.value.status != list[0].status then
        var (w2, _) :- SaveIntention(w1, list[0]);
        var (w3, _) :- AppendJournal(w2, IntentionRejected, Some(list[0].id));
        Sweep(w3, list[1..])
      else Sweep(w1, list[1..])
  }

  ghost function Act(w: World, env: TickInput, p: Policy, i: Intention, runtime: Runtime, s: Snapshot,
                     gateAt: int): Outcome<TickStatus>
    requires SafeId(i.id).Some?
  {
    var (w1, approval) :- ReadApproval(w, i.humanApprovalId);
    var reasons := IntentionReasons(i, approval, p, s, w1.now);
    if reasons != [] then
      if i.mode.Live? && ApprovalMissing in reasons then RequestApproval(w1, env, i, p) else Reject(w1, i)
    else if i.mode.Paper? then ExecutePaper(w1, i, runtime)
    else ExecuteLive(w1, i, runtime, s, approval, gateAt)
  }

  /** The expiry sweep, and the listing the scheduler then chooses from. */
  ghost function Survey(w: World): Outcome<seq<Intention>> {
    var (w1, list) :- ListIntentions(w);
    var (w2, _) :- Sweep(w1, RejectExpired(list, w1.now));
    ListIntentions(w2)
  }

  ghost function Execute(w: World, env: TickInput, p: Policy, runtime: Runtime, s: Snapshot,
                         gateAt: int): Outcome<TickStatus>
  {
    var (w1, list) :- Survey(w);
    match SelectNext(list, w1.now)
    case None =>
      var (w2, _) :- AppendJournal(w1, NoAction, None);
      Done(w2, NothingToDo)
    case Some(i) =>
      // every stored record has a key: it could not have been saved otherwise
      if SafeId(i.id).None? then Threw(w1) else Act(w1, env, p, i, runtime, s, gateAt)
  }

  function JournalAnd(w: World, kind: JournalKind, status: TickStatus): Outcome<TickStatus> {
    var (w1, _) :- AppendJournal(w, kind, None);
    Done(w1, status)
  }

  function RefuseUnsafe(w: World, p: Policy, critical: bool): Outcome<TickStatus> {
    if critical then
      var (w1, _) :- LatchCritical(w, UnsafeSystem, p.mode.Live?);
      Done(w1, UnsafeStatus)
    else JournalAnd(w, Halt, UnsafeStatus)
  }

  /** After the kill switch: system safety, reconciliation, and then at most one intention. */
  ghost function Gated(w: World, env: TickInput, p: Policy, runtime: Runtime, s: Snapshot): Outcome<TickStatus> {
    var reasons := SystemReasons(p, runtime, s, w.now);
    if reasons != [] then RefuseUnsafe(w, p, IsCritical(reasons))
    else
      var (w1, _) :- Touch(w);
      if env.reconcileRequired then JournalAnd(w1, ReconcileRequired, ReconcileStatus)
      else Execute(w1, env, p, runtime, s, w.now)
  }

  /** The body of the outer try. */
  ghost function TickBody(w: World, env: TickInput): Outcome<TickStatus> {
    var ps, ks, runtime := w.store.policyState, w.store.killSwitch, w.store.runtime.(lastCronAt := Some(w.now));
    var p := ps.policy;
    var (w1, _) :- WriteRuntime(w, runtime);
    if !ps.valid || !p.enabled then JournalAnd(w1, NoAction, if ps.valid then PolicyDisabled else PolicyInvalid)
    else if ks.latched || ks.panic then JournalAnd(w1, Halt, Halted)
    else
      var (w2, s) :- GetRuntimeSnapshot(w1, env.snapshot);
      Gated(w2, env, p, runtime, s)
  }

  /** The outer try with its catch. */
  ghost function GuardedBody(w: World, env: TickInput): Outcome<TickStatus> {
    var body := TickBody(w, env);
    if body.Done? then body else JournalAnd(body.world, ErrorEntry, CronError)
  }

  /** The whole try statement of a tick that got the lock, with its `finally`. */
  ghost function LockedTick(w: World, env: TickInput): Outcome<TickStatus> {
    var guarded := GuardedBody(w, env);
    var (w1, _) :- ReleaseLock(guarded.world);
    if guarded.Done? then Done(w1, guarded.value) else Threw(w1)
  }

  ghost function RunMinuteCron(w: World, env: TickInput): Outcome<TickStatus> {
    var (w0, _) :- Touch(w);
    var (w1, acquired) :- AcquireLock(w0, LOCK_TTL_MS);
    if !acquired then Done(w1, Locked)
    else LockedTick(w1, env)
  }
}
