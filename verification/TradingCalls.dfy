/** Exactly which orders one tick sends, and how staging, approval and execution fit together. */
module TradingCalls {
  import opened Basics
  import opened JsStrings
  import opened TradingTypes
  import opened TradingSafety
  import opened StorageSpec
  import opened OpsSpec

  // ------------------------------------------------------------------ operations that send nothing

  ghost predicate SameCalls(w: World, w': World) {
    w'.history.placements == w.history.placements
  }

  /** Nothing is sent and no approval is stored; time may pass. */
  ghost predicate Quiet(w: World, w': World) {
    SameCalls(w, w') && w'.store.approvals == w.store.approvals && w.now <= w'.now
  }

  lemma SaveIntentionCalls(w: World, i: Intention)
    ensures Quiet(w, SaveIntention(w, i).world)
  {
    hide SafeId;
  }

  lemma SaveApprovalCalls(w: World, a: Approval)
    ensures SameCalls(w, SaveApproval(w, a).world) && SameCalls(w, SaveNewApproval(w, a).world)
  {
    hide SafeId;
  }

  lemma ReadCalls(w: World, i: Intention)
    ensures Quiet(w, ReadIntention(w, i.id).world) && Quiet(w, ReadApproval(w, i.humanApprovalId).world)
  {
    hide SafeId;
  }

  lemma TouchCalls(w: World)
    ensures Quiet(w, Touch(w).world)
  {
  }

  lemma WriteRuntimeCalls(w: World, runtime: Runtime)
    ensures Quiet(w, WriteRuntime(w, runtime).world)
  {
  }

  lemma SnapshotCalls(w: World, s: Snapshot)
    ensures Quiet(w, GetRuntimeSnapshot(w, s).world)
    ensures GetRuntimeSnapshot(w, s).Done? ==> GetRuntimeSnapshot(w, s).value == s
  {
  }

  lemma LockCalls(w: World, ttl: int)
    ensures Quiet(w, AcquireLock(w, ttl).world) && Quiet(w, ReleaseLock(w).world)
  {
  }

  lemma AppendJournalCalls(w: World, kind: JournalKind, id: Option<string>)
    ensures Quiet(w, AppendJournal(w, kind, id).world)
  {
  }

  lemma JournalAndCalls(w: World, kind: JournalKind, status: TickStatus)
    ensures Quiet(w, JournalAnd(w, kind, status).world)
  {
    hide AppendJournal;
    AppendJournalCalls(w, kind, None);
  }

  lemma LatchCriticalCalls(w: World, cause: LatchCause, live: bool)
    ensures SameCalls(w, LatchCritical(w, cause, live).world)
  {
    hide AppendJournal, Latched;
    var r1 := LatchKillSwitch(w, cause);
    if r1.Done? {
      var w2 := if live then CancelAllOrders(r1.world) else r1.world;
      var r3 := AppendIncident(w2, Incident(live, cause, w2.now));
      AppendJournalCalls(r3.world, KillSwitchEntry, None);
    }
  }

  lemma RejectCalls(w: World, i: Intention)
    ensures SameCalls(w, Reject(w, i).world)
  {
    hide SaveIntention, AppendJournal;
    SaveIntentionCalls(w, i.(status := Rejected));
    AppendJournalCalls(SaveIntention(w, i.(status := Rejected)).world, IntentionRejected, Some(i.id));
  }

  lemma PaperCalls(w: World, i: Intention, runtime: Runtime)
    ensures SameCalls(w, ExecutePaper(w, i, runtime).world)
  {
    hide SaveIntention, AppendJournal, WriteRuntime, Touch, PaperOrderOf;
    SaveIntentionCalls(w, i.(status := Executed));
    var w1 := SaveIntention(w, i.(status := Executed)).world;
    var runtime' := runtime.(paperOrders := runtime.paperOrders + [PaperOrderOf(i)]);
    WriteRuntimeCalls(w1, runtime');
    AppendJournalCalls(WriteRuntime(w1, runtime').world, PaperOrderEntry, Some(i.id));
    TouchCalls(AppendJournal(WriteRuntime(w1, runtime').world, PaperOrderEntry, Some(i.id)).world);
  }

  lemma RequestCalls(w: World, env: TickInput, i: Intention, p: Policy)
    ensures SameCalls(w, RequestApproval(w, env, i, p).world)
  {
    hide GetRuntimeSnapshot, SaveIntention, SaveNewApproval, AppendJournal, Touch, NewApproval;
    SnapshotCalls(w, env.later);
    var r1 := GetRuntimeSnapshot(w, env.later);
    if r1.Done? {
      var a := NewApproval(i, p, r1.value, env.approvalId, r1.world.now);
      SaveApprovalCalls(r1.world, a);
      var r2 := SaveNewApproval(r1.world, a);
      var asked := i.(humanApprovalId := Some(env.approvalId), status := ApprovalRequested);
      SaveIntentionCalls(r2.world, asked);
      var r4 := AppendJournal(SaveIntention(r2.world, asked).world, ApprovalRequestedEntry, Some(i.id));
      AppendJournalCalls(SaveIntention(r2.world, asked).world, ApprovalRequestedEntry, Some(i.id));
      TouchCalls(r4.world);
    }
  }

  lemma {:induction false} SweepCalls(w: World, list: seq<Intention>)
    ensures Quiet(w, Sweep(w, list).world)
    decreases |list|
  {
    hide ReadIntention, SaveIntention, AppendJournal;
    if list != [] {
      ReadCalls(w, list[0]);
      var r1 := ReadIntention(w, list[0].id);
      if r1.Done? {
        if r1.value.None? || r1.value.value.status != list[0].status {
          SaveIntentionCalls(r1.world, list[0]);
          var r2 := SaveIntention(r1.world, list[0]);
          AppendJournalCalls(r2.world, IntentionRejected, Some(list[0].id));
          if r2.Done? { SweepCalls(AppendJournal(r2.world, IntentionRejected, Some(list[0].id)).world, list[1..]); }
        } else {
          SweepCalls(r1.world, list[1..]);
        }
      }
    }
  }

  // ------------------------------------------------------------------ the one that does

  lemma AfterCall(w: World, i: Intention, runtime: Runtime, approval: Option<Approval>)
    ensures var r2 := SaveIntention(w, i.(status := Executed));
      var r3 := WriteRuntime(r2.world, runtime);
      var r4 := AppendJournal(r3.world, LiveOrderEntry, Some(i.id));
      var w5 := Touch(r4.world).world;
      && SameCalls(w, r2.world) && SameCalls(w, r3.world) && SameCalls(w, r4.world) && SameCalls(w, w5)
      && SameCalls(w, MarkUsed(w5, approval).world)
  {
    hide SaveIntention, SaveApproval, AppendJournal, WriteRuntime, Touch;
    SaveIntentionCalls(w, i.(status := Executed));
    var w2 := SaveIntention(w, i.(status := Executed)).world;
    WriteRuntimeCalls(w2, runtime);
    var w3 := WriteRuntime(w2, runtime).world;
    AppendJournalCalls(w3, LiveOrderEntry, Some(i.id));
    var w4 := AppendJournal(w3, LiveOrderEntry, Some(i.id)).world;
    TouchCalls(w4);
    var w5 := Touch(w4).world;
    if approval.Some? { SaveApprovalCalls(w5, approval.value.(usedAt := Some(w5.now))); }
  }

  lemma PlaceCalls(w: World, i: Intention, s: Snapshot, approval: Option<Approval>, gateAt: int)
    requires SafeId(i.id).Some?
    ensures PlaceLimitOrder(w, i, s, approval, gateAt).world.history.placements == w.history.placements +
      [CallOf(w, i, s, approval, gateAt)]
  {
    hide SafeId, CallOf, Take;
  }

  lemma TryLiveCalls(w: World, i: Intention, runtime: Runtime, s: Snapshot, approval: Option<Approval>, gateAt: int)
    requires SafeId(i.id).Some?
    ensures TryLive(w, i, runtime, s, approval, gateAt).world.history.placements
         == w.history.placements + [CallOf(w, i, s, approval, gateAt)]
  {
    hide SafeId, PlaceLimitOrder, SaveIntention, WriteRuntime, AppendJournal, Touch, MarkUsed, CallOf;
    PlaceCalls(w, i, s, approval, gateAt);
    var r1 := PlaceLimitOrder(w, i, s, approval, gateAt);
    if r1.Done? {
      AfterCall(r1.world, i, runtime.(openOrders := runtime.openOrders + [OpenOrder(r1.value, i.symbol, i.side)]),
        approval);
    }
  }

  lemma LiveCalls(w: World, i: Intention, runtime: Runtime, s: Snapshot, approval: Option<Approval>, gateAt: int)
    requires SafeId(i.id).Some?
    ensures ExecuteLive(w, i, runtime, s, approval, gateAt).world.history.placements
         == w.history.placements + [CallOf(w, i, s, approval, gateAt)]
  {
    hide SafeId, TryLive, LatchCritical, CallOf;
    TryLiveCalls(w, i, runtime, s, approval, gateAt);
    LatchCriticalCalls(TryLive(w, i, runtime, s, approval, gateAt).world, LiveOrderException, true);
  }

  /** The selected record is sent: its approval could be read, every check passed, and its own mode is live. */
  ghost predicate Sends(w: World, i: Intention, p: Policy, s: Snapshot) {
    var r := ReadApproval(w, i.humanApprovalId);
    r.Done? && i.mode.Live? && IntentionReasons(i, r.value, p, s, r.world.now) == []
  }

  /** Acting on a record sends exactly one order or none, whatever fails; the mode of the policy plays no part. */
  lemma ActSendsIff(w: World, env: TickInput, p: Policy, i: Intention, runtime: Runtime, s: Snapshot, gateAt: int)
    requires SafeId(i.id).Some?
    ensures var r := ReadApproval(w, i.humanApprovalId);
      Act(w, env, p, i, runtime, s, gateAt).world.history.placements ==
      if Sends(w, i, p, s) then w.history.placements + [CallOf(r.world, i, s, r.value, gateAt)]
        else w.history.placements
  {
    hide SafeId, ReadApproval, IntentionReasons, RequestApproval, Reject, ExecutePaper, ExecuteLive, CallOf;
    ReadCalls(w, i);
    var r := ReadApproval(w, i.humanApprovalId);
    if r.Done? {
      RequestCalls(r.world, env, i, p);
      RejectCalls(r.world, i);
      PaperCalls(r.world, i, runtime);
      LiveCalls(r.world, i, runtime, s, r.value, gateAt);
    }
  }

  lemma ModeIsNotChecked(i: Intention, approval: Option<Approval>, p: Policy, m: Mode, s: Snapshot, now: int)
    ensures IntentionReasons(i, approval, p.(mode := m), s, now) == IntentionReasons(i, approval, p, s, now)
  {
    hide When, EstimateRiskAmount, Equity, ApprovalReasons, FieldReasons, MarketAndRiskReasons, AutonomousReasons;
    FieldsIgnoreMode(i, p, m, now);
    MarketIgnoresMode(i, p, m, s, now);
    NotionalIgnoresMode(i, p, m);
  }

  lemma FieldsIgnoreMode(i: Intention, p: Policy, m: Mode, now: int)
    ensures FieldReasons(i, p.(mode := m), now) == FieldReasons(i, p, now)
  {
    hide When;
  }

  lemma MarketIgnoresMode(i: Intention, p: Policy, m: Mode, s: Snapshot, now: int)
    ensures MarketAndRiskReasons(i, p.(mode := m), s, now) == MarketAndRiskReasons(i, p, s, now)
  {
    hide When, EstimateRiskAmount, Equity;
  }

  lemma NotionalIgnoresMode(i: Intention, p: Policy, m: Mode)
    ensures AutonomousReasons(i, p.(mode := m)) == AutonomousReasons(i, p)
  {
    hide When;
  }

  /**
   A live record staged earlier is still sent after the policy has been switched to paper, under the same conditions.
   */
  lemma SwitchingToPaperDoesNotStopLiveRecords(w: World, i: Intention, p: Policy, s: Snapshot)
    ensures Sends(w, i, p.(mode := Paper), s) <==> Sends(w, i, p, s)
  {
    hide ReadApproval, IntentionReasons;
    var r := ReadApproval(w, i.humanApprovalId);
    if r.Done? { ModeIsNotChecked(i, r.value, p, Paper, s, r.world.now); }
  }

  lemma StagedOrApproved(i: Intention, approval: Option<Approval>, p: Policy, s: Snapshot, now: int)
    ensures IntentionReasons(i.(status := Staged), approval, p, s, now) == [] <==>
            IntentionReasons(i.(status := Approved), approval, p, s, now) == []
  {
    var a, b := i.(status := Staged), i.(status := Approved);
    AcceptedIff(a, approval, p, s, now);
    AcceptedIff(b, approval, p, s, now);
    hide IntentionReasons, HasRisk, Within, MarketFits;
    SameRisk(i);
    assert MarketFits(a, p, s, now) == MarketFits(b, p, s, now) by { SameMarket(i, p, s, now); }
    if approval.Some? { SameApproval(i, approval.value, s, now); }
    hide ApprovalFits;
  }

  lemma SameRisk(i: Intention)
    ensures forall equity, risk ::
              HasRisk(i.(status := Staged), equity, risk) == HasRisk(i.(status := Approved), equity, risk)
  {
  }

  lemma SameMarket(i: Intention, p: Policy, s: Snapshot, now: int)
    ensures MarketFits(i.(status := Staged), p, s, now) == MarketFits(i.(status := Approved), p, s, now)
  {
  }

  lemma SameApproval(i: Intention, a: Approval, s: Snapshot, now: int)
    ensures ApprovalFits(i.(status := Staged), a, s, now) == ApprovalFits(i.(status := Approved), a, s, now)
  {
    SameRisk(i);
    hide HasRisk, Within;
  }

  /** Validation asks for no human: a staged record naming a stored approval is sent exactly when an approved one is. */
  lemma StagedCountsAsApproved(w: World, i: Intention, p: Policy, s: Snapshot)
    ensures Sends(w, i.(status := Staged), p, s) <==> Sends(w, i.(status := Approved), p, s)
  {
    hide ReadApproval, IntentionReasons;
    var r := ReadApproval(w, i.humanApprovalId);
    if r.Done? { StagedOrApproved(i, r.value, p, s, r.world.now); }
  }

  // ------------------------------------------------------------------ a whole tick

  /** The order was sent after `w`, and any approval behind it was already stored there. */
  ghost predicate SentUnder(w: World, p: Placement) {
    && w.now <= p.at
    && (p.approvalKey.Some? && p.approval.Some? ==>
          p.approvalKey.value in w.store.approvals && w.store.approvals[p.approvalKey.value] == p.approval.value)
  }

  ghost predicate AtMostOneCall(w: World, w': World) {
    || SameCalls(w, w')
    || (&& |w'.history.placements| == |w.history.placements| + 1 && w.history.placements < w'.history.placements
        && SentUnder(w, w'.history.placements[|w.history.placements|]))
  }

  lemma OneCallLater(w: World, w1: World, w': World)
    requires Quiet(w, w1) && AtMostOneCall(w1, w')
    ensures AtMostOneCall(w, w')
  {
  }

  lemma ActCalls(w: World, env: TickInput, p: Policy, i: Intention, runtime: Runtime, s: Snapshot, gateAt: int)
    requires SafeId(i.id).Some?
    ensures AtMostOneCall(w, Act(w, env, p, i, runtime, s, gateAt).world)
  {
    hide Act, SentUnder, CallOf, ReadApproval, IntentionReasons, SafeId;
    ActSendsIff(w, env, p, i, runtime, s, gateAt);
    if Sends(w, i, p, s) { CallReadsStored(w, i, s, gateAt); }
  }

  lemma CallReadsStored(w: World, i: Intention, s: Snapshot, gateAt: int)
    requires SafeId(i.id).Some? && ReadApproval(w, i.humanApprovalId).Done?
    ensures var r := ReadApproval(w, i.humanApprovalId); SentUnder(w, CallOf(r.world, i, s, r.value, gateAt))
  {
    hide SafeId;
  }

  lemma SurveyCalls(w: World)
    ensures Quiet(w, Survey(w).world)
  {
    hide Listing, Sweep, RejectExpired;
    var r1 := ListIntentions(w);
    if r1.Done? { SweepCalls(r1.world, RejectExpired(r1.value, r1.world.now)); }
  }

  lemma ExecuteCalls(w: World, env: TickInput, p: Policy, runtime: Runtime, s: Snapshot, gateAt: int)
    ensures AtMostOneCall(w, Execute(w, env, p, runtime, s, gateAt).world)
  {
    hide SafeId, Survey, SelectNext, AppendJournal, Act, SentUnder;
    SurveyCalls(w);
    var r1 := Survey(w);
    if r1.Done? {
      AppendJournalCalls(r1.world, NoAction, None);
      var next := SelectNext(r1.value, r1.world.now);
      if next.Some? && SafeId(next.value.id).Some? {
        ActCalls(r1.world, env, p, next.value, runtime, s, gateAt);
        OneCallLater(w, r1.world, Execute(w, env, p, runtime, s, gateAt).world);
      }
    }
  }

  lemma GatedCalls(w: World, env: TickInput, p: Policy, runtime: Runtime, s: Snapshot)
    ensures AtMostOneCall(w, Gated(w, env, p, runtime, s).world)
  {
    hide SystemReasons, LatchCritical, JournalAnd, Execute, IsCritical, Touch, SentUnder;
    LatchCriticalCalls(w, UnsafeSystem, p.mode.Live?);
    JournalAndCalls(w, Halt, UnsafeStatus);
    TouchCalls(w);
    var w1 := Touch(w).world;
    JournalAndCalls(w1, ReconcileRequired, ReconcileStatus);
    ExecuteCalls(w1, env, p, runtime, s, w.now);
    OneCallLater(w, w1, Execute(w1, env, p, runtime, s, w.now).world);
  }

  lemma TickBodyCalls(w: World, env: TickInput)
    ensures AtMostOneCall(w, TickBody(w, env).world)
  {
    hide JournalAnd, Gated, WriteRuntime, GetRuntimeSnapshot, SentUnder;
    var ps, runtime := w.store.policyState, w.store.runtime.(lastCronAt := Some(w.now));
    WriteRuntimeCalls(w, runtime);
    var w1 := WriteRuntime(w, runtime).world;
    JournalAndCalls(w1, NoAction, if ps.valid then PolicyDisabled else PolicyInvalid);
    JournalAndCalls(w1, Halt, Halted);
    SnapshotCalls(w1, env.snapshot);
    var w2 := GetRuntimeSnapshot(w1, env.snapshot).world;
    GatedCalls(w2, env, ps.policy, runtime, env.snapshot);
    OneCallLater(w, w2, Gated(w2, env, ps.policy, runtime, env.snapshot).world);
  }

  lemma LockedTickCalls(w: World, env: TickInput)
    ensures AtMostOneCall(w, LockedTick(w, env).world)
  {
    hide TickBody, JournalAnd, ReleaseLock, SentUnder;
    TickBodyCalls(w, env);
    JournalAndCalls(TickBody(w, env).world, ErrorEntry, CronError);
    LockCalls(GuardedBody(w, env).world, LOCK_TTL_MS);
  }

  /**
   One tick sends at most one order, whatever fails inside it; the order is sent after the tick began, and any approval
   behind it was stored before.
   */
  lemma TickSendsAtMostOnce(w: World, env: TickInput)
    ensures AtMostOneCall(w, RunMinuteCron(w, env).world)
  {
    hide LockedTick, Touch, AcquireLock, SentUnder;
    TouchCalls(w);
    var w0 := Touch(w).world;
    LockCalls(w0, LOCK_TTL_MS);
    var w1 := AcquireLock(w0, LOCK_TTL_MS).world;
    LockedTickCalls(w1, env);
    OneCallLater(w, w1, LockedTick(w1, env).world);
  }

  // ------------------------------------------------------------------ staging, approving, executing

  /** What staging accepted passes the same checks at execution exactly until it expires. */
  lemma StagedPassesUntilExpiryIff(raw: RawIntention, ps: LoadedPolicy, now: int, later: int)
    requires StageReasons(raw, NormalizeIntention(raw, ps.policy, now), ps, now) == []
    ensures var i := NormalizeIntention(raw, ps.policy, now); FieldReasons(i, ps.policy, later) == [] <==>
      i.expiresAt.After(later)
  {
    var i := NormalizeIntention(raw, ps.policy, now);
    hide NormalizeIntention, AsString;
    assert i.status.Staged? by { NormalizedIsStaged(raw, ps.policy, now); }
  }

  /** The documented defaults of the tolerances are taken exactly where the field is present but no finite number. */
  lemma DefaultsTakenIff(raw: RawIntention, p: Policy, now: int)
    requires p.maxRiskPerTradeFraction > 0.0
    ensures var i := NormalizeIntention(raw, p, now);
      && (i.maxSlippageBps == 10.0 <==> raw.maxSlippageBps.NotFinite? || raw.maxSlippageBps == Number(10.0))
      && (i.maxSpreadBps == 15.0 <==> raw.maxSpreadBps.NotFinite? || raw.maxSpreadBps == Number(15.0))
      && (i.riskFraction == p.maxRiskPerTradeFraction <==>
            raw.riskFraction.NotFinite? || raw.riskFraction == Number(p.maxRiskPerTradeFraction))
  {
    hide AsString;
  }

  /**
   What leaving a number out leads to: without a price, a quantity or an invalidation price the record is rejected; with
   all of them but no spread tolerance it may be staged, and is then refused in every market that has a spread.
   */
  lemma AbsentNumbers(raw: RawIntention, ps: LoadedPolicy, now: int, approval: Option<Approval>, s: Snapshot,
                      later: int)
    ensures var i := NormalizeIntention(raw, ps.policy, now);
      && (raw.limitPrice.Blank? || raw.quantity.Blank? || raw.invalidationPrice.Blank? ==>
            StageReasons(raw, i, ps, now) != [])
      && (raw.maxSpreadBps.Blank? && i.symbol in s.market && s.market[i.symbol].spreadBps > 0.0 ==>
            SpreadTooWide in IntentionReasons(i, approval, ps.policy, s, later))
  {
    hide AsString, FieldReasons, ApprovalReasons, AutonomousReasons, EstimateRiskAmount;
  }

  lemma NormalizedIsStaged(raw: RawIntention, p: Policy, now: int)
    ensures NormalizeIntention(raw, p, now).status.Staged?
  {
    hide AsString;
  }

  /** The record after the human has approved it. */
  function ApprovedRecord(i: Intention, approvalId: string): Intention {
    i.(humanApprovalId := Some(approvalId), status := Approved)
  }

  /**
   An approval, as the tick requested it, accepts the approved record exactly while it is unexpired, the risk
   estimate is unchanged, the record's slippage allowance is not negative and the market has not moved beyond it.
   */
  lemma RequestedApprovalAcceptsIff(i: Intention, p: Policy, s: Snapshot, id: string, now: int, s': Snapshot,
                                    later: int)
    requires i.policyId == p.id && i.limitPrice > 0.0
    ensures var tolerance := i.limitPrice * (i.maxSlippageBps / 10000.0);
      ApprovalReasons(ApprovedRecord(i, id), Some(NewApproval(i, p, s, id, now)), s', later) == [] <==>
      && later < now + APPROVAL_TTL_MS
      && Abs(EstimateRiskAmount(i, s) - EstimateRiskAmount(i, s')) <= 0.000001
      && i.maxSlippageBps >= 0.0
      && (i.symbol in s'.market ==> Abs(s'.market[i.symbol].mid - i.limitPrice) <= tolerance)
  {
    hide EstimateRiskAmount;
    SameEstimate(i, id, s');
    ToleranceSign(i.limitPrice, i.maxSlippageBps);
  }

  lemma SameEstimate(i: Intention, id: string, s: Snapshot)
    ensures EstimateRiskAmount(ApprovedRecord(i, id), s) == EstimateRiskAmount(i, s)
  {
  }

  lemma ToleranceSign(price: real, bps: real)
    requires price > 0.0
    ensures price * (bps / 10000.0) >= 0.0 <==> bps >= 0.0
  {
    var f := bps / 10000.0;
    if f >= 0.0 { assert price * f >= 0.0; } else { assert price * (-f) > 0.0; assert price * f == -(price * (-f)); }
  }

  // ------------------------------------------------------------------ the shown adapter

  lemma CriticalConcat(a: seq<SystemReason>, b: seq<SystemReason>)
    ensures IsCritical(a + b) <==> IsCritical(a) || IsCritical(b)
  {
    hide Critical;
    if IsCritical(a) {
      var i :| 0 <= i < |a| && Critical(a[i]);
      assert (a + b)[i] == a[i];
    }
    if IsCritical(b) {
      var i :| 0 <= i < |b| && Critical(b[i]);
      assert (a + b)[|a| + i] == b[i];
    }
  }

  lemma {:induction false} MarketsAreNotCritical(symbols: seq<string>, p: Policy, s: Snapshot, now: int)
    ensures !IsCritical(MarketReasons(symbols, p, s, now))
  {
    if symbols != [] {
      var init, last := symbols[..|symbols| - 1], symbols[|symbols| - 1];
      MarketsAreNotCritical(init, p, s, now);
      CriticalConcat(MarketReasons(init, p, s, now), MarketReason(last, p, s, now));
    }
  }

  lemma CriticalWhen(condition: bool, reason: SystemReason)
    ensures IsCritical(When(condition, reason)) <==> condition && Critical(reason)
  {
    if condition && Critical(reason) { assert When(condition, reason)[0] == reason; }
  }

  /** A realised loss beyond the policy's fraction, too many open orders, or a stale private stream beside live ones. */
  ghost predicate BeyondLimits(p: Policy, stream: Option<int>, equity: Option<real>, daily: real, weekly: real,
                               open: nat, now: int)
  {
    || (equity.Some? && equity.value > 0.0 && daily <= -(equity.value * p.maxDailyLossFraction))
    || (equity.Some? && equity.value > 0.0 && weekly <= -(equity.value * p.maxWeeklyLossFraction))
    || open > p.maxOpenOrders
    || (p.mode.Live? && open > 0 && (stream.None? || now - stream.value > 2 * 60 * 1000))
  }

  /**
   The kill switch is latched exactly when the two order lists disagree, permissions look wrong, positions are more than
   the policy's, or the limits are exceeded: trouble with the exchange, the markets or the API only refuses.
   */
  lemma LatchesIff(p: Policy, r: Runtime, s: Snapshot, now: int)
    ensures IsCritical(SystemReasons(p, r, s, now)) <==>
            || !SameOrderIds(s) || s.permissionAnomaly || s.openPositions > p.maxOpenPositions
            || BeyondLimits(p, r.lastPrivateStreamAt, s.equity, s.dailyRealizedPnl, s.weeklyRealizedPnl,
                            |s.openOrders|, now)
  {
    hide ExchangeReasons, MarketReasons, AccountReasons, OrderReasons, IsCritical, BeyondLimits, SameOrderIds;
    ExchangeIsNotCritical(s);
    MarketsAreNotCritical(p.allowedSymbols, p, s, now);
    OrdersAreCriticalIff(s);
    AccountIsCriticalIff(p, r, s, now);
    var e, m, o, a := ExchangeReasons(s), MarketReasons(p.allowedSymbols, p, s, now), OrderReasons(s),
      AccountReasons(p, r, s, now);
    CriticalConcat(e + m + o, a);
    CriticalConcat(e + m, o);
    CriticalConcat(e, m);
  }

  lemma OrdersAreCriticalIff(s: Snapshot)
    ensures IsCritical(OrderReasons(s)) <==> !SameOrderIds(s)
  {
    hide SameOrderIds, Critical;
    OrderSafetyMeaning(s);
    var local, exchange := OrderIds(s.localOpenOrders), OrderIds(s.openOrders);
    UnmatchedMeaning(local, exchange, true);
    UnmatchedMeaning(exchange, local, false);
    var reasons := OrderReasons(s);
    if reasons != [] {
      assert reasons[0] in Unmatched(local, exchange, true) || reasons[0] in Unmatched(exchange, local, false);
      assert Critical(reasons[0]);
    }
  }

  /** With the shown adapter the order lists never disagree: the kill switch is latched exactly beyond those limits. */
  lemma ShownAdapterLatchesIff(p: Policy, r: Runtime, status: ExchangeStatus, market: map<string, Market>,
                               equity: Option<real>, now: int)
    requires p.maxOpenPositions >= 0
    ensures var s := ShownSnapshot(r, status, market, equity);
      && OwnOrders(s, r) && OrderReasons(s) == []
      && (IsCritical(SystemReasons(p, r, s, now)) <==>
            BeyondLimits(p, r.lastPrivateStreamAt, equity, r.dailyRealizedPnl, r.weeklyRealizedPnl,
                         |r.openOrders|, now))
  {
    hide OrderReasons, IsCritical, BeyondLimits, SystemReasons, SameOrderIds;
    var s := ShownSnapshot(r, status, market, equity);
    SameListsMatch(s);
    OrderSafetyMeaning(s);
    LatchesIff(p, r, s, now);
  }

  lemma SameListsMatch(s: Snapshot)
    requires s.localOpenOrders == s.openOrders
    ensures OrderReasons(s) == []
  {
    hide OrderIds, Unmatched;
    UnmatchedMeaning(OrderIds(s.openOrders), OrderIds(s.openOrders), true);
    UnmatchedMeaning(OrderIds(s.openOrders), OrderIds(s.openOrders), false);
  }

  lemma ExchangeIsNotCritical(s: Snapshot)
    ensures !IsCritical(ExchangeReasons(s))
  {
  }

  lemma AccountIsCriticalIff(p: Policy, r: Runtime, s: Snapshot, now: int)
    ensures IsCritical(AccountReasons(p, r, s, now)) <==>
            || s.permissionAnomaly || s.openPositions > p.maxOpenPositions
            || BeyondLimits(p, r.lastPrivateStreamAt, s.equity, s.dailyRealizedPnl, s.weeklyRealizedPnl,
                            |s.openOrders|, now)
  {
    hide IsCritical, When;
    var equity := Equity(s);
    var a := When(s.equity.None? || s.equity.value <= 0.0, EquityUnreadable);
    var b := When(equity > 0.0 && s.dailyRealizedPnl <= -(equity * p.maxDailyLossFraction), DailyLoss);
    var c := When(equity > 0.0 && s.weeklyRealizedPnl <= -(equity * p.maxWeeklyLossFraction), WeeklyLoss);
    var d := When(s.permissionAnomaly, PermissionAnomaly);
    var e := When(s.openPositions > p.maxOpenPositions, UnexpectedPosition);
    var f := When(|s.openOrders| > p.maxOpenOrders, UnexpectedOrder);
    var stale := p.mode.Live? && |s.openOrders| > 0 &&
      (r.lastPrivateStreamAt.None? || now - r.lastPrivateStreamAt.value > STREAM_STALE_MS);
    var g, h := When(stale, StreamStale), When(s.apiErrorCount > MAX_API_ERRORS, ApiErrors);
    CriticalWhen(s.equity.None? || s.equity.value <= 0.0, EquityUnreadable);
    CriticalWhen(equity > 0.0 && s.dailyRealizedPnl <= -(equity * p.maxDailyLossFraction), DailyLoss);
    CriticalWhen(equity > 0.0 && s.weeklyRealizedPnl <= -(equity * p.maxWeeklyLossFraction), WeeklyLoss);
    CriticalWhen(s.permissionAnomaly, PermissionAnomaly);
    CriticalWhen(s.openPositions > p.maxOpenPositions, UnexpectedPosition);
    CriticalWhen(|s.openOrders| > p.maxOpenOrders, UnexpectedOrder);
    CriticalWhen(stale, StreamStale);
    CriticalWhen(s.apiErrorCount > MAX_API_ERRORS, ApiErrors);
    assert AccountReasons(p, r, s, now) == a + b + c + d + e + f + g + h;
    CriticalConcat(a, b);
    CriticalConcat(a + b, c);
    CriticalConcat(a + b + c, d);
    CriticalConcat(a + b + c + d, e);
    CriticalConcat(a + b + c + d + e, f);
    CriticalConcat(a + b + c + d + e + f, g);
    CriticalConcat(a + b + c + d + e + f + g, h);
  }
}
