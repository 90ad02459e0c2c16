/** What each operation does to the store, field by field, and when: staging, cancelling, and the actions of a tick. */
module TradingEffects {
  import opened Basics
  import opened JsStrings
  import opened TradingTypes
  import opened TradingSafety
  import opened StorageSpec
  import opened OpsSpec

  // ------------------------------------------------------------------ staging

  /** The text of a field: trimmed and cut to five hundred characters, or the default where there is none. */
  ghost predicate IsText(r: string, value: Option<string>, default: string) {
    && (value.None? ==> r == default)
    && (value.Some? && |Trim(value.value)| <= 500 ==> r == Trim(value.value))
    && (value.Some? && |Trim(value.value)| > 500 ==> r == Trim(value.value)[..500])
  }

  ghost predicate IsNumber(r: real, value: RawNumber, default: real) {
    && (value.Blank? ==> r == 0.0) && (value.NotFinite? ==> r == default) && (value.Number? ==> r == value.value)
  }

  ghost predicate NumbersAsked(i: Intention, raw: RawIntention, p: Policy) {
    && IsNumber(i.limitPrice, raw.limitPrice, 0.0) && IsNumber(i.quantity, raw.quantity, 0.0)
    && IsNumber(i.invalidationPrice, raw.invalidationPrice, 0.0)
    && IsNumber(i.maxSlippageBps, raw.maxSlippageBps, 10.0) && IsNumber(i.maxSpreadBps, raw.maxSpreadBps, 15.0)
    && IsNumber(i.riskFraction, raw.riskFraction, p.maxRiskPerTradeFraction)
  }

  ghost predicate TextsAsked(i: Intention, raw: RawIntention, p: Policy) {
    && IsText(i.id, raw.id, raw.generatedId) && IsText(i.symbol, raw.symbol, "")
    && IsText(i.strategyId, raw.strategyId, "unspecified") && IsText(i.policyId, raw.policyId, p.id)
    && i.humanApprovalId == raw.humanApprovalId
  }

  /** The record is what the caller asked for, with the documented defaults. */
  ghost predicate AsAsked(i: Intention, raw: RawIntention, p: Policy, now: int) {
    && TextsAsked(i, raw, p) && NumbersAsked(i, raw, p)
    && (i.side.Sell? <==> raw.sell)
    && (raw.mode.Some? ==> i.mode == raw.mode.value) && (raw.mode.None? ==> i.mode == p.mode)
    && (raw.createdAt.Some? ==> i.createdAt == raw.createdAt.value)
    && (raw.createdAt.None? ==> i.createdAt == At(now))
    && (raw.expiresAt.Some? ==> i.expiresAt == raw.expiresAt.value)
    && (raw.expiresAt.None? ==> i.expiresAt == At(now + p.maxOrderAgeSeconds * 1000))
    && (i.requiresHumanApproval <==> i.mode.Live? && p.live.requiresHumanApproval) && i.status.Staged?
  }

  /** What a record must be to be accepted for staging. */
  ghost predicate MayBeStaged(i: Intention, raw: RawIntention, ps: LoadedPolicy, now: int) {
    var p := ps.policy;
    && (ps.valid || ps.errors == {}) && p.enabled
    && i.id != "" && i.symbol in p.allowedSymbols && IsText("limit", raw.orderType, "limit")
    && i.limitPrice > 0.0 && i.quantity > 0.0 && i.invalidationPrice > 0.0
    && i.createdAt.At? && i.expiresAt.At? && now < i.expiresAt.ms
    && i.policyId == p.id && i.mode == p.mode && i.riskFraction <= p.maxRiskPerTradeFraction
    && (i.mode.Live? && !p.live.requiresHumanApproval ==>
          i.limitPrice * i.quantity <= p.live.maxAutonomousNotionalUsd)
    && !raw.unsupportedFeature
  }

  lemma TextIsText(value: Option<string>, default: string, r: string)
    ensures IsText(r, value, default) <==> r == AsString(value, default)
  {
    hide Trim;
  }

  lemma NormalizedTexts(i: Intention, raw: RawIntention, p: Policy)
    ensures TextsAsked(i, raw, p) <==>
            && i.id == AsString(raw.id, raw.generatedId) && i.symbol == AsString(raw.symbol, "")
            && i.strategyId == AsString(raw.strategyId, "unspecified") && i.policyId == AsString(raw.policyId, p.id)
            && i.humanApprovalId == raw.humanApprovalId
  {
    hide IsText, AsString;
    TextIsText(raw.id, raw.generatedId, i.id);
    TextIsText(raw.symbol, "", i.symbol);
    TextIsText(raw.strategyId, "unspecified", i.strategyId);
    TextIsText(raw.policyId, p.id, i.policyId);
  }

  /** Normalizing the input gives the one record that was asked for. */
  lemma NormalizedIff(i: Intention, raw: RawIntention, p: Policy, now: int)
    ensures AsAsked(i, raw, p, now) <==> i == NormalizeIntention(raw, p, now)
  {
    hide AsString, TextsAsked;
    NormalizedTexts(i, raw, p);
  }

  /** Staging accepts a record exactly when it may be staged. */
  lemma StagingAcceptsIff(raw: RawIntention, i: Intention, ps: LoadedPolicy, now: int)
    ensures StageReasons(raw, i, ps, now) == [] <==> MayBeStaged(i, raw, ps, now)
  {
    hide AsString, IsText;
    TextIsText(raw.orderType, "limit", "limit");
  }

  /**
   Staging stores exactly the record that was asked for, under its storage key and over no other record: as staged when
   the answer is yes, which it is exactly for a record that may be staged, and as rejected when it is no.
   */
  lemma StagingStores(w: World, raw: RawIntention)
    requires StageIntention(w, raw).Done?
    ensures var r, ps, now := StageIntention(w, raw), w.store.policyState, Touch(w).world.now;
      exists i: Intention ::
        && AsAsked(i, raw, ps.policy, now) && SafeId(i.id).Some?
        && (r.value <==> MayBeStaged(i, raw, ps, now))
        && r.world.store.approvals == w.store.approvals && r.world.store.policyState == ps
        && r.world.store.intentions ==
           w.store.intentions[SafeId(i.id).value := if r.value then i else i.(status := Rejected)]
  {
    hide SafeId, NormalizeIntention, StageReasons, AsAsked, MayBeStaged, Commit, AppendJournal, NoteStaging;
    var r, ps, w0 := StageIntention(w, raw), w.store.policyState, Touch(w).world;
    var i := NormalizeIntention(raw, ps.policy, w0.now);
    assert AsAsked(i, raw, ps.policy, w0.now) by { NormalizedIff(i, raw, ps.policy, w0.now); }
    StagingAcceptsIff(raw, i, ps, w0.now);
    assert w0.store == w.store;
    var saved := if r.value then i else i.(status := Rejected);
    Saves(w0, saved);
    if r.value {
      StagedSaves(w0, i);
      Journals(SaveStaged(w0, i).world, IntentionStaged, Some(i.id));
    } else {
      Journals(SaveIntention(w0, saved).world, IntentionRejected, Some(i.id));
    }
  }

  // ------------------------------------------------------------------ the writes

  /** A write that returned has stored the record under its key and nothing else. */
  lemma Saves(w: World, i: Intention)
    ensures SaveIntention(w, i).Done? ==>
              SafeId(i.id).Some? && SaveIntention(w, i).world.history == Elapse(w).history &&
              SaveIntention(w, i).world.now == Elapse(w).now &&
              SaveIntention(w, i).world.store == w.store.(intentions := w.store.intentions[SafeId(i.id).value := i])
  {
    hide SafeId;
  }

  lemma StagedSaves(w: World, i: Intention)
    ensures SaveStaged(w, i).Done? ==>
              SaveIntention(w, i).Done? && SaveStaged(w, i).world.store == SaveIntention(w, i).world.store
  {
    hide SafeId, NoteStaging;
  }

  /** Journalling adds its entry and stamps the runtime. */
  lemma Journals(w: World, kind: JournalKind, id: Option<string>)
    ensures var r := AppendJournal(w, kind, id);
      r.Done? ==>
        r.world.store == w.store.(journal := w.store.journal + [JournalEntry(kind, id, w.now)],
                                  runtime := w.store.runtime.(lastJournalAt := Some(w.now)))
  {
  }

  // ------------------------------------------------------------------ cancelling

  /**
   Cancelling answers whether there is a record under the key of the id; that record is then cancelled, and nothing
   else changes.
   */
  lemma CancelMarks(w: World, id: string)
    requires CancelIntention(w, id).Done?
    requires forall k :: k in w.store.intentions ==> SafeId(w.store.intentions[k].id) == Some(k)
    ensures var r := CancelIntention(w, id);
      && SafeId(id).Some? && (r.value <==> SafeId(id).value in w.store.intentions)
      && r.world.store == if r.value
         then w.store.(intentions := w.store.intentions[SafeId(id).value :=
                         w.store.intentions[SafeId(id).value].(status := Cancelled)])
         else w.store
  {
    hide SafeId, SaveIntention;
    var r1 := ReadIntention(Touch(w).world, id);
    if r1.Done? && r1.value.Some? { Saves(r1.world, r1.value.value.(status := Cancelled)); }
  }

  // ------------------------------------------------------------------ what a tick does with the record it took

  /** A tick that enters holds the lock for ninety seconds from then, and changes nothing else by entering. */
  lemma TickLocks(w: World)
    ensures var r := AcquireLock(w, LOCK_TTL_MS);
      r.Done? && r.value ==> r.world.store == w.store.(lock := Some(Lock(w.now + 90 * 1000)))
  {
  }

  /** The only intention checks that ask for an approval are those of a live record under required approval. */
  lemma AsksIff(i: Intention, approval: Option<Approval>, p: Policy, s: Snapshot, now: int)
    ensures i.mode.Live? && ApprovalMissing in IntentionReasons(i, approval, p, s, now) <==>
            i.mode.Live? && p.live.requiresHumanApproval && approval.None?
  {
    hide FieldReasons, MarketAndRiskReasons, AutonomousReasons, ApprovalReasons;
    OthersDoNotAsk(i, p, s, now);
    OnlyAbsenceAsks(i, approval, s, now);
  }

  lemma OthersDoNotAsk(i: Intention, p: Policy, s: Snapshot, now: int)
    ensures ApprovalMissing !in FieldReasons(i, p, now) && ApprovalMissing !in AutonomousReasons(i, p)
    ensures ApprovalMissing !in MarketAndRiskReasons(i, p, s, now)
  {
    hide FieldReasons, MarketAndRiskReasons;
    FieldsDoNotAsk(i, p, now);
    MarketDoesNotAsk(i, p, s, now);
  }

  lemma FieldsDoNotAsk(i: Intention, p: Policy, now: int)
    ensures ApprovalMissing !in FieldReasons(i, p, now)
  {
    OnlyItsReason();
    hide When;
  }

  lemma MarketDoesNotAsk(i: Intention, p: Policy, s: Snapshot, now: int)
    ensures ApprovalMissing !in MarketAndRiskReasons(i, p, s, now)
  {
    OnlyItsReason();
    hide EstimateRiskAmount, When, Equity;
  }

  lemma OnlyItsReason()
    ensures forall condition, r: IntentionReason :: r != ApprovalMissing ==> ApprovalMissing !in When(condition, r)
  {
  }

  lemma OnlyAbsenceAsks(i: Intention, approval: Option<Approval>, s: Snapshot, now: int)
    ensures ApprovalMissing in ApprovalReasons(i, approval, s, now) <==> approval.None?
  {
    OnlyItsReason();
    hide EstimateRiskAmount, Tolerance, Abs, When;
  }

  /**
   The record a tick took is sent to the human exactly when it is live, approval is required and none is stored;
   otherwise it is executed in its own mode exactly when it is acceptable, and rejected when it is not.
   */
  lemma ActDecides(w: World, env: TickInput, p: Policy, i: Intention, runtime: Runtime, s: Snapshot, gateAt: int)
    requires SafeId(i.id).Some? && Act(w, env, p, i, runtime, s, gateAt).Done?
    ensures var a, status := ReadApproval(w, i.humanApprovalId), Act(w, env, p, i, runtime, s, gateAt).value;
      && a.Done?
      && (status.RequestedApproval? <==> i.mode.Live? && p.live.requiresHumanApproval && a.value.None?)
      && (status.PaperPlaced? <==> i.mode.Paper? && Acceptable(i, a.value, p, s, a.world.now))
      && (status.LivePlaced? || status.KillSwitched? <==> i.mode.Live? && Acceptable(i, a.value, p, s, a.world.now))
      && (status.RejectedByChecks? <==>
            !status.RequestedApproval? && !Acceptable(i, a.value, p, s, a.world.now))
  {
    hide SafeId, IntentionReasons, Acceptable, ReadApproval, GetRuntimeSnapshot, SaveNewApproval, SaveIntention,
      AppendJournal, Touch, WriteRuntime, TryLive, LatchCritical, NewApproval, PaperOrderOf;
    var a := ReadApproval(w, i.humanApprovalId);
    if a.Done? {
      AcceptedIff(i, a.value, p, s, a.world.now);
      AsksIff(i, a.value, p, s, a.world.now);
      LiveEnds(a.world, i, runtime, s, a.value, gateAt);
      if i.mode.Live? && p.live.requiresHumanApproval && a.value.None? { NeedsApproval(i, p, s, a.world.now); }
    }
  }

  lemma NeedsApproval(i: Intention, p: Policy, s: Snapshot, now: int)
    requires i.mode.Live? && p.live.requiresHumanApproval
    ensures !Acceptable(i, None, p, s, now)
  {
    hide FieldsFit, MarketFits, LosesAtMost, ApprovalFits;
  }

  lemma LiveEnds(w: World, i: Intention, runtime: Runtime, s: Snapshot, approval: Option<Approval>, gateAt: int)
    requires SafeId(i.id).Some?
    ensures var r := ExecuteLive(w, i, runtime, s, approval, gateAt);
      r.Done? ==> r.value == LivePlaced(i.id) || r.value == KillSwitched(i.id)
  {
    hide SafeId, PlaceLimitOrder, SaveIntention, AppendJournal, Touch, WriteRuntime, MarkUsed, LatchCritical;
  }

  /** The approval stands for this order: its terms, its risk and five minutes from the time it was asked for. */
  ghost predicate StandsFor(a: Approval, i: Intention, p: Policy, s: Snapshot, id: string, now: int) {
    && a.id == id && a.intentionId == i.id && a.usedAt.None? && a.expiresAt == now + 5 * 60 * 1000
    && a.symbol == i.symbol && a.side == i.side && a.quantity == i.quantity && a.limitPrice == i.limitPrice
    && a.toleranceBps == i.maxSlippageBps && a.policyId == p.id && a.strategyId == i.strategyId
    && HasRisk(i, if s.equity.Some? then s.equity.value else 0.0, a.riskAmount)
  }

  /** Asking stores the approval, and with the record the reference to it; no other record or approval changes. */
  lemma RequestStores(w: World, env: TickInput, i: Intention, p: Policy)
    requires RequestApproval(w, env, i, p).Done?
    ensures var st, st' := w.store, RequestApproval(w, env, i, p).world.store;
      && SafeId(env.approvalId).Some? && SafeId(i.id).Some?
      && st'.intentions == st.intentions[SafeId(i.id).value :=
           i.(humanApprovalId := Some(env.approvalId), status := ApprovalRequested)]
      && (exists a :: StandsFor(a, i, p, env.later, env.approvalId, Touch(w).world.now) &&
                      st'.approvals == st.approvals[SafeId(env.approvalId).value := a])
  {
    hide SafeId, SaveIntention, AppendJournal, NewApproval, StandsFor;
    var r1 := GetRuntimeSnapshot(w, env.later);
    var a := NewApproval(i, p, env.later, env.approvalId, r1.world.now);
    NewStandsFor(i, p, env.later, env.approvalId, r1.world.now);
    NewApprovalId(i, p, env.later, env.approvalId, r1.world.now);
    var r2 := SaveNewApproval(r1.world, a);
    var asked := i.(humanApprovalId := Some(env.approvalId), status := ApprovalRequested);
    Saves(r2.world, asked);
    Journals(SaveIntention(r2.world, asked).world, ApprovalRequestedEntry, Some(i.id));
  }

  lemma NewApprovalId(i: Intention, p: Policy, s: Snapshot, id: string, now: int)
    ensures NewApproval(i, p, s, id, now).id == id
  {
  }

  lemma NewStandsFor(i: Intention, p: Policy, s: Snapshot, id: string, now: int)
    ensures StandsFor(NewApproval(i, p, s, id, now), i, p, s, id, now)
  {
    EstimateIsRisk(i, s);
    hide EstimateRiskAmount, HasRisk;
  }

  /** A refused record is stored as rejected. */
  lemma RejectStores(w: World, i: Intention)
    requires Reject(w, i).Done?
    ensures var st, st' := w.store, Reject(w, i).world.store;
      && SafeId(i.id).Some? && st'.intentions == st.intentions[SafeId(i.id).value := i.(status := Rejected)]
      && st'.approvals == st.approvals && st'.runtime == st.runtime.(lastJournalAt := st'.runtime.lastJournalAt)
  {
    hide SafeId, SaveIntention, AppendJournal;
    Saves(w, i.(status := Rejected));
    Journals(SaveIntention(w, i.(status := Rejected)).world, IntentionRejected, Some(i.id));
  }

  /** A paper order closes its record and is appended to the paper orders the tick began with. */
  lemma PaperStores(w: World, i: Intention, runtime: Runtime)
    requires ExecutePaper(w, i, runtime).Done?
    ensures var st, st' := w.store, ExecutePaper(w, i, runtime).world.store;
      && SafeId(i.id).Some? && st'.intentions == st.intentions[SafeId(i.id).value := i.(status := Executed)]
      && st'.approvals == st.approvals
      && st'.runtime == runtime.(paperOrders := runtime.paperOrders + [PaperOrder("paper-" + i.id, i.id)],
                                 lastJournalAt := st'.runtime.lastJournalAt)
  {
    hide SafeId, SaveIntention, AppendJournal;
    Saves(w, i.(status := Executed));
    var w1 := SaveIntention(w, i.(status := Executed)).world;
    var w2 := WriteRuntime(w1, runtime.(paperOrders := runtime.paperOrders + [PaperOrderOf(i)])).world;
    Journals(w2, PaperOrderEntry, Some(i.id));
  }

  /** The order id: at most sixty characters, beginning with the plugin's mark. */
  ghost predicate OrderIdFor(orderId: string, id: string) {
    && |orderId| <= 60 && orderId <= "metidos-" + id && (orderId == "metidos-" + id || |orderId| == 60)
  }

  /**
   A live order that went through closes its record, is appended with its own symbol and side to the open orders the
   tick began with, and uses up its approval; one that did not leaves trading latched.
   */
  lemma LiveStores(w: World, i: Intention, runtime: Runtime, s: Snapshot, approval: Option<Approval>, gateAt: int)
    requires SafeId(i.id).Some? && ExecuteLive(w, i, runtime, s, approval, gateAt).Done?
    requires approval.Some? ==> SafeId(approval.value.id).Some?
    ensures var r := ExecuteLive(w, i, runtime, s, approval, gateAt);
      && (r.value.LivePlaced? || (r.value.KillSwitched? && r.world.store.killSwitch.latched))
      && (r.value.LivePlaced? ==>
            && r.world.store.intentions == w.store.intentions[SafeId(i.id).value := i.(status := Executed)]
            && (exists orderId :: OrderIdFor(orderId, i.id) && r.world.store.runtime == runtime.(
                  openOrders := runtime.openOrders + [OpenOrder(orderId, i.symbol, i.side)],
                  lastJournalAt := r.world.store.runtime.lastJournalAt))
            && (approval.None? ==> r.world.store.approvals == w.store.approvals)
            && (approval.Some? ==> exists t: int ::
                  r.world.store.approvals ==
                  w.store.approvals[SafeId(approval.value.id).value := approval.value.(usedAt := Some(t))]))
  {
    hide SafeId, TryLive, LatchCritical;
    var tried := TryLive(w, i, runtime, s, approval, gateAt);
    if tried.Done? {
      PlacedStores(w, i, runtime, s, approval, gateAt);
    } else {
      LatchStores(tried.world, LiveOrderException, true);
    }
  }

  lemma PlacedStores(w: World, i: Intention, runtime: Runtime, s: Snapshot, approval: Option<Approval>, gateAt: int)
    requires SafeId(i.id).Some? && TryLive(w, i, runtime, s, approval, gateAt).Done?
    requires approval.Some? ==> SafeId(approval.value.id).Some?
    ensures var r := TryLive(w, i, runtime, s, approval, gateAt);
      && r.value.LivePlaced?
      && r.world.store.intentions == w.store.intentions[SafeId(i.id).value := i.(status := Executed)]
      && (exists orderId :: OrderIdFor(orderId, i.id) && r.world.store.runtime == runtime.(
            openOrders := runtime.openOrders + [OpenOrder(orderId, i.symbol, i.side)],
            lastJournalAt := r.world.store.runtime.lastJournalAt))
      && (approval.None? ==> r.world.store.approvals == w.store.approvals)
      && (approval.Some? ==> exists t: int ::
            r.world.store.approvals ==
            w.store.approvals[SafeId(approval.value.id).value := approval.value.(usedAt := Some(t))])
  {
    hide SafeId, PlaceLimitOrder, SaveIntention, AppendJournal, MarkUsed, OrderIdFor;
    var r1 := PlaceLimitOrder(w, i, s, approval, gateAt);
    PlaceAnswers(w, i, s, approval, gateAt);
    var closed := i.(status := Executed);
    Saves(r1.world, closed);
    var w2 := SaveIntention(r1.world, closed).world;
    var runtime' := runtime.(openOrders := runtime.openOrders + [OpenOrder(r1.value, i.symbol, i.side)]);
    var w3 := WriteRuntime(w2, runtime').world;
    Journals(w3, LiveOrderEntry, Some(i.id));
    var w5 := Touch(AppendJournal(w3, LiveOrderEntry, Some(i.id)).world).world;
    Uses(w5, approval);
  }

  lemma PlaceAnswers(w: World, i: Intention, s: Snapshot, approval: Option<Approval>, gateAt: int)
    requires SafeId(i.id).Some?
    ensures var r := PlaceLimitOrder(w, i, s, approval, gateAt);
      r.world.store == w.store && (r.Done? ==> OrderIdFor(r.value, i.id))
  {
    hide SafeId, CallOf;
  }

  lemma Uses(w: World, approval: Option<Approval>)
    requires approval.Some? ==> SafeId(approval.value.id).Some?
    ensures var r := MarkUsed(w, approval);
      r.Done? ==>
        && r.world.store == w.store.(approvals := r.world.store.approvals)
        && (approval.None? ==> r.world.store == w.store)
        && (approval.Some? ==>
              r.world.store.approvals ==
              w.store.approvals[SafeId(approval.value.id).value := approval.value.(usedAt := Some(w.now))])
  {
    hide SafeId;
  }

  /** Latching that went through halts trading, keeps the time of an earlier latch, cancels if live, and is recorded. */
  lemma LatchStores(w: World, cause: LatchCause, live: bool)
    requires LatchCritical(w, cause, live).Done?
    ensures var r, k := LatchCritical(w, cause, live), w.store.killSwitch;
      && r.world.store.killSwitch ==
         k.(latched := true, reason := Some(cause), latchedAt := if k.latchedAt.Some? then k.latchedAt else Some(w.now))
      && r.world.history.cancelAlls == w.history.cancelAlls + (if live then 1 else 0)
      && |r.world.store.incidents| == |w.store.incidents| + 1 && w.store.incidents <= r.world.store.incidents
      && |r.world.store.journal| == |w.store.journal| + 1
      && r.world.store.journal[|w.store.journal|].kind == KillSwitchEntry
      && r.world.store.intentions == w.store.intentions && r.world.store.approvals == w.store.approvals
  {
    hide AppendJournal;
    var w1 := LatchKillSwitch(w, cause).world;
    var w2 := if live then CancelAllOrders(w1) else w1;
    var w3 := AppendIncident(w2, Incident(live, cause, w2.now)).world;
    Journals(w3, KillSwitchEntry, None);
    JournalKeepsCalls(w3, KillSwitchEntry, None);
  }

  /**
   A tick that finds the system unsafe latches exactly when one of the reasons is critical, with a cancel of all orders
   under a live policy, and touches no record either way.
   */
  lemma RefusalStores(w: World, p: Policy, critical: bool)
    requires RefuseUnsafe(w, p, critical).Done?
    ensures var r := RefuseUnsafe(w, p, critical);
      && r.world.store.intentions == w.store.intentions && r.world.store.approvals == w.store.approvals
      && (critical ==> r.world.store.killSwitch.latched)
      && (critical ==> r.world.history.cancelAlls == w.history.cancelAlls + (if p.mode.Live? then 1 else 0))
      && (!critical ==> r.world.store.killSwitch == w.store.killSwitch)
      && (!critical ==> r.world.history.cancelAlls == w.history.cancelAlls)
  {
    hide LatchCritical, AppendJournal;
    if critical {
      LatchStores(w, UnsafeSystem, p.mode.Live?);
    } else {
      Journals(w, Halt, None);
      JournalKeepsCalls(w, Halt, None);
    }
  }

  lemma JournalKeepsCalls(w: World, kind: JournalKind, id: Option<string>)
    ensures AppendJournal(w, kind, id).world.history.cancelAlls == w.history.cancelAlls
  {
  }
}
