/** What a lost write of the latch costs: exactly which failures leave a live attempt half done. */
module TradingLosses {
  import opened Basics
  import opened JsStrings
  import opened TradingTypes
  import opened TradingSafety
  import opened StorageSpec
  import opened OpsSpec
  import opened TradingInvariant
  import opened TradingHistory
  import opened TradingCalls
  import PolicyLoader

  // ------------------------------------------------------------------ the I/O of one attempt

  /**
   The I/O of the live branch in order: the call, the record, the runtime, two for the journal, the notice, the
   approval.
   */
  const RECORD_IO := 1
  const RUNTIME_IO := 2
  const APPROVAL_IO := 6
  const ATTEMPT_IOS := 7

  function FaultAt(w: World, n: nat): Fault {
    if n < |w.script| then w.script[n].fault else Fine
  }

  /** The first I/O at or after `from` that throws, or the number of I/O in an attempt. */
  function FirstFault(w: World, from: nat): (n: nat)
    requires from <= ATTEMPT_IOS
    ensures from <= n <= ATTEMPT_IOS && (n < ATTEMPT_IOS ==> !FaultAt(w, n).Fine?)
    ensures forall j :: from <= j < n ==> FaultAt(w, j).Fine?
    decreases ATTEMPT_IOS - from
  {
    if from == ATTEMPT_IOS || !FaultAt(w, from).Fine? then from else FirstFault(w, from + 1)
  }

  /** The write numbered `io` of the attempt takes effect: nothing before it throws, nor does it before its effect. */
  predicate TakesEffect(w: World, io: nat)
    requires io < ATTEMPT_IOS
  {
    FirstFault(w, 0) > io || (FirstFault(w, 0) == io && FaultAt(w, io).ThrowsAfter?)
  }

  /** An exception ended the attempt before its write numbered `io` took effect, and the write of the latch was lost. */
  predicate LeftUndone(w: World, io: nat)
    requires io < ATTEMPT_IOS
  {
    !TakesEffect(w, io) && FaultAt(w, FirstFault(w, 0) + 1).ThrowsBefore?
  }

  // ------------------------------------------------------------------ the attempt, step by step

  /** Of an attempt on `key` begun in `st0` the store `st` shows just the writes named: record, order, approval. */
  ghost predicate Stands(st0: Store, st: Store, key: string, approvalKey: Option<string>,
                         closed: bool, recorded: bool, spent: bool)
  {
    && !st.killSwitch.latched
    && (if closed then Closed(st, key) else st.intentions == st0.intentions)
    && (if recorded then |st.runtime.openOrders| == |st0.runtime.openOrders| + 1
        else st.runtime.openOrders == st0.runtime.openOrders)
    && (approvalKey.Some? ==> if spent then Spent(st, approvalKey.value) else st.approvals == st0.approvals)
  }

  /** The faults ahead in `w'` are those of `w` without the first `n`; no loss has been noted. */
  ghost predicate Past(w: World, w': World, n: nat) {
    w'.history.lost == w.history.lost && forall j: nat :: FaultAt(w', j) == FaultAt(w, n + j)
  }

  lemma PastPast(w: World, w1: World, w2: World, n: nat, m: nat)
    requires Past(w, w1, n) && Past(w1, w2, m)
    ensures Past(w, w2, n + m)
  {
    hide FaultAt;
    forall j: nat
      ensures FaultAt(w2, j) == FaultAt(w, n + m + j)
    {
      assert FaultAt(w2, j) == FaultAt(w1, m + j);
      assert FaultAt(w1, m + j) == FaultAt(w, n + (m + j));
    }
  }

  lemma ElapsePast(w: World)
    ensures Past(w, Elapse(w), 1) && NextFault(w) == FaultAt(w, 0) && Elapse(w).store == w.store
  {
  }

  lemma CommitPast(w: World, store: Store)
    ensures var r := Commit(w, store);
      && Past(w, r.world, 1) && (r.Done? <==> FaultAt(w, 0).Fine?)
      && r.world.store == (if FaultAt(w, 0).ThrowsBefore? then w.store else store)
  {
    ElapsePast(w);
  }

  lemma PlacePast(w: World, i: Intention, s: Snapshot, approval: Option<Approval>, gateAt: int)
    requires SafeId(i.id).Some?
    ensures var r := PlaceLimitOrder(w, i, s, approval, gateAt);
      Past(w, r.world, 1) && (r.Done? <==> FaultAt(w, 0).Fine?) && r.world.store == w.store
  {
    ElapsePast(w);
    hide SafeId, CallOf, Take;
  }

  lemma SavePast(w: World, i: Intention, key: string)
    requires SafeId(i.id) == Some(key)
    ensures var r := SaveIntention(w, i);
      && Past(w, r.world, 1) && (r.Done? <==> FaultAt(w, 0).Fine?)
      && r.world.store ==
         if FaultAt(w, 0).ThrowsBefore? then w.store else w.store.(intentions := w.store.intentions[key := i])
  {
    hide FaultAt, SafeId, Past, Commit;
    CommitPast(w, w.store.(intentions := w.store.intentions[key := i]));
  }

  lemma RuntimePast(w: World, runtime: Runtime)
    ensures var r := WriteRuntime(w, runtime);
      && Past(w, r.world, 1) && (r.Done? <==> FaultAt(w, 0).Fine?)
      && r.world.store == if FaultAt(w, 0).ThrowsBefore? then w.store else w.store.(runtime := runtime)
  {
    hide FaultAt, Past, Commit;
    CommitPast(w, w.store.(runtime := runtime));
  }

  /** Journalling, the notice and the marks of time change nothing of the attempt. */
  ghost predicate SameAttempt(st: Store, st': Store) {
    && st'.killSwitch == st.killSwitch && st'.intentions == st.intentions && st'.approvals == st.approvals
    && st'.runtime.openOrders == st.runtime.openOrders
  }

  lemma JournalPast(w: World, kind: JournalKind, id: Option<string>)
    ensures var r := AppendJournal(w, kind, id);
      && Past(w, r.world, if FaultAt(w, 0).Fine? then 2 else 1)
      && (r.Done? <==> FaultAt(w, 0).Fine? && FaultAt(w, 1).Fine?) && SameAttempt(w.store, r.world.store)
  {
    hide FaultAt, Commit, Past;
    var entry := JournalEntry(kind, id, w.now);
    var store := w.store.(journal := w.store.journal + [entry]);
    CommitPast(w, store);
    var r1 := Commit(w, store);
    if r1.Done? {
      var w1 := r1.world;
      var store1 := w1.store.(runtime := w1.store.runtime.(lastJournalAt := Some(entry.timestamp)));
      CommitPast(w1, store1);
      PastPast(w, w1, Commit(w1, store1).world, 1, 1);
      Shift(w, w1, 1, 0);
    }
  }

  lemma Shift(w: World, w': World, n: nat, j: nat)
    requires Past(w, w', n)
    ensures FaultAt(w', j) == FaultAt(w, n + j) && w'.history.lost == w.history.lost
  {
    hide FaultAt;
  }

  lemma TouchPast(w: World)
    ensures var r := Touch(w); Past(w, r.world, 1) && (r.Done? <==> FaultAt(w, 0).Fine?) && r.world.store == w.store
  {
    ElapsePast(w);
    hide FaultAt, Past;
  }

  lemma MarkPast(w: World, a: Approval, k: string)
    requires SafeId(a.id) == Some(k)
    ensures var r := MarkUsed(w, Some(a));
      && Past(w, r.world, 1) && (r.Done? <==> FaultAt(w, 0).Fine?)
      && r.world.store == if FaultAt(w, 0).ThrowsBefore? then w.store
                          else w.store.(approvals := w.store.approvals[k := a.(usedAt := Some(w.now))])
  {
    hide FaultAt, SafeId, Past, Commit;
    CommitPast(w, w.store.(approvals := w.store.approvals[k := a.(usedAt := Some(w.now))]));
  }

  function ApprovalKey(approval: Option<Approval>): Option<string> {
    if approval.Some? then SafeId(approval.value.id) else None
  }

  /** An attempt is about to be made on an open record, with or without an approval. */
  ghost predicate Ready(w: World, i: Intention, runtime: Runtime, approval: Option<Approval>, key: string) {
    && SafeId(i.id) == Some(key) && runtime.openOrders == w.store.runtime.openOrders
    && !w.store.killSwitch.latched && !Closed(w.store, key)
    && (approval.Some? ==> ApprovalKey(approval).Some?)
  }

  /** How the attempt ends: at its first fault, with the writes that took effect before it. */
  ghost predicate Ends(w: World, r: Outcome<TickStatus>, key: string, approval: Option<Approval>) {
    var n := FirstFault(w, 0);
    && (r.Done? <==> n == ATTEMPT_IOS || (n == APPROVAL_IO && approval.None?))
    && (if r.Threw? then Past(w, r.world, n + 1) else r.world.history.lost == w.history.lost)
    && Stands(w.store, r.world.store, key, ApprovalKey(approval),
              TakesEffect(w, RECORD_IO), TakesEffect(w, RUNTIME_IO), TakesEffect(w, APPROVAL_IO))
  }

  lemma TryLiveEnds(w: World, i: Intention, runtime: Runtime, s: Snapshot, approval: Option<Approval>, gateAt: int,
                    key: string)
    requires Ready(w, i, runtime, approval, key)
    ensures Ends(w, TryLive(w, i, runtime, s, approval, gateAt), key, approval)
  {
    hide FaultAt, SafeId, Past, PlaceLimitOrder, SaveIntention, WriteRuntime, AppendJournal, Touch, MarkUsed, CallOf,
      Take,
      ApprovalKey;
    var n := FirstFault(w, 0);
    PlacePast(w, i, s, approval, gateAt);
    var r1 := PlaceLimitOrder(w, i, s, approval, gateAt);
    if r1.Done? {
      var x := i.(status := Executed);
      SavePast(r1.world, x, key);
      Shift(w, r1.world, 1, 0);
      var r2 := SaveIntention(r1.world, x);
      PastPast(w, r1.world, r2.world, 1, 1);
      if r2.Done? {
        var runtime' := runtime.(openOrders := runtime.openOrders + [OpenOrder(r1.value, i.symbol, i.side)]);
        RuntimePast(r2.world, runtime');
        Shift(w, r2.world, 2, 0);
        var r3 := WriteRuntime(r2.world, runtime');
        PastPast(w, r2.world, r3.world, 2, 1);
        if r3.Done? { FinishEnds(w, r3.world, i, approval, key); }
      }
    }
  }

  /** The last four I/O, once record and order are written. */
  lemma FinishEnds(w: World, w3: World, i: Intention, approval: Option<Approval>, key: string)
    requires (approval.Some? ==> ApprovalKey(approval).Some?) && Past(w, w3, 3) && FirstFault(w, 0) >= 3
    requires Stands(w.store, w3.store, key, ApprovalKey(approval), true, true, false)
    ensures var r4 := AppendJournal(w3, LiveOrderEntry, Some(i.id));
      var r5 := Touch(r4.world);
      var r6 := MarkUsed(r5.world, approval);
      Ends(w, if r4.Threw? then Threw(r4.world) else if r5.Threw? then Threw(r5.world)
              else if r6.Threw? then Threw(r6.world) else Done(r6.world, LivePlaced(i.id)), key, approval)
  {
    hide FaultAt, SafeId, Past, AppendJournal, Touch, SaveApproval;
    JournalPast(w3, LiveOrderEntry, Some(i.id));
    Shift(w, w3, 3, 0);
    Shift(w, w3, 3, 1);
    var r4 := AppendJournal(w3, LiveOrderEntry, Some(i.id));
    PastPast(w, w3, r4.world, 3, if FaultAt(w, 3).Fine? then 2 else 1);
    if r4.Done? {
      TouchPast(r4.world);
      Shift(w, r4.world, 5, 0);
      var r5 := Touch(r4.world);
      PastPast(w, r4.world, r5.world, 5, 1);
      Shift(w, r5.world, 6, 0);
      if r5.Done? && approval.Some? {
        MarkPast(r5.world, approval.value, ApprovalKey(approval).value);
        var w6 := MarkUsed(r5.world, approval).world;
        PastPast(w, r5.world, w6, 6, 1);
        Shift(w, w6, 7, 0);
      }
    }
  }

  // ------------------------------------------------------------------ the catch

  /** The catch latches unless its first write is lost, and leaves everything else of the attempt as it was. */
  lemma LatchOutcome(w: World, cause: LatchCause, live: bool)
    requires !w.store.killSwitch.latched
    ensures var w' := LatchCritical(w, cause, live).world;
      && (w'.store.killSwitch.latched <==> !FaultAt(w, 0).ThrowsBefore?)
      && w'.store.intentions == w.store.intentions && w'.store.approvals == w.store.approvals
      && w'.store.runtime.openOrders == w.store.runtime.openOrders
      && w'.history.lost ==
         (if FaultAt(w, 0).ThrowsBefore? then NoteLoss(w.history, w.store, cause).lost else w.history.lost)
  {
    hide AppendJournal, NoteLoss, LatchKillSwitch, CancelAllOrders, AppendIncident, Touch, FaultAt;
    LatchWrite(w, cause);
    var r1 := LatchKillSwitch(w, cause);
    if r1.Done? {
      CancelLosesNothing(r1.world);
      var w2 := if live then CancelAllOrders(r1.world) else r1.world;
      var incident := Incident(live, cause, w2.now);
      IncidentLosesNothing(w2, incident);
      NoticeLosesNothing(AppendIncident(w2, incident).world, KillSwitchEntry, None);
    }
  }

  lemma LatchWrite(w: World, cause: LatchCause)
    requires !w.store.killSwitch.latched
    ensures var r := LatchKillSwitch(w, cause);
      && r.world.store == w.store.(killSwitch := r.world.store.killSwitch)
      && (r.world.store.killSwitch.latched <==> !FaultAt(w, 0).ThrowsBefore?) && (r.Done? ==> FaultAt(w, 0).Fine?)
      && r.world.history.lost ==
         (if FaultAt(w, 0).ThrowsBefore? then NoteLoss(w.history, w.store, cause).lost else w.history.lost)
  {
    LossIgnoresFaulted(w.history, w.store, cause, Elapse(w).history.faulted);
    hide NoteLoss;
  }

  lemma CancelLosesNothing(w: World)
    ensures CancelAllOrders(w).history.lost == w.history.lost && CancelAllOrders(w).store == w.store
  {
  }

  lemma NoticeLosesNothing(w: World, kind: JournalKind, id: Option<string>)
    ensures var r := AppendJournal(w, kind, id);
      && r.world.history.lost == w.history.lost && SameAttempt(w.store, r.world.store)
      && Touch(r.world).world.history.lost == w.history.lost && Touch(r.world).world.store == r.world.store
  {
    hide AppendJournal, Touch, FaultAt;
    JournalPast(w, kind, id);
    TouchPast(AppendJournal(w, kind, id).world);
  }

  lemma IncidentLosesNothing(w: World, incident: Incident)
    ensures var r := AppendIncident(w, incident);
      r.world.history.lost == w.history.lost && SameAttempt(w.store, r.world.store)
  {
    hide Commit, FaultAt;
    CommitPast(w, w.store.(incidents := w.store.incidents + [incident]));
  }

  /**
   A live attempt leaves its record open, its order unrecorded or its approval unused, with trading not latched,
   exactly when an exception came before that write took effect and the write of the latch was lost.
   */
  lemma LiveAttemptLeavesIff(w: World, i: Intention, runtime: Runtime, s: Snapshot, approval: Option<Approval>,
                             gateAt: int, key: string)
    requires Ready(w, i, runtime, approval, key)
    ensures var st := ExecuteLive(w, i, runtime, s, approval, gateAt).world.store;
      && (!st.killSwitch.latched && !Closed(st, key) <==> LeftUndone(w, RECORD_IO))
      && (LeftUndone(w, RECORD_IO) ==> st.intentions == w.store.intentions)
      && (!st.killSwitch.latched && |st.runtime.openOrders| <= |w.store.runtime.openOrders| <==>
        LeftUndone(w, RUNTIME_IO))
      && (approval.Some? && !Spent(w.store, ApprovalKey(approval).value) ==>
            (!st.killSwitch.latched && !Spent(st, ApprovalKey(approval).value) <==> LeftUndone(w, APPROVAL_IO)))
  {
    hide FaultAt, SafeId, TryLive, LatchCritical, ApprovalKey;
    TryLiveEnds(w, i, runtime, s, approval, gateAt, key);
    var tried := TryLive(w, i, runtime, s, approval, gateAt);
    if tried.Threw? {
      LatchOutcome(tried.world, LiveOrderException, true);
      Shift(w, tried.world, FirstFault(w, 0) + 1, 0);
    }
  }

  /** The call carries what the losses are measured against. */
  ghost predicate Measured(w: World, call: Placement, approval: Option<Approval>, key: string) {
    && call.key == key && call.runtime == w.store.runtime
    && (call.approvalKey.Some? ==>
          approval.Some? && call.approvalKey == ApprovalKey(approval) && !Spent(w.store, call.approvalKey.value))
  }

  /** The history notes exactly what was left, under the keys it was left for: the run guarantees give up no more. */
  lemma LossNotedIff(w: World, i: Intention, runtime: Runtime, s: Snapshot, approval: Option<Approval>, gateAt: int,
                     key: string)
    requires Ready(w, i, runtime, approval, key) && Measured(w, CallOf(w, i, s, approval, gateAt), approval, key)
    ensures var before, after := w.history.lost, ExecuteLive(w, i, runtime, s, approval, gateAt).world.history.lost;
      var used := CallOf(w, i, s, approval, gateAt).approvalKey;
      && after.records == before.records + (if LeftUndone(w, RECORD_IO) then multiset{key} else multiset{})
      && after.orders == before.orders + (if LeftUndone(w, RUNTIME_IO) then 1 else 0)
      && after.approvals == before.approvals +
         (if used.Some? && LeftUndone(w, APPROVAL_IO) then multiset{used.value} else multiset{})
      && after.releases == before.releases
  {
    hide FaultAt, SafeId, TryLive, LatchCritical, ApprovalKey, CallOf;
    TryLiveEnds(w, i, runtime, s, approval, gateAt, key);
    TryLiveCalls(w, i, runtime, s, approval, gateAt);
    var tried := TryLive(w, i, runtime, s, approval, gateAt);
    if tried.Threw? {
      LatchOutcome(tried.world, LiveOrderException, true);
      Shift(w, tried.world, FirstFault(w, 0) + 1, 0);
    }
  }

  lemma OpenAtTheGate(w: World, i: Intention, p: Policy, runtime: Runtime, s: Snapshot, gateAt: int)
    requires InvCore(w) && Current(w, i) && GatePassed(w, p, runtime, s, gateAt)
    ensures SafeId(i.id).Some? && !Closed(w.store, SafeId(i.id).value) && !w.store.killSwitch.latched
    ensures runtime.openOrders == w.store.runtime.openOrders && KeysMatch(w.store)
  {
    hide SafeId, SafeSystem, KeysMatch, DatesValid, PolicyInForce, AllJustified, ApprovedOnce, Balanced, Capped,
      PaperOnly, Fresh, Backing, Provenance;
  }

  lemma CallUsesApproval(w: World, i: Intention, runtime: Runtime, s: Snapshot, approval: Option<Approval>, gateAt: int)
    requires LiveReady(w, i, runtime, s, approval, gateAt)
    ensures var call := CallOf(w, i, s, approval, gateAt);
      && (approval.Some? ==> ApprovalKey(approval).Some?)
      && (call.approvalKey.Some? ==> approval.Some? && call.approvalKey == ApprovalKey(approval))
  {
    hide SafeId, Books, KeysMatch, CallOf;
    if approval.Some? { ReadKey(w, i, approval); }
  }

  /** Every attempt of a tick is one of those described above. */
  lemma AttemptsAreReady(w: World, i: Intention, p: Policy, runtime: Runtime, s: Snapshot, approval: Option<Approval>,
                         gateAt: int)
    requires Inv(w) && Current(w, i) && GatePassed(w, p, runtime, s, gateAt) && ApprovalRead(w, i, approval)
    requires i.mode.Live? && IntentionReasons(i, approval, p, s, w.now) == []
    ensures SafeId(i.id).Some? && Ready(w, i, runtime, approval, SafeId(i.id).value)
    ensures Measured(w, CallOf(w, i, s, approval, gateAt), approval, SafeId(i.id).value)
  {
    CoreOf(w);
    hide Inv, InvCore, SafeId, IntentionReasons, SafeSystem, KeysMatch, PolicyInForce, ApprovedOnce, Balanced, Capped,
      OwnOrders, PlaceLimitOrder, Current, GatePassed, ApprovalRead, LiveReady, Spent, CallOf, ApprovalKey, PlacedWorld,
      OpenTurn, PolicyLoader.WithinBounds;
    OpenAtTheGate(w, i, p, runtime, s, gateAt);
    PlacingPreconditions(w, i, p, runtime, s, approval, gateAt);
    LiveStart(w, i, p, runtime, s, approval, gateAt);
    CallUsesApproval(w, i, runtime, s, approval, gateAt);
  }

  lemma LiveKeepsPolicy(w: World, i: Intention, runtime: Runtime, s: Snapshot, approval: Option<Approval>, gateAt: int)
    requires SafeId(i.id).Some?
    ensures ExecuteLive(w, i, runtime, s, approval, gateAt).world.store.policyState == w.store.policyState
  {
    hide SafeId, ExecuteLive, NoFaults;
    LiveJournals(w, i, runtime, s, approval, gateAt);
  }

  /** A record left open is sent again, under the same approval, as soon as its checks pass again. */
  lemma LostLatchRepeatsTheOrder(w: World, env: TickInput, p: Policy, i: Intention, runtime: Runtime, s: Snapshot,
                                 approval: Option<Approval>, gateAt: int, runtime': Runtime, s': Snapshot, gateAt': int)
    requires Current(w, i) && Ready(w, i, runtime, approval, SafeId(i.id).value) && LeftUndone(w, RECORD_IO)
    ensures var n, w1 := |w.history.placements|, ExecuteLive(w, i, runtime, s, approval, gateAt).world;
      && Current(w1, i) && !w1.store.killSwitch.latched
      && (Sends(w1, i, p, s') ==>
            var ps := Act(w1, env, p, i, runtime', s', gateAt').world.history.placements;
            |ps| == n + 2 && ps[n].key == ps[n + 1].key && ps[n].approvalKey == ps[n + 1].approvalKey)
  {
    hide SafeId, ExecuteLive, Act, LeftUndone, ReadApproval, Sends, ApprovalKey;
    LiveAttemptLeavesIff(w, i, runtime, s, approval, gateAt, SafeId(i.id).value);
    LiveCalls(w, i, runtime, s, approval, gateAt);
    LiveKeepsPolicy(w, i, runtime, s, approval, gateAt);
    var w1 := ExecuteLive(w, i, runtime, s, approval, gateAt).world;
    ActSendsIff(w1, env, p, i, runtime', s', gateAt');
    SamePolicyRead(w1, i);
  }

  lemma SamePolicyRead(w: World, i: Intention)
    ensures ReadApproval(w, i.humanApprovalId).world.store == w.store
  {
    hide SafeId;
  }
}
