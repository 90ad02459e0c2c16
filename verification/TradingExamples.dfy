/** Concrete runs from a fresh store: the witnesses of what is reachable and of what fails. */
module TradingExamples {
  import opened Basics
  import opened JsStrings
  import opened TradingTypes
  import opened TradingSafety
  import opened StorageSpec
  import opened OpsSpec
  import opened TradingInvariant
  import opened TradingHistory
  import opened TradingCalls
  import opened TradingRuns
  import PolicyLoader

  // ------------------------------------------------------------------ one record, its approval and a calm market

  /** The default policy, but live: human approval is required. */
  const LIVE_POLICY := DEFAULT_POLICY.(mode := Live)

  /** The default policy, but live and without human approval for orders up to a thousand dollars. */
  const AUTONOMOUS := LIVE_POLICY.(live := LiveLimits(false, 1000.0))

  predicate Known(p: Policy) {
    p == LIVE_POLICY || p == DEFAULT_POLICY || p == AUTONOMOUS
  }

  function CalmMarket(t: int): map<string, Market> {
    map["BTC/USD" := Market(100.0, 1.0, t), "ETH/USD" := Market(100.0, 1.0, t)]
  }

  /** What the exchange shows at `t`. */
  function Calm(t: int): Snapshot {
    Snapshot(true, Online, CalmMarket(t), Some(1000.0), 0.0, 0.0, [], 0, [], false, 0)
  }

  function Env(t: int): TickInput {
    TickInput(Calm(t), false, Calm(t), "b")
  }

  function Raw(reference: Option<string>, expires: int): RawIntention {
    RawIntention(Some("a"), Some(Live), Some("BTC/USD"), false, None, Number(100.0), Number(1.0), Number(99.0), None,
                 None, Some(At(0)), Some(At(expires)), reference, Number(10.0), Number(15.0), Number(0.0025), false,
                 "x")
  }

  /** The record that staging makes of `Raw`, and its later forms. */
  function Record(status: Status, reference: Option<string>, expires: int, asks: bool): Intention {
    Intention("a", Live, status, "BTC/USD", Buy, 100.0, 1.0, 99.0, "unspecified", LIVE_POLICY.id, At(0), At(expires),
              asks, reference, 10.0, 15.0, 0.0025)
  }

  predicate IsRecord(i: Intention) {
    i.expiresAt.At? && i == Record(i.status, i.humanApprovalId, i.expiresAt.ms, i.requiresHumanApproval)
  }

  function Given(expires: int): Approval {
    Approval("b", "a", expires, None, "BTC/USD", Buy, 1.0, 100.0, 10.0, LIVE_POLICY.id, "unspecified", 1.0)
  }

  lemma Keys()
    ensures SafeId("a") == Some("a") && SafeId("b") == Some("b")
  {
    hide SafeId;
    SafeIdFixpoint("a");
    SafeIdFixpoint("b");
  }

  lemma ShortTextIsKept(s: string, fallback: string)
    requires 0 < |s| <= 500 && IsKeyChar(s[0]) && IsKeyChar(s[|s| - 1])
    ensures AsString(Some(s), fallback) == s && AsString(None, fallback) == fallback
  {
    hide IsSpace, IsKeyChar;
    KeyCharIsNoSpace(s[0]);
    KeyCharIsNoSpace(s[|s| - 1]);
    assert Trim(s) == s;
  }

  lemma Normalizes(p: Policy, reference: Option<string>, expires: int, t: int)
    requires p == LIVE_POLICY || p == AUTONOMOUS
    ensures NormalizeIntention(Raw(reference, expires), p, t) ==
            Record(Staged, reference, expires, p.live.requiresHumanApproval)
  {
    ShortTextIsKept("a", "x");
    ShortTextIsKept("BTC/USD", "");
    ShortTextIsKept("a", "unspecified");
    ShortTextIsKept("a", LIVE_POLICY.id);
    hide AsString;
  }

  function Loaded(p: Policy): LoadedPolicy {
    LoadedPolicy(p, ProjectFile, true, {})
  }

  lemma IsAccepted(p: Policy, reference: Option<string>, expires: int, t: int)
    requires (p == LIVE_POLICY || p == AUTONOMOUS) && t < expires
    ensures var i := Record(Staged, reference, expires, p.live.requiresHumanApproval);
      StageReasons(Raw(reference, expires), i, Loaded(p), t) == []
  {
    assert LIVE_POLICY.allowedSymbols[0] == "BTC/USD";
  }

  lemma FieldsPass(p: Policy, i: Intention, t: int)
    requires Known(p) && IsRecord(i)
    requires Executable(i) && i.createdAt.At? && i.expiresAt.After(t)
    ensures FieldReasons(i, p, t) == []
  {
    assert LIVE_POLICY.allowedSymbols[0] == "BTC/USD";
  }

  lemma CalmMarketHas(t: int)
    ensures "BTC/USD" in CalmMarket(t) && CalmMarket(t)["BTC/USD"] == Market(100.0, 1.0, t)
    ensures "ETH/USD" in CalmMarket(t) && CalmMarket(t)["ETH/USD"] == Market(100.0, 1.0, t)
  {
    assert "BTC/USD"[0] != "ETH/USD"[0];
  }

  lemma MarketPasses(p: Policy, i: Intention, t: int)
    requires Known(p) && IsRecord(i)
    ensures MarketAndRiskReasons(i, p, Calm(t), t) == [] && EstimateRiskAmount(i, Calm(t)) == 1.0
  {
    CalmMarketHas(t);
    hide CalmMarket;
    assert EstimateRiskAmount(i, Calm(t)) == 1.0;
  }

  lemma ApprovalPasses(status: Status, expires: int, until: int, t: int)
    requires t < until
    ensures ApprovalReasons(Record(status, Some("b"), expires, true), Some(Given(until)), Calm(t), t) == []
  {
    CalmMarketHas(t);
    MarketPasses(LIVE_POLICY, Record(status, Some("b"), expires, true), t);
    hide CalmMarket, EstimateRiskAmount;
  }

  /** The checks let the record through at `t`, in the calm market of that time. */
  ghost predicate Passing(p: Policy, i: Intention, approval: Option<Approval>, t: int) {
    IntentionReasons(i, approval, p, Calm(t), t) == [] && i.expiresAt.After(t)
  }

  lemma HumanPasses(p: Policy, status: Status, expires: int, until: int, t: int)
    requires (p == LIVE_POLICY || p == DEFAULT_POLICY) && (status.Staged? || status.Approved?)
    requires t < expires && t < until
    ensures Passing(p, Record(status, Some("b"), expires, true), Some(Given(until)), t)
  {
    hide FieldReasons, MarketAndRiskReasons, ApprovalReasons, Calm, Given, EstimateRiskAmount;
    var i := Record(status, Some("b"), expires, true);
    FieldsPass(p, i, t);
    MarketPasses(p, i, t);
    ApprovalPasses(status, expires, until, t);
    NoNotionalCap(p, i);
    hide AutonomousReasons;
  }

  lemma AutonomousPasses(expires: int, t: int)
    requires t < expires
    ensures Passing(AUTONOMOUS, Record(Staged, None, expires, false), None, t)
  {
    hide FieldReasons, MarketAndRiskReasons, ApprovalReasons, Calm, Given, EstimateRiskAmount;
    var i := Record(Staged, None, expires, false);
    FieldsPass(AUTONOMOUS, i, t);
    MarketPasses(AUTONOMOUS, i, t);
    NoNotionalCap(AUTONOMOUS, i);
    hide AutonomousReasons;
  }

  lemma NoNotionalCap(p: Policy, i: Intention)
    requires Known(p) && i.limitPrice == 100.0 && i.quantity == 1.0
    ensures AutonomousReasons(i, p) == []
  {
  }

  lemma AsksForApproval(expires: int, t: int)
    ensures var reasons := IntentionReasons(Record(Staged, None, expires, true), None, LIVE_POLICY, Calm(t), t);
      reasons != [] && ApprovalMissing in reasons
  {
    hide FieldReasons, MarketAndRiskReasons, AutonomousReasons;
    var i := Record(Staged, None, expires, true);
    assert ApprovalReasons(i, None, Calm(t), t) == [ApprovalMissing];
    assert i.mode.Live? && LIVE_POLICY.live.requiresHumanApproval;
  }

  lemma RequestsGiven(expires: int, at: int, t: int)
    ensures NewApproval(Record(Staged, None, expires, true), LIVE_POLICY, Calm(at), "b", t) ==
            Given(t + APPROVAL_TTL_MS)
  {
    MarketPasses(LIVE_POLICY, Record(Staged, None, expires, true), at);
    hide CalmMarket, EstimateRiskAmount, MarketAndRiskReasons;
  }

  lemma CalmIsSafe(p: Policy, r: Runtime, t: int)
    requires Known(p)
    ensures SystemReasons(p, r, Calm(t), t) == []
  {
    CalmMarketHas(t);
    hide CalmMarket;
    assert p.allowedSymbols == ["BTC/USD", "ETH/USD"];
    assert FreshMarkets(p.allowedSymbols, p, Calm(t), t);
    SystemSafetyMeaning(p, r, Calm(t), t);
    hide SystemReasons;
  }

  // ------------------------------------------------------------------ I/O without faults or delay

  const FINE := Io(Fine, 0)
  const LOSS := Io(ThrowsBefore, 0)

  function Fines(n: nat): (r: seq<Io>)
    ensures |r| == n && forall j :: 0 <= j < n ==> r[j] == FINE
  {
    if n == 0 then [] else [FINE] + Fines(n - 1)
  }

  predicate Smooth(script: seq<Io>, n: nat) {
    forall j :: 0 <= j < n && j < |script| ==> script[j] == FINE
  }

  function Rest(script: seq<Io>, n: nat): seq<Io> {
    if n <= |script| then script[n..] else []
  }

  /** `w` after `n` smooth I/O that led to the store `st`. */
  function On(w: World, st: Store, n: nat): World {
    w.(store := st, script := Rest(w.script, n))
  }

  lemma OnOn(w: World, st: Store, st': Store, n: nat, m: nat)
    ensures On(On(w, st, n), st', m) == On(w, st', n + m)
    ensures Smooth(w.script, n + m) ==> Smooth(On(w, st, n).script, m)
  {
  }

  lemma SmoothCommit(w: World, st: Store)
    requires Smooth(w.script, 1)
    ensures Commit(w, st) == Done(On(w, st, 1), ()) && Touch(w) == Done(On(w, w.store, 1), ())
  {
    assert NextFault(w).Fine?;
    assert Elapse(w) == w.(script := Rest(w.script, 1));
  }

  function Journaled(st: Store, now: int, kind: JournalKind, id: Option<string>): Store {
    st.(journal := st.journal + [JournalEntry(kind, id, now)], runtime := st.runtime.(lastJournalAt := Some(now)))
  }

  lemma SmoothAppend(w: World, kind: JournalKind, id: Option<string>)
    requires Smooth(w.script, 2)
    ensures AppendJournal(w, kind, id) == Done(On(w, Journaled(w.store, w.now, kind, id), 2), ())
  {
    var st := w.store.(journal := w.store.journal + [JournalEntry(kind, id, w.now)]);
    SmoothCommit(w, st);
    var w1 := On(w, st, 1);
    OnOn(w, st, Journaled(w.store, w.now, kind, id), 1, 1);
    SmoothCommit(w1, Journaled(w.store, w.now, kind, id));
    hide Commit;
  }

  lemma SmoothSave(w: World, i: Intention)
    requires Smooth(w.script, 1) && i.id == "a"
    ensures SaveIntention(w, i) == Done(On(w, w.store.(intentions := w.store.intentions["a" := i]), 1), ())
  {
    hide SafeId;
    Keys();
    SmoothCommit(w, w.store.(intentions := w.store.intentions["a" := i]));
    hide Commit;
  }

  lemma SmoothSnapshot(w: World, t: int)
    requires Smooth(w.script, 1) && w.store.runtime.openOrders == []
    ensures GetRuntimeSnapshot(w, Calm(t)) == Done(On(w, w.store, 1), Calm(t))
  {
    SmoothCommit(w, w.store);
    hide Touch, CalmMarket;
  }

  lemma SmoothRelease(w: World)
    requires Smooth(w.script, 1) && w.store.lock.Some?
    ensures ReleaseLock(w) == Done(On(w, w.store.(lock := Some(Lock(0))), 1), ())
  {
    assert NextFault(w).Fine?;
    SmoothCommit(w, w.store.(lock := Some(Lock(0))));
    hide Commit;
  }

  lemma SmoothFault(w: World)
    requires Smooth(w.script, 1)
    ensures NextFault(w).Fine?
  {
  }

  lemma SmoothFewer(script: seq<Io>, n: nat, m: nat)
    requires Smooth(script, n) && m <= n
    ensures Smooth(script, m)
  {
  }

  lemma SmoothNothing(n: nat)
    ensures Smooth([], n)
  {
  }

  lemma OnFields(w: World, st: Store, n: nat)
    ensures On(w, st, n).store == st && On(w, st, n).now == w.now && On(w, st, n).history == w.history
    ensures On(w, st, n).script == Rest(w.script, n)
  {
  }

  // ------------------------------------------------------------------ staging

  function Staged1(w: World, i: Intention): World {
    On(w, Journaled(w.store.(intentions := w.store.intentions["a" := i]), w.now, IntentionStaged, Some("a")), 4)
  }

  lemma SmoothStage(w: World, p: Policy, reference: Option<string>, expires: int)
    requires Smooth(w.script, 4) && w.store.policyState == Loaded(p) && w.now < expires
    requires p == LIVE_POLICY || p == AUTONOMOUS
    ensures var w' := Staged1(w, Record(Staged, reference, expires, p.live.requiresHumanApproval));
      StageIntention(w, Raw(reference, expires)).world == w'.(history := NoteStaging(w.history, "a", reference))
  {
    hide NormalizeIntention, StageReasons, SafeId, AppendJournal, Commit, Touch, Journaled, LIVE_POLICY, AUTONOMOUS,
      Raw, NoteStaging;
    var i := Record(Staged, reference, expires, p.live.requiresHumanApproval);
    Keys();
    Normalizes(p, reference, expires, w.now);
    IsAccepted(p, reference, expires, w.now);
    SmoothCommit(w, w.store);
    var w0 := On(w, w.store, 1);
    OnOn(w, w.store, w.store, 1, 3);
    var st := w.store.(intentions := w.store.intentions["a" := i]);
    SmoothSave(w0, i);
    SmoothFault(w0);
    OnOn(w, w.store, st, 1, 1);
    var w1 := On(w, st, 2).(history := NoteStaging(w.history, "a", reference));
    assert SaveStaged(w0, i) == Done(w1, ());
    OnOn(w, st, st, 2, 2);
    SmoothAppend(w1, IntentionStaged, Some("a"));
    OnOn(w, st, Journaled(st, w.now, IntentionStaged, Some("a")), 2, 2);
  }

  // ------------------------------------------------------------------ one tick up to its action

  /** Between two ticks: one record, at most one approval, trading possible and nothing recorded as sent. */
  ghost predicate Holds(w: World, p: Policy, i: Intention, approval: Option<Approval>) {
    && w.now >= 0 && w.store.policyState.valid && w.store.policyState.policy == p && Known(p)
    && w.store.killSwitch == DEFAULT_KILL_SWITCH && (w.store.lock == None || w.store.lock == Some(Lock(0)))
    && w.store.runtime.openOrders == [] && w.store.intentions == map["a" := i] && i.id == "a"
    && w.store.approvals == if approval.Some? then map["b" := approval.value] else map[]
  }

  /** The store in which the tick that begins in `st` acts. */
  function Acting(st: Store, t: int): Store {
    st.(lock := Some(Lock(t + LOCK_TTL_MS)), runtime := st.runtime.(lastCronAt := Some(t)))
  }

  /** Where its action begins. */
  function Begun(w: World): World {
    On(w, Acting(w.store, w.now), 8)
  }

  /** Catch and finally. */
  function Finish(body: Outcome<TickStatus>): Outcome<TickStatus> {
    var guarded := if body.Done? then body else JournalAnd(body.world, ErrorEntry, CronError);
    var (w1, _) :- ReleaseLock(guarded.world);
    if guarded.Done? then Done(w1, guarded.value) else Threw(w1)
  }

  lemma ListingOne(i: Intention)
    ensures Listing(map["a" := i], map["a" := i].Keys) == [i]
  {
    var m := map["a" := i];
    assert m.Keys == {"a"};
    assert FirstKey({"a"}) == "a" && {"a"} - {"a"} == {};
    assert Listing(m, {}) == [];
  }

  lemma SelectsOne(i: Intention, t: int)
    requires Executable(i) && i.createdAt.At? && i.expiresAt.After(t)
    ensures SelectNext([i], t) == Some(i)
  {
    assert FirstOldest([i], 0, t);
    SelectsFirstOldest([i], 0, t);
  }

  lemma SmoothList(w: World, i: Intention)
    requires Smooth(w.script, 1) && w.store.intentions == map["a" := i]
    ensures ListIntentions(w) == Done(On(w, w.store, 1), [i])
  {
    hide Listing, Touch;
    SmoothCommit(w, w.store);
    ListingOne(i);
  }

  lemma SmoothSweep(w: World, i: Intention)
    requires Smooth(w.script, 1) && i.id == "a" && w.store.intentions == map["a" := i] && i.expiresAt.After(w.now)
    ensures Sweep(w, RejectExpired([i], w.now)) == Done(On(w, w.store, 1), ())
  {
    hide SafeId, Touch;
    Keys();
    SmoothCommit(w, w.store);
    assert RejectExpired([i], w.now) == [i];
    assert [i][1..] == [];
  }

  /** Listing, sweep and selection reach the record. */
  lemma SmoothExecute(w: World, env: TickInput, p: Policy, i: Intention, runtime: Runtime, s: Snapshot)
    requires Smooth(w.script, 3) && i.id == "a" && w.store.intentions == map["a" := i]
    requires Executable(i) && i.createdAt.At? && i.expiresAt.After(w.now)
    ensures SafeId(i.id).Some?
    ensures Execute(w, env, p, runtime, s, w.now) == Act(On(w, w.store, 3), env, p, i, runtime, s, w.now)
  {
    hide ListIntentions, Sweep, SelectNext, Act, SafeId, RejectExpired, Smooth, On;
    Keys();
    OnOn(w, w.store, w.store, 1, 2);
    OnOn(w, w.store, w.store, 2, 1);
    SmoothFewer(w.script, 3, 1);
    SmoothList(w, i);
    OnFields(w, w.store, 1);
    var w1 := On(w, w.store, 1);
    SmoothFewer(w1.script, 2, 1);
    SmoothSweep(w1, i);
    OnOn(w, w.store, w.store, 1, 1);
    OnFields(w, w.store, 2);
    SmoothList(On(w, w.store, 2), i);
    OnFields(w, w.store, 3);
    SelectsOne(i, w.now);
  }

  lemma KnownIsEnabled(p: Policy)
    requires Known(p)
    ensures p.enabled
  {
  }

  /** Lock, runtime, snapshot, safety and reconciliation let the tick through to the record's action. */
  lemma TickReaches(w: World, p: Policy, i: Intention, approval: Option<Approval>)
    requires Smooth(w.script, 8) && Holds(w, p, i, approval)
    requires Executable(i) && i.createdAt.At? && i.expiresAt.After(w.now)
    ensures SafeId(i.id).Some?
    ensures RunMinuteCron(w, Env(w.now)) ==
            Finish(Act(Begun(w), Env(w.now), p, i, Acting(w.store, w.now).runtime, Calm(w.now), w.now))
  {
    hide SystemReasons, Execute, Act, JournalAnd, RefuseUnsafe, ReleaseLock, Known, Calm, Env, Commit, Touch,
      GetRuntimeSnapshot, IsCritical, Smooth, On, SafeId;
    Keys();
    var st1 := w.store.(lock := Some(Lock(w.now + LOCK_TTL_MS)));
    SmoothFewer(w.script, 8, 1);
    SmoothCommit(w, w.store);
    OnFields(w, w.store, 1);
    OnOn(w, w.store, st1, 1, 7);
    SmoothFewer(On(w, w.store, 1).script, 7, 1);
    SmoothCommit(On(w, w.store, 1), st1);
    OnOn(w, w.store, st1, 1, 1);
    OnFields(w, st1, 2);
    var w1 := On(w, st1, 2);
    ReachesGate(w, w1, p, i, approval, st1);
    hide TickBody;
  }

  /** Safety and reconciliation let the tick through. */
  lemma ReachesExecution(w: World, p: Policy, i: Intention, runtime: Runtime)
    requires Smooth(w.script, 4) && i.id == "a" && Executable(i) && i.createdAt.At? && Known(p)
    requires w.store.intentions == map["a" := i] && i.expiresAt.After(w.now)
    ensures SafeId(i.id).Some?
    ensures Gated(w, Env(w.now), p, runtime, Calm(w.now)) ==
            Act(On(w, w.store, 4), Env(w.now), p, i, runtime, Calm(w.now), w.now)
  {
    hide SystemReasons, Execute, Act, JournalAnd, RefuseUnsafe, Known, Calm, Commit, Touch,
      IsCritical, Smooth, On, SafeId;
    CalmIsSafe(p, runtime, w.now);
    SmoothFewer(w.script, 4, 1);
    SmoothCommit(w, w.store);
    OnFields(w, w.store, 1);
    OnOn(w, w.store, w.store, 1, 3);
    SmoothExecute(On(w, w.store, 1), Env(w.now), p, i, runtime, Calm(w.now));
  }

  lemma ReachesGate(w: World, w1: World, p: Policy, i: Intention, approval: Option<Approval>, st1: Store)
    requires Smooth(w.script, 8) && Holds(w, p, i, approval)
    requires Executable(i) && i.createdAt.At? && i.expiresAt.After(w.now)
    requires st1 == w.store.(lock := Some(Lock(w.now + LOCK_TTL_MS))) && w1 == On(w, st1, 2)
    ensures SafeId(i.id).Some?
    ensures TickBody(w1, Env(w.now)) ==
            Act(Begun(w), Env(w.now), p, i, Acting(w.store, w.now).runtime, Calm(w.now), w.now)
  {
    hide SystemReasons, Gated, Act, JournalAnd, Known, Calm, Commit, Touch, GetRuntimeSnapshot, Smooth, On, SafeId;
    var st2 := Acting(w.store, w.now);
    OnFields(w, st1, 2);
    OnOn(w, st1, st2, 2, 6);
    SmoothFewer(w1.script, 6, 1);
    SmoothCommit(w1, st2);
    OnOn(w, st1, st2, 2, 1);
    OnFields(w, st2, 3);
    OnOn(w, st2, st2, 3, 5);
    var w2 := On(w, st2, 3);
    SmoothFewer(w2.script, 5, 1);
    SmoothSnapshot(w2, w.now);
    OnOn(w, st2, st2, 3, 1);
    OnFields(w, st2, 4);
    KnownIsEnabled(p);
    OnOn(w, st2, st2, 4, 4);
    ReachesExecution(On(w, st2, 4), p, i, st2.runtime);
  }

  // ------------------------------------------------------------------ asking for the approval

  /** How long the tick takes to read the snapshot of its request. */
  const READ_MS := 1000
  const SLOW := Io(Fine, READ_MS)

  /** `w` after one slow read. */
  function Later(w: World): World {
    w.(now := w.now + READ_MS, script := Rest(w.script, 1))
  }

  lemma SlowSnapshot(w: World, t: int)
    requires w.script != [] && w.script[0] == SLOW && w.store.runtime.openOrders == []
    ensures GetRuntimeSnapshot(w, Calm(t)) == Done(Later(w), Calm(t))
  {
    hide CalmMarket;
    assert Touch(w) == Done(Later(w), ());
    hide Touch;
  }

  /** The store once approval has been requested for the record. */
  function Asked(st: Store, t: int, expires: int): Store {
    Journaled(st.(approvals := st.approvals["b" := Given(t + APPROVAL_TTL_MS)],
                  intentions := st.intentions["a" := Record(ApprovalRequested, Some("b"), expires, true)]),
              t, ApprovalRequestedEntry, Some("a"))
  }

  lemma SmoothNewApproval(w: World, a: Approval)
    requires Smooth(w.script, 1) && "b" !in w.store.approvals && a.id == "b"
    ensures SaveNewApproval(w, a) == Done(On(w, w.store.(approvals := w.store.approvals["b" := a]), 1), ())
  {
    hide SafeId;
    Keys();
    SmoothCommit(w, w.store.(approvals := w.store.approvals["b" := a]));
    assert w.history.reused + multiset{} == w.history.reused;
    hide Commit;
  }

  lemma SmoothRequest(w: World, at: int, expires: int)
    requires w.script != [] && w.script[0] == SLOW && Smooth(Rest(w.script, 1), 5)
    requires w.store.runtime.openOrders == [] && "b" !in w.store.approvals
    ensures var r := RequestApproval(w, Env(at), Record(Staged, None, expires, true), LIVE_POLICY);
      r == Done(On(Later(w), Asked(w.store, w.now + READ_MS, expires), 5), RequestedApproval("a"))
  {
    hide GetRuntimeSnapshot, SaveNewApproval, SaveIntention, AppendJournal, Touch, Smooth, On, Calm, LIVE_POLICY,
      NewApproval, Journaled, Commit, Rest;
    SlowSnapshot(w, at);
    var w1 := Later(w);
    var given := Given(w1.now + APPROVAL_TTL_MS);
    var st1 := w1.store.(approvals := w1.store.approvals["b" := given]);
    var asked := Record(ApprovalRequested, Some("b"), expires, true);
    var st2 := st1.(intentions := st1.intentions["a" := asked]);
    var st3 := Asked(w.store, w1.now, expires);
    RequestsGiven(expires, at, w1.now);
    SmoothFewer(w1.script, 5, 1);
    SmoothNewApproval(w1, given);
    OnFields(w1, st1, 1);
    OnOn(w1, st1, st2, 1, 4);
    var w2 := On(w1, st1, 1);
    SmoothFewer(w2.script, 4, 1);
    SmoothSave(w2, asked);
    OnOn(w1, st1, st2, 1, 1);
    OnFields(w1, st2, 2);
    OnOn(w1, st2, st3, 2, 3);
    var w3 := On(w1, st2, 2);
    SmoothFewer(w3.script, 3, 2);
    SmoothAppend(w3, ApprovalRequestedEntry, Some("a"));
    OnOn(w1, st2, st3, 2, 2);
    OnFields(w1, st3, 4);
    OnOn(w1, st3, st3, 4, 1);
    SmoothCommit(On(w1, st3, 4), st3);
  }

  /** Eight smooth I/O up to the request, a slow one, five smooth ones in it, and the release. */
  predicate RequestScript(script: seq<Io>) {
    |script| >= 9 && Smooth(script, 8) && script[8] == SLOW && Smooth(Rest(script, 9), 6)
  }

  lemma RequestScriptParts(script: seq<Io>)
    requires RequestScript(script)
    ensures var r := Rest(script, 8);
      r != [] && r[0] == SLOW && Smooth(Rest(r, 1), 5) && Smooth(Rest(Rest(r, 1), 5), 1)
    ensures Rest(Rest(Rest(Rest(script, 8), 1), 5), 1) == Rest(script, 15)
  {
  }

  /** A tick that took the staged record without a reference has asked for the approval `b`. */
  lemma RequestTick(w: World, expires: int)
    requires RequestScript(w.script) && Holds(w, LIVE_POLICY, Record(Staged, None, expires, true), None)
    requires w.now < expires
    ensures var w' := RunMinuteCron(w, Env(w.now)).world;
      && w'.now == w.now + READ_MS && w'.script == Rest(w.script, 15) && w'.history == w.history
      && w'.store.policyState == w.store.policyState
      && Holds(w', LIVE_POLICY, Record(ApprovalRequested, Some("b"), expires, true),
               Some(Given(w.now + READ_MS + APPROVAL_TTL_MS)))
  {
    hide IntentionReasons, RequestApproval, ReleaseLock, Smooth, On, Calm, Env, RunMinuteCron, Touch, Given, SafeId,
      Rest, Known;
    var i := Record(Staged, None, expires, true);
    assert Smooth(w.script, 8);
    RequestScriptParts(w.script);
    TickReaches(w, LIVE_POLICY, i, None);
    AsksForApproval(expires, w.now);
    var st, st' := Acting(w.store, w.now), Asked(Acting(w.store, w.now), w.now + READ_MS, expires);
    OnFields(w, st, 8);
    SmoothRequest(Begun(w), w.now, expires);
    var w1 := Later(Begun(w));
    OnFields(w1, st', 5);
    SmoothRelease(On(w1, st', 5));
    OnOn(w1, st', st'.(lock := Some(Lock(0))), 5, 1);
    OnFields(w1, st'.(lock := Some(Lock(0))), 6);
    RestRest(w1.script, 5, 1);
    assert RunMinuteCron(w, Env(w.now)).world == On(w1, st'.(lock := Some(Lock(0))), 6) by { hide Asked; }
    AskedHolds(w, st', expires);
  }

  lemma AskedHolds(w: World, st: Store, expires: int)
    requires Holds(w, LIVE_POLICY, Record(Staged, None, expires, true), None)
    requires st == Asked(Acting(w.store, w.now), w.now + READ_MS, expires)
    ensures forall w': World :: w'.store == st.(lock := Some(Lock(0))) && w'.now == w.now + READ_MS ==>
      Holds(w', LIVE_POLICY, Record(ApprovalRequested, Some("b"), expires, true),
            Some(Given(w.now + READ_MS + APPROVAL_TTL_MS)))
  {
    hide Known, Given;
    assert w.store.intentions["a" := Record(ApprovalRequested, Some("b"), expires, true)] ==
      map["a" := Record(ApprovalRequested, Some("b"), expires, true)];
  }

  // ------------------------------------------------------------------ what the live action does

  /** The record may be sent under `p`, with the approval `b` behind it where one is required. */
  ghost predicate Backed(p: Policy, i: Intention, approval: Option<Approval>) {
    && Executable(i) && i.createdAt.At? && i.mode.Live? && i.id == "a"
    && i.humanApprovalId == Used(approval) && (p.live.requiresHumanApproval <==> approval.Some?)
  }

  function Used(approval: Option<Approval>): Option<string> {
    if approval.Some? then Some("b") else None
  }

  /** The I/O before the attempt. */
  function Before(approval: Option<Approval>): nat {
    if approval.Some? then 9 else 8
  }

  /** The record reaches the live branch. */
  lemma ReachesLive(w: World, env: TickInput, p: Policy, i: Intention, approval: Option<Approval>, runtime: Runtime,
                    s: Snapshot)
    requires Backed(p, i, approval) && (approval.Some? ==> Smooth(w.script, 1) && w.store.approvals == map["b" :=
      approval.value])
    requires IntentionReasons(i, approval, p, s, w.now) == []
    ensures SafeId(i.id).Some?
    ensures Act(w, env, p, i, runtime, s, w.now) ==
            ExecuteLive(if approval.Some? then On(w, w.store, 1) else w, i, runtime, s, approval, w.now)
  {
    hide SafeId, IntentionReasons, ExecuteLive, Touch, On, Smooth;
    Keys();
    if approval.Some? {
      SmoothCommit(w, w.store);
      OnFields(w, w.store, 1);
    }
  }

  /** One more order, for the record `a`. */
  ghost predicate OneMore(h: History, h': History, used: Option<string>) {
    && |h'.placements| == |h.placements| + 1 && h'.placements[..|h.placements|] == h.placements
    && h'.placements[|h.placements|].key == "a" && h'.placements[|h.placements|].approvalKey == used
  }

  /** What an attempt adds to the history, apart from faults and losses. */
  ghost predicate Sent(h: History, h': History, used: Option<string>) {
    && OneMore(h, h', used) && h'.stagings == h.stagings && h'.reused == h.reused
    && h'.foreignSnapshot == h.foreignSnapshot && h'.sawPaper == h.sawPaper
  }

  lemma CallBacked(w: World, i: Intention, approval: Option<Approval>, s: Snapshot)
    requires Backed(w.store.policyState.policy, i, approval)
    ensures SafeId(i.id).Some?
    ensures var call := CallOf(w, i, s, approval, w.now);
      && call.key == "a" && call.approvalKey == Used(approval) && call.policyState == w.store.policyState
  {
    hide SafeId;
    Keys();
  }

  lemma LatchIsLost(w: World)
    requires w.script != [] && w.script[0] == LOSS
    ensures var r := LatchCritical(w, LiveOrderException, true);
      && r.Threw? && r.world.store == w.store && r.world.script == w.script[1..] && r.world.now == w.now
      && r.world.history == w.history.(faulted := true, lost := r.world.history.lost)
  {
    hide CancelAllOrders, AppendIncident, AppendJournal, Touch, NoteLoss, Latched;
  }

  /** Order call and latch both lost. */
  lemma LostCall(w: World, i: Intention, approval: Option<Approval>, runtime: Runtime, s: Snapshot)
    requires |w.script| >= 2 && w.script[0] == LOSS && w.script[1] == LOSS
    requires Backed(w.store.policyState.policy, i, approval) && SafeId(i.id).Some?
    ensures var r := ExecuteLive(w, i, runtime, s, approval, w.now);
      && r.Threw? && r.world.store == w.store && r.world.script == w.script[2..] && r.world.now == w.now
      && Sent(w.history, r.world.history, Used(approval))
  {
    hide SafeId, SaveIntention, WriteRuntime, AppendJournal, Touch, MarkUsed, CallOf, Take, LatchCritical;
    CallBacked(w, i, approval, s);
    var r1 := PlaceLimitOrder(w, i, s, approval, w.now);
    assert r1.Threw? && r1.world.script == w.script[1..];
    LatchIsLost(r1.world);
    assert w.script[1..][1..] == w.script[2..];
  }

  /** Order sent and record closed; then the runtime and the latch are lost. */
  lemma LostRuntime(w: World, i: Intention, approval: Option<Approval>, runtime: Runtime, s: Snapshot)
    requires |w.script| >= 4 && w.script[0] == FINE && w.script[1] == FINE && w.script[2] == LOSS && w.script[3] == LOSS
    requires Backed(w.store.policyState.policy, i, approval) && SafeId(i.id).Some?
    ensures var r := ExecuteLive(w, i, runtime, s, approval, w.now);
      && r.Threw? && r.world.script == w.script[4..] && r.world.now == w.now
      && Sent(w.history, r.world.history, Used(approval))
      && r.world.store == w.store.(intentions := w.store.intentions["a" := i.(status := Executed)])
  {
    hide SafeId, AppendJournal, Touch, MarkUsed, CallOf, Take, LatchCritical;
    CallBacked(w, i, approval, s);
    Keys();
    var r1 := PlaceLimitOrder(w, i, s, approval, w.now);
    assert r1.Done? && r1.world.script == w.script[1..];
    SmoothSave(r1.world, i.(status := Executed));
    var r2 := SaveIntention(r1.world, i.(status := Executed));
    assert r2.Done? && r2.world.script == w.script[2..] by { hide SaveIntention; }
    hide SaveIntention;
    var runtime' := runtime.(openOrders := runtime.openOrders + [OpenOrder(r1.value, i.symbol, i.side)]);
    var r3 := WriteRuntime(r2.world, runtime');
    assert r3.Threw? && r3.world.store == r2.world.store && r3.world.script == w.script[3..];
    hide WriteRuntime, PlaceLimitOrder;
    LatchIsLost(r3.world);
  }

  // ------------------------------------------------------------------ the whole tick of a live record

  /** A tick whose attempt and latch were lost ends as an error and frees its lock. */
  lemma FinishLost(w: World)
    requires Smooth(w.script, 3) && w.store.lock.Some?
    ensures var r := Finish(Threw(w));
      && r == Done(On(w, Journaled(w.store, w.now, ErrorEntry, None).(lock := Some(Lock(0))), 3), CronError)
  {
    hide AppendJournal, ReleaseLock, Smooth, On, Journaled;
    var st := Journaled(w.store, w.now, ErrorEntry, None);
    SmoothFewer(w.script, 3, 2);
    SmoothAppend(w, ErrorEntry, None);
    OnOn(w, st, st, 2, 1);
    OnFields(w, st, 2);
    NotBlocked(w.store, w.now, ErrorEntry, None);
    SmoothRelease(On(w, st, 2));
    OnOn(w, st, st.(lock := Some(Lock(0))), 2, 1);
  }

  lemma NotBlocked(st: Store, now: int, kind: JournalKind, id: Option<string>)
    ensures Journaled(st, now, kind, id).lock == st.lock
    ensures var st' := Journaled(st, now, kind, id).(lock := Some(Lock(0)));
      && st'.policyState == st.policyState && st'.killSwitch == st.killSwitch && st'.intentions == st.intentions
      && st'.approvals == st.approvals && st'.runtime.openOrders == st.runtime.openOrders && st'.lock == Some(Lock(0))
  {
  }

  lemma ActingFields(st: Store, t: int)
    ensures var st' := Acting(st, t);
      && st'.lock.Some? && st'.policyState == st.policyState && st'.killSwitch == st.killSwitch
      && st'.intentions == st.intentions && st'.approvals == st.approvals
      && st'.runtime.openOrders == st.runtime.openOrders
  {
  }

  /** The tick of a backed record is its attempt, with the catch and the finally around it. */
  lemma TickAttempts(w: World, p: Policy, i: Intention, approval: Option<Approval>)
    requires Holds(w, p, i, approval) && Backed(p, i, approval) && Passing(p, i, approval, w.now)
    requires Smooth(w.script, Before(approval))
    ensures SafeId(i.id).Some?
    ensures RunMinuteCron(w, Env(w.now)) ==
            Finish(ExecuteLive(On(w, Acting(w.store, w.now), Before(approval)), i, Acting(w.store, w.now).runtime,
                               Calm(w.now), approval, w.now))
  {
    hide Act, ExecuteLive, Finish, Smooth, Calm, Env, RunMinuteCron, On, SafeId, Known, IntentionReasons;
    Keys();
    var st := Acting(w.store, w.now);
    SmoothFewer(w.script, Before(approval), 8);
    TickReaches(w, p, i, approval);
    OnFields(w, st, 8);
    if approval.Some? { OnOn(w, st, st, 8, 1); }
    ReachesLive(Begun(w), Env(w.now), p, i, approval, st.runtime, Calm(w.now));
  }

  /** What the catch and the finally of a lost attempt leave. */
  lemma LostEnd(body: Outcome<TickStatus>)
    requires body.Threw? && Smooth(body.world.script, 3) && body.world.store.lock.Some?
    ensures var w, w' := body.world, Finish(body).world;
      && w'.now == w.now && w'.script == Rest(w.script, 3) && w'.history == w.history && w'.store.lock == Some(Lock(0))
      && w'.store.policyState == w.store.policyState && w'.store.killSwitch == w.store.killSwitch
      && w'.store.intentions == w.store.intentions && w'.store.approvals == w.store.approvals
      && w'.store.runtime.openOrders == w.store.runtime.openOrders
  {
    hide Finish, On, Smooth, Journaled, Rest;
    var w := body.world;
    FinishLost(w);
    NotBlocked(w.store, w.now, ErrorEntry, None);
    OnFields(w, Journaled(w.store, w.now, ErrorEntry, None).(lock := Some(Lock(0))), 3);
  }

  lemma RestSlices(script: seq<Io>, n: nat, m: nat)
    requires n + m <= |script|
    ensures Rest(script, n) == script[n..] && script[n..][m..] == script[n + m..]
    ensures forall j :: 0 <= j < |script| - n ==> script[n..][j] == script[n + j]
    ensures Rest(script[n..], m) == Rest(script, n + m)
  {
  }

  lemma RestRest(script: seq<Io>, n: nat, m: nat)
    ensures Rest(Rest(script, n), m) == Rest(script, n + m)
  {
  }

  /** A tick whose order call and latch are lost has sent an order and is back where it began. */
  lemma LostCallTick(w: World, p: Policy, i: Intention, approval: Option<Approval>)
    requires Holds(w, p, i, approval) && Backed(p, i, approval) && Passing(p, i, approval, w.now)
    requires var n := Before(approval);
      Smooth(w.script, n) && |w.script| >= n + 5 && w.script[n] == LOSS && w.script[n + 1] == LOSS &&
      Smooth(w.script[n + 2..], 3)
    ensures var w' := RunMinuteCron(w, Env(w.now)).world;
      && Holds(w', p, i, approval) && w'.now == w.now && w'.script == Rest(w.script, Before(approval) + 5)
      && Sent(w.history, w'.history, Used(approval))
  {
    hide ExecuteLive, Finish, Smooth, Calm, Env, RunMinuteCron, Sent, On, Rest, Acting, Known, SafeId, Backed, Passing;
    TickAttempts(w, p, i, approval);
    var n, st := Before(approval), Acting(w.store, w.now);
    ActingFields(w.store, w.now);
    OnFields(w, st, n);
    RestSlices(w.script, n, 2);
    RestSlices(w.script, n + 2, 3);
    LostCall(On(w, st, n), i, approval, st.runtime, Calm(w.now));
    LostEnd(ExecuteLive(On(w, st, n), i, st.runtime, Calm(w.now), approval, w.now));
  }

  /** A tick that loses the runtime and the latch after closing the record has sent an order and used no approval. */
  lemma LostRuntimeTick(w: World, p: Policy, i: Intention, approval: Option<Approval>)
    requires Holds(w, p, i, approval) && Backed(p, i, approval) && Passing(p, i, approval, w.now)
    requires var n := Before(approval);
      Smooth(w.script, n) && |w.script| == n + 4 && w.script[n..] == [FINE, FINE, LOSS, LOSS]
    ensures var w' := RunMinuteCron(w, Env(w.now)).world;
      && Holds(w', p, i.(status := Executed), approval) && w'.now == w.now && w'.script == []
      && w'.store.policyState == w.store.policyState && Sent(w.history, w'.history, Used(approval))
  {
    hide ExecuteLive, Finish, Smooth, Calm, Env, RunMinuteCron, Sent, On, Rest, Acting, Known, SafeId, Backed, Passing;
    TickAttempts(w, p, i, approval);
    var n, st := Before(approval), Acting(w.store, w.now);
    ActingFields(w.store, w.now);
    OnFields(w, st, n);
    RestSlices(w.script, n, 4);
    assert w.script[n + 4..] == [];
    LostRuntime(On(w, st, n), i, approval, st.runtime, Calm(w.now));
    SmoothNothing(3);
    RestNothing(3);
    LostEnd(ExecuteLive(On(w, st, n), i, st.runtime, Calm(w.now), approval, w.now));
    assert w.store.intentions["a" := i.(status := Executed)] == map["a" := i.(status := Executed)];
  }

  lemma RestNothing(n: nat)
    ensures Rest([], n) == []
  {
  }

  /** Neither the catch nor the finally sends anything. */
  lemma FinishCalls(body: Outcome<TickStatus>)
    ensures Finish(body).world.history.placements == body.world.history.placements
  {
    hide JournalAnd, ReleaseLock;
    JournalAndCalls(body.world, ErrorEntry, CronError);
    LockCalls((if body.Done? then body else JournalAnd(body.world, ErrorEntry, CronError)).world, LOCK_TTL_MS);
  }

  /** A tick without faults sends the order. */
  lemma SendingTick(w: World, p: Policy, i: Intention, approval: Option<Approval>)
    requires Holds(w, p, i, approval) && Backed(p, i, approval) && Passing(p, i, approval, w.now) && w.script == []
    ensures var h, h' := w.history, RunMinuteCron(w, Env(w.now)).world.history;
      OneMore(h, h', Used(approval)) && h'.placements[|h.placements|].policyState == w.store.policyState
  {
    hide ExecuteLive, Finish, Smooth, Calm, Env, RunMinuteCron, CallOf, On, Acting, Known, SafeId, Backed, Passing;
    var n, st := Before(approval), Acting(w.store, w.now);
    SmoothNothing(n);
    TickAttempts(w, p, i, approval);
    ActingFields(w.store, w.now);
    OnFields(w, st, n);
    var w9 := On(w, st, n);
    CallBacked(w9, i, approval, Calm(w.now));
    LiveCalls(w9, i, st.runtime, Calm(w.now), approval, w.now);
    FinishCalls(ExecuteLive(w9, i, st.runtime, Calm(w.now), approval, w.now));
  }

  // ------------------------------------------------------------------ runs

  ghost function FreshWorld(p: Policy, script: seq<Io>): World {
    World(Store(Loaded(p), DEFAULT_RUNTIME, DEFAULT_KILL_SWITCH, map[], map[], [], [], None), 0, script,
          FirstHistory(p))
  }

  lemma FreshIsInitial(p: Policy, script: seq<Io>)
    requires p == LIVE_POLICY || p == AUTONOMOUS
    ensures Initial(FreshWorld(p, script))
  {
    hide Trim;
    PolicyLoader.DefaultWithinBounds();
  }

  lemma RunStep(w: World, steps: seq<Step>)
    requires steps != []
    ensures Run(w, steps) == Run(Apply(w, steps[0]), steps[1..])
    ensures TickTimes(w, steps) ==
            (if steps[0].Tick? then [w.now] else []) + TickTimes(Apply(w, steps[0]), steps[1..])
  {
  }

  lemma RunNothing(w: World)
    ensures Run(w, []) == w && TickTimes(w, []) == []
  {
  }

  /** Stage the record, and let the first tick ask for its approval. */
  function Asking(expires: int): seq<Step> {
    [Stage(Raw(None, expires)), Wait(MINUTE_MS), Tick(Env(MINUTE_MS))]
  }

  /** Then the human approves, before the second minute. */
  const APPROVING := [Approve("a"), Wait(MINUTE_MS - READ_MS)]

  function Setup(expires: int): seq<Step> {
    Asking(expires) + APPROVING
  }

  /** The I/O of `Asking`: four to stage, fifteen in the tick. */
  const ASKING_IO: seq<Io> := Fines(12) + [SLOW] + Fines(6)

  const GIVEN_UNTIL := MINUTE_MS + READ_MS + APPROVAL_TTL_MS
  const GIVEN := Given(GIVEN_UNTIL)

  /** A minute after the fresh store: the record is staged. */
  lemma FreshStaged(p: Policy, reference: Option<string>, expires: int, script: seq<Io>)
    requires (p == LIVE_POLICY || p == AUTONOMOUS) && expires > 0 && Smooth(script, 4)
    ensures var w0 := FreshWorld(p, script);
      var w1 := Run(w0, [Stage(Raw(reference, expires)), Wait(MINUTE_MS)]);
      && Holds(w1, p, Record(Staged, reference, expires, p.live.requiresHumanApproval), None)
      && w1.store.policyState == Loaded(p) && w1.now == MINUTE_MS && w1.script == Rest(script, 4)
      && w1.history == NoteStaging(FirstHistory(p), "a", reference)
      && TickTimes(w0, [Stage(Raw(reference, expires)), Wait(MINUTE_MS)]) == []
  {
    hide StageIntention, Smooth, FirstHistory, Raw, SafeId, LIVE_POLICY, AUTONOMOUS, NoteStaging;
    var w0 := FreshWorld(p, script);
    var steps := [Stage(Raw(reference, expires)), Wait(MINUTE_MS)];
    SmoothStage(w0, p, reference, expires);
    var w1 := StageIntention(w0, Raw(reference, expires)).world;
    assert steps[1..] == [Wait(MINUTE_MS)] && steps[1..][1..] == [];
    RunStep(w0, steps);
    RunStep(w1, steps[1..]);
    RunNothing(Apply(w1, Wait(MINUTE_MS)));
    var i := Record(Staged, reference, expires, p.live.requiresHumanApproval);
    assert map[]["a" := i] == map["a" := i];
  }

  /** The approval has been requested, a second after the first minute. */
  ghost predicate Waiting(w: World, expires: int) {
    && Holds(w, LIVE_POLICY, Record(ApprovalRequested, Some("b"), expires, true), Some(GIVEN))
    && w.store.policyState == Loaded(LIVE_POLICY) && w.now == MINUTE_MS + READ_MS
    && w.history == NoteStaging(FirstHistory(LIVE_POLICY), "a", None)
  }

  lemma AskingIoShape(rest: seq<Io>)
    ensures Smooth(ASKING_IO + rest, 4) && RequestScript(Rest(ASKING_IO + rest, 4))
    ensures Rest(Rest(ASKING_IO + rest, 4), 15) == rest
  {
  }

  lemma AskingReached(rest: seq<Io>, expires: int)
    requires expires > MINUTE_MS
    ensures var w0 := FreshWorld(LIVE_POLICY, ASKING_IO + rest);
      var w := Run(w0, Asking(expires));
      Waiting(w, expires) && w.script == rest && TickTimes(w0, Asking(expires)) == [MINUTE_MS]
  {
    hide Run, TickTimes, RunMinuteCron, Smooth, FirstHistory, Raw, Env, Calm, LIVE_POLICY, Rest, ASKING_IO, Given,
      Holds, RequestScript, Record, NoteStaging;
    var w0 := FreshWorld(LIVE_POLICY, ASKING_IO + rest);
    AskingIoShape(rest);
    ApprovalRequired();
    FreshStaged(LIVE_POLICY, None, expires, ASKING_IO + rest);
    var a, b := [Stage(Raw(None, expires)), Wait(MINUTE_MS)], [Tick(Env(MINUTE_MS))];
    assert Asking(expires) == a + b;
    RunConcat(w0, a, b);
    var w1 := Run(w0, a);
    LastTick(w1, MINUTE_MS);
    RequestTick(w1, expires);
  }

  lemma LastTick(w: World, t: int)
    ensures Run(w, [Tick(Env(t))]) == RunMinuteCron(w, Env(t)).world && TickTimes(w, [Tick(Env(t))]) == [w.now]
  {
    hide RunMinuteCron, Env;
    assert [Tick(Env(t))][1..] == [];
    RunStep(w, [Tick(Env(t))]);
    RunNothing(RunMinuteCron(w, Env(t)).world);
  }

  lemma ApprovalRequired()
    ensures LIVE_POLICY.live.requiresHumanApproval && DEFAULT_POLICY.live.requiresHumanApproval
    ensures !AUTONOMOUS.live.requiresHumanApproval
  {
  }

  /** Where `Setup` leads: one approved record backed by an unused approval, nothing sent, two minutes gone. */
  ghost predicate SetUp(w: World, expires: int) {
    && Holds(w, LIVE_POLICY, Record(Approved, Some("b"), expires, true), Some(GIVEN))
    && w.store.policyState == Loaded(LIVE_POLICY) && w.now == 2 * MINUTE_MS
    && NothingSent(w.history)
  }

  ghost predicate NothingSent(h: History) {
    && h.placements == [] && h.stagings == ["a"] && h.reused == multiset{} && !h.foreignSnapshot && !h.sawPaper
  }

  lemma StagedOnly(p: Policy, reference: Option<string>)
    requires p == LIVE_POLICY || p == AUTONOMOUS
    ensures NothingSent(NoteStaging(FirstHistory(p), "a", reference))
  {
  }

  lemma Approves(w: World, expires: int)
    requires Waiting(w, expires)
    ensures var w' := Run(w, APPROVING);
      && SetUp(w', expires) && w'.script == w.script && TickTimes(w, APPROVING) == []
  {
    hide Known, Given, FirstHistory, NothingSent, NoteStaging;
    StagedOnly(LIVE_POLICY, None);
    assert w.store.intentions["a" := Record(Approved, Some("b"), expires, true)] ==
      map["a" := Record(Approved, Some("b"), expires, true)];
    var w1 := ApproveRecord(w, "a");
    assert NothingSent(w1.history) by { KeepsNothingSent(w.history, w1.history); }
    assert APPROVING[1..] == [Wait(MINUTE_MS - READ_MS)] && APPROVING[1..][1..] == [];
    RunStep(w, APPROVING);
    RunStep(w1, APPROVING[1..]);
    RunNothing(Apply(w1, Wait(MINUTE_MS - READ_MS)));
    hide Run, TickTimes;
  }

  lemma KeepsNothingSent(h: History, h': History)
    requires NothingSent(h) && h' == h.(approved := h'.approved)
    ensures NothingSent(h')
  {
  }

  lemma SetUpReached(rest: seq<Io>, expires: int)
    requires expires > MINUTE_MS
    ensures var w0 := FreshWorld(LIVE_POLICY, ASKING_IO + rest);
      var w := Run(w0, Setup(expires));
      SetUp(w, expires) && w.script == rest && TickTimes(w0, Setup(expires)) == [MINUTE_MS]
  {
    hide Run, TickTimes, ASKING_IO, Waiting, SetUp, Asking, APPROVING;
    var w0 := FreshWorld(LIVE_POLICY, ASKING_IO + rest);
    AskingReached(rest, expires);
    RunConcat(w0, Asking(expires), APPROVING);
    Approves(Run(w0, Asking(expires)), expires);
  }

  lemma HumanBacked(p: Policy, status: Status, expires: int)
    requires (p == LIVE_POLICY || p == DEFAULT_POLICY) && (status.Staged? || status.Approved?)
    ensures Backed(p, Record(status, Some("b"), expires, true), Some(GIVEN))
  {
  }

  const TEN_MINUTES := 10 * MINUTE_MS

  /** A record can be staged, approved and sent, a minute later each: the guarantees about orders are not empty. */
  lemma LiveOrderIsReachable()
    ensures var w, steps := FreshWorld(LIVE_POLICY, ASKING_IO), Setup(TEN_MINUTES) + [Tick(Env(2 * MINUTE_MS))];
      Initial(w) && MinuteApart(TickTimes(w, steps)) && |Run(w, steps).history.placements| == 1
  {
    hide Run, TickTimes, RunMinuteCron, Initial, Env, Setup, Known, ASKING_IO, Backed, Passing, Record, Given;
    var w0 := FreshWorld(LIVE_POLICY, ASKING_IO);
    assert ASKING_IO + [] == ASKING_IO;
    FreshIsInitial(LIVE_POLICY, ASKING_IO);
    SetUpReached([], TEN_MINUTES);
    RunConcat(w0, Setup(TEN_MINUTES), [Tick(Env(2 * MINUTE_MS))]);
    var w := Run(w0, Setup(TEN_MINUTES));
    LastTick(w, 2 * MINUTE_MS);
    HumanBacked(LIVE_POLICY, Approved, TEN_MINUTES);
    HumanPasses(LIVE_POLICY, Approved, TEN_MINUTES, GIVEN_UNTIL, w.now);
    SendingTick(w, LIVE_POLICY, Record(Approved, Some("b"), TEN_MINUTES, true), Some(GIVEN));
  }

  // ------------------------------------------------------------------ what lost latches allow

  /** Call and latch lost; then the error is journalled and the lock freed. */
  function LostTick(approval: Option<Approval>): seq<Io> {
    Fines(Before(approval)) + [LOSS, LOSS] + Fines(3)
  }

  function LostTicks(approval: Option<Approval>, n: nat): seq<Io> {
    if n == 0 then [] else LostTick(approval) + LostTicks(approval, n - 1)
  }

  /** A tick at `t` and at every later minute, `n` in all, and the wait for the next. */
  function Minutes(t: int, n: nat): seq<Step>
    decreases n
  {
    if n == 0 then [] else [Tick(Env(t)), Wait(MINUTE_MS)] + Minutes(t + MINUTE_MS, n - 1)
  }

  function Every(t: int, n: nat): seq<int> {
    seq(n, j => t + j * MINUTE_MS)
  }

  /** One minute: a tick, and the wait for the next. */
  lemma OneMinuteThen(w: World, rest: seq<Step>)
    ensures var steps, w1 := [Tick(Env(w.now)), Wait(MINUTE_MS)] + rest, RunMinuteCron(w, Env(w.now)).world;
      var w2 := w1.(now := w1.now + MINUTE_MS);
      && Run(w, steps) == Run(w2, rest) && TickTimes(w, steps) == [w.now] + TickTimes(w2, rest)
  {
    hide RunMinuteCron, Env, Run, TickTimes;
    var first, w1 := [Tick(Env(w.now)), Wait(MINUTE_MS)], RunMinuteCron(w, Env(w.now)).world;
    assert first[1..] == [Wait(MINUTE_MS)] && first[1..][1..] == [];
    RunStep(w, first);
    RunStep(w1, first[1..]);
    RunNothing(w1.(now := w1.now + MINUTE_MS));
    RunConcat(w, first, rest);
  }

  lemma OneMinute(w: World, n: nat)
    requires n > 0
    ensures var w1 := RunMinuteCron(w, Env(w.now)).world;
      var w2 := w1.(now := w1.now + MINUTE_MS);
      && Run(w, Minutes(w.now, n)) == Run(w2, Minutes(w.now + MINUTE_MS, n - 1))
      && TickTimes(w, Minutes(w.now, n)) == [w.now] + TickTimes(w2, Minutes(w.now + MINUTE_MS, n - 1))
  {
    hide RunMinuteCron, Env, Run, TickTimes;
    OneMinuteThen(w, Minutes(w.now + MINUTE_MS, n - 1));
  }

  /** Orders of the record `a`, all under the same approval or none. */
  ghost predicate AllUnder(ps: seq<Placement>, used: Option<string>) {
    forall j :: 0 <= j < |ps| ==> ps[j].key == "a" && ps[j].approvalKey == used
  }

  lemma LostTickShape(script: seq<Io>, approval: Option<Approval>, rest: seq<Io>)
    requires script == LostTick(approval) + rest
    ensures var n := Before(approval);
      && Smooth(script, n) && |script| >= n + 5 && script[n] == LOSS && script[n + 1] == LOSS
      && Smooth(script[n + 2..], 3) && Rest(script, n + 5) == rest
  {
  }

  lemma OneMoreUnder1(h: History, h': History, used: Option<string>)
    requires OneMore(h, h', used) && AllUnder(h.placements, used)
    ensures AllUnder(h'.placements, used)
  {
    forall j | 0 <= j < |h'.placements|
      ensures h'.placements[j].key == "a" && h'.placements[j].approvalKey == used
    {
      if j < |h.placements| { assert h'.placements[j] == h'.placements[..|h.placements|][j]; }
    }
  }

  /** The history after `n` more orders of the record, apart from faults and losses. */
  ghost predicate More(h: History, h': History, used: Option<string>, n: nat) {
    && |h'.placements| == |h.placements| + n && (AllUnder(h.placements, used) ==> AllUnder(h'.placements, used))
    && h'.stagings == h.stagings && h'.reused == h.reused
    && h'.foreignSnapshot == h.foreignSnapshot && h'.sawPaper == h.sawPaper
  }

  lemma SentThenMore(h: History, h1: History, h': History, used: Option<string>, n: nat)
    requires Sent(h, h1, used) && More(h1, h', used, n)
    ensures More(h, h', used, n + 1)
  {
    if AllUnder(h.placements, used) { OneMoreUnder1(h, h1, used); }
  }

  lemma Waits(w: World, p: Policy, i: Intention, approval: Option<Approval>, ms: nat)
    requires Holds(w, p, i, approval)
    ensures Holds(w.(now := w.now + ms), p, i, approval)
  {
    hide Known;
  }

  /** Each of `n` minute ticks that loses its call and its latch sends an order and leaves the record as it was. */
  lemma {:induction false} LostTicksRepeat(w: World, p: Policy, i: Intention, approval: Option<Approval>, n: nat)
    requires Holds(w, p, i, approval) && Backed(p, i, approval) && w.script == LostTicks(approval, n)
    requires forall t :: w.now <= t <= w.now + (n - 1) * MINUTE_MS ==> Passing(p, i, approval, t)
    ensures More(w.history, Run(w, Minutes(w.now, n)).history, Used(approval), n)
    ensures TickTimes(w, Minutes(w.now, n)) == Every(w.now, n)
    decreases n
  {
    hide RunMinuteCron, Smooth, Holds, Backed, Passing, Env, Rest, Sent, More, Run, TickTimes, Minutes, LostTick;
    if n > 0 {
      LostTickShape(w.script, approval, LostTicks(approval, n - 1));
      LostCallTick(w, p, i, approval);
      var w1 := RunMinuteCron(w, Env(w.now)).world;
      var w2 := w1.(now := w1.now + MINUTE_MS);
      Waits(w1, p, i, approval, MINUTE_MS);
      LostTicksRepeat(w2, p, i, approval, n - 1);
      OneMinute(w, n);
      SentThenMore(w.history, w1.history, Run(w2, Minutes(w2.now, n - 1)).history, Used(approval), n - 1);
      assert [w.now] + Every(w2.now, n - 1) == Every(w.now, n);
    } else {
      NoMinutes(w, Used(approval));
    }
  }

  lemma NoMinutes(w: World, used: Option<string>)
    ensures Run(w, Minutes(w.now, 0)) == w && TickTimes(w, Minutes(w.now, 0)) == Every(w.now, 0)
    ensures More(w.history, w.history, used, 0)
  {
  }

  lemma {:induction false} AllUnderCounts(ps: seq<Placement>, key: string)
    requires AllUnder(ps, Some(key))
    ensures OrdersUnder(ps, key) == |ps|
  {
    hide OrdersUnder;
    if ps != [] {
      var init := ps[..|ps| - 1];
      AllUnderCounts(init, key);
      OneMoreUnder(init, ps[|ps| - 1], key);
      assert ps == init + [ps[|ps| - 1]];
    } else {
      NoneUnder(key);
    }
  }

  lemma NoneUnder(key: string)
    ensures OrdersUnder([], key) == 0
  {
  }

  /**
   With enough lost latches one approval backs every number of orders up to five, with ticks a minute apart, a fresh
   approval id, the snapshots of the shown adapter and one staging: five is the least bound.
   */
  lemma OneApprovalManyOrders(n: nat)
    requires n <= MOST_PER_APPROVAL
    ensures var w := FreshWorld(LIVE_POLICY, ASKING_IO + LostTicks(Some(GIVEN), n));
      var steps := Setup(TEN_MINUTES) + Minutes(2 * MINUTE_MS, n);
      var h := Run(w, steps).history;
      && Initial(w) && MinuteApart(TickTimes(w, steps)) && |h.placements| == n && OrdersUnder(h.placements, "b") == n
      && h.stagings == ["a"] && h.reused == multiset{} && !h.foreignSnapshot && !h.sawPaper
  {
    hide Run, TickTimes, Initial, LostTicks, Setup, ASKING_IO, Passing, Backed, Holds, Minutes, OrdersUnder, Given;
    var script, steps := ASKING_IO + LostTicks(Some(GIVEN), n), Minutes(2 * MINUTE_MS, n);
    var w0, i := FreshWorld(LIVE_POLICY, script), Record(Approved, Some("b"), TEN_MINUTES, true);
    FreshIsInitial(LIVE_POLICY, script);
    SetUpReached(LostTicks(Some(GIVEN), n), TEN_MINUTES);
    RunConcat(w0, Setup(TEN_MINUTES), steps);
    var w := Run(w0, Setup(TEN_MINUTES));
    HumanBacked(LIVE_POLICY, Approved, TEN_MINUTES);
    forall t | w.now <= t <= w.now + (n - 1) * MINUTE_MS
      ensures Passing(LIVE_POLICY, i, Some(GIVEN), t)
    {
      HumanPasses(LIVE_POLICY, Approved, TEN_MINUTES, GIVEN_UNTIL, t);
    }
    hide Record, Known;
    LostTicksRepeat(w, LIVE_POLICY, i, Some(GIVEN), n);
    AllUnderCounts(Run(w, steps).history.placements, "b");
  }

  /**
   Where no approval is required, nothing bounds the orders of one staged record: with enough lost latches there is one
   a minute until it expires, although a single open order is the policy's limit.
   */
  lemma NoBoundOnLostOrders(n: nat)
    ensures var expires := (n + 2) * MINUTE_MS;
      var w := FreshWorld(AUTONOMOUS, Fines(4) + LostTicks(None, n));
      var steps := [Stage(Raw(None, expires)), Wait(MINUTE_MS)] + Minutes(MINUTE_MS, n);
      var h := Run(w, steps).history;
      && Initial(w) && MinuteApart(TickTimes(w, steps)) && |h.placements| == n && AllUnder(h.placements, None)
      && h.stagings == ["a"] && !h.foreignSnapshot && !h.sawPaper && AUTONOMOUS.maxOpenOrders == 1
  {
    hide Run, TickTimes, Initial, LostTicks, Passing, Backed, Holds, Minutes, FirstHistory, NoteStaging, NothingSent;
    var expires, script := (n + 2) * MINUTE_MS, Fines(4) + LostTicks(None, n);
    var w0, i := FreshWorld(AUTONOMOUS, script), Record(Staged, None, expires, false);
    var a, b := [Stage(Raw(None, expires)), Wait(MINUTE_MS)], Minutes(MINUTE_MS, n);
    FreshIsInitial(AUTONOMOUS, script);
    assert Smooth(script, 4) && Rest(script, 4) == LostTicks(None, n);
    FreshStaged(AUTONOMOUS, None, expires, script);
    RunConcat(w0, a, b);
    var w := Run(w0, a);
    AutonomousBacked(expires);
    forall t | w.now <= t <= w.now + (n - 1) * MINUTE_MS
      ensures Passing(AUTONOMOUS, i, None, t)
    {
      AutonomousPasses(expires, t);
    }
    hide Record, Known, Smooth, Rest, Raw;
    LostTicksRepeat(w, AUTONOMOUS, i, None, n);
    StagedOnly(AUTONOMOUS, None);
    NothingThenMore(w.history, Run(w, b).history, None, n);
  }

  lemma NothingThenMore(h: History, h': History, used: Option<string>, n: nat)
    requires NothingSent(h) && More(h, h', used, n)
    ensures |h'.placements| == n && AllUnder(h'.placements, used) && h'.stagings == ["a"] && h'.reused == multiset{}
    ensures !h'.foreignSnapshot && !h'.sawPaper
  {
  }

  lemma AutonomousBacked(expires: int)
    ensures Backed(AUTONOMOUS, Record(Staged, None, expires, false), None) && AUTONOMOUS.maxOpenOrders == 1
  {
  }

  // ------------------------------------------------------------------ staging again under an approval

  /** Stage the record again, now with the reference of the approval, and let a tick take it. */
  function Restaging(t: int): seq<Step> {
    [Stage(Raw(Some("b"), TEN_MINUTES)), Tick(Env(t))]
  }

  /** A record staged again, over whatever became of it, is sent under the approval it names. */
  lemma RestagingSends(w: World, i: Intention)
    requires Holds(w, LIVE_POLICY, i, Some(GIVEN)) && w.store.policyState == Loaded(LIVE_POLICY)
    requires w.script == [] && w.now < GIVEN_UNTIL
    ensures OneMore(w.history, Run(w, Restaging(w.now)).history, Some("b"))
    ensures TickTimes(w, Restaging(w.now)) == [w.now]
  {
    hide StageIntention, RunMinuteCron, Raw, Env, Run, TickTimes, LIVE_POLICY, Given, Known, Backed, Passing;
    SmoothNothing(4);
    ApprovalRequired();
    SmoothStage(w, LIVE_POLICY, Some("b"), TEN_MINUTES);
    var w1, i1 := StageIntention(w, Raw(Some("b"), TEN_MINUTES)).world, Record(Staged, Some("b"), TEN_MINUTES, true);
    assert w.store.intentions["a" := i1] == map["a" := i1];
    RestNothing(4);
    assert Holds(w1, LIVE_POLICY, i1, Some(GIVEN));
    hide Holds, Record;
    HumanBacked(LIVE_POLICY, Staged, TEN_MINUTES);
    HumanPasses(LIVE_POLICY, Staged, TEN_MINUTES, GIVEN_UNTIL, w1.now);
    SendingTick(w1, LIVE_POLICY, i1, Some(GIVEN));
    var steps := Restaging(w.now);
    assert steps[1..] == [Tick(Env(w.now))];
    RunStep(w, steps);
    LastTick(w1, w.now);
  }

  /** The human is asked, but never answers. */
  function Unanswered(): seq<Step> {
    Asking(TEN_MINUTES) + ([Wait(MINUTE_MS - READ_MS)] + Restaging(2 * MINUTE_MS))
  }

  /**
   Staged again with the reference of the approval that was asked for, a live record is sent under that approval
   although the human approved nothing.
   */
  lemma RestagingSkipsTheHuman()
    ensures var w, steps := FreshWorld(LIVE_POLICY, ASKING_IO), Unanswered();
      var ps := Run(w, steps).history.placements;
      && Initial(w) && MinuteApart(TickTimes(w, steps)) && (forall key :: Approve(key) !in steps)
      && |ps| == 1 && ps[0].approvalKey == Some("b")
  {
    hide Run, TickTimes, Initial, Env, Known, ASKING_IO, Raw, Given, Holds, FirstHistory, NoteStaging;
    var w0, b := FreshWorld(LIVE_POLICY, ASKING_IO), [Wait(MINUTE_MS - READ_MS)] + Restaging(2 * MINUTE_MS);
    assert ASKING_IO + [] == ASKING_IO;
    FreshIsInitial(LIVE_POLICY, ASKING_IO);
    AskingReached([], TEN_MINUTES);
    RunConcat(w0, Asking(TEN_MINUTES), b);
    var w := Run(w0, Asking(TEN_MINUTES));
    var asked := Record(ApprovalRequested, Some("b"), TEN_MINUTES, true);
    assert b[1..] == Restaging(2 * MINUTE_MS);
    RunStep(w, b);
    var w1 := w.(now := w.now + (MINUTE_MS - READ_MS));
    Waits(w, LIVE_POLICY, asked, Some(GIVEN), MINUTE_MS - READ_MS);
    RestagingSends(w1, asked);
    StagedOnly(LIVE_POLICY, None);
  }

  /** After a loss that comes only once the record is closed, the record is staged again. */
  function Restaged(): seq<Step> {
    Setup(TEN_MINUTES) + ([Tick(Env(2 * MINUTE_MS)), Wait(MINUTE_MS)] + Restaging(3 * MINUTE_MS))
  }

  /** The order is sent and its record closed; recording the order and the latch are lost. */
  const LATE_LOSS: seq<Io> := Fines(9) + [FINE, FINE, LOSS, LOSS]

  /** Nor does closing the record help: staged again under the same reference, it is sent under the same approval. */
  lemma RestagingReusesTheApproval()
    ensures var w, steps := FreshWorld(LIVE_POLICY, ASKING_IO + LATE_LOSS), Restaged();
      var ps := Run(w, steps).history.placements;
      Initial(w) && MinuteApart(TickTimes(w, steps)) && |ps| == 2 && AllUnder(ps, Some("b"))
  {
    hide Run, TickTimes, Initial, Env, Known, ASKING_IO, Given, Holds, Setup, Restaging, RunMinuteCron, Backed, Passing,
      LATE_LOSS, Smooth, AllUnder, Record;
    var w0 := FreshWorld(LIVE_POLICY, ASKING_IO + LATE_LOSS);
    var first := [Tick(Env(2 * MINUTE_MS)), Wait(MINUTE_MS)];
    var i := Record(Approved, Some("b"), TEN_MINUTES, true);
    var c := Restaging(3 * MINUTE_MS);
    var b := first + c;
    FreshIsInitial(LIVE_POLICY, ASKING_IO + LATE_LOSS);
    SetUpReached(LATE_LOSS, TEN_MINUTES);
    RunConcat(w0, Setup(TEN_MINUTES), b);
    var w := Run(w0, Setup(TEN_MINUTES));
    HumanBacked(LIVE_POLICY, Approved, TEN_MINUTES);
    HumanPasses(LIVE_POLICY, Approved, TEN_MINUTES, GIVEN_UNTIL, w.now);
    LateLossShape();
    LostRuntimeTick(w, LIVE_POLICY, i, Some(GIVEN));
    var w1 := RunMinuteCron(w, Env(w.now)).world;
    var w2 := w1.(now := w1.now + MINUTE_MS);
    Waits(w1, LIVE_POLICY, i.(status := Executed), Some(GIVEN), MINUTE_MS);
    OneMinuteThen(w, c);
    RestagingSends(w2, i.(status := Executed));
    OneMoreUnder1(w.history, w1.history, Some("b")) by { NoneAllUnder(w.history, Some("b")); }
    OneMoreUnder1(w2.history, Run(w2, c).history, Some("b"));
  }

  lemma NoneAllUnder(h: History, used: Option<string>)
    requires h.placements == []
    ensures AllUnder(h.placements, used)
  {
  }

  lemma LateLossShape()
    ensures Smooth(LATE_LOSS, 9) && |LATE_LOSS| == 13 && LATE_LOSS[9..] == [FINE, FINE, LOSS, LOSS]
  {
  }

  // ------------------------------------------------------------------ a paper policy, and an unreadable reference

  /** Without a project file the default policy is in force: it is a paper policy. */
  const TO_PAPER := [Refresh(PolicyLoader.Missing), Tick(Env(2 * MINUTE_MS))]

  lemma RefreshThenTick(w: World)
    ensures var w1 := RefreshPolicy(w, PolicyLoader.Missing).world;
      Run(w, TO_PAPER) == RunMinuteCron(w1, Env(2 * MINUTE_MS)).world && TickTimes(w, TO_PAPER) == [w1.now]
  {
    hide RunMinuteCron, RefreshPolicy, Env;
    assert TO_PAPER[1..] == [Tick(Env(2 * MINUTE_MS))];
    RunStep(w, TO_PAPER);
    LastTick(RefreshPolicy(w, PolicyLoader.Missing).world, 2 * MINUTE_MS);
  }

  /** A live record staged and approved under a live policy is sent although a paper policy is in force by then. */
  lemma PaperPolicySendsALiveOrder()
    ensures var w, steps := FreshWorld(LIVE_POLICY, ASKING_IO), Setup(TEN_MINUTES) + TO_PAPER;
      var ps := Run(w, steps).history.placements;
      && Initial(w) && MinuteApart(TickTimes(w, steps))
      && |ps| == 1 && ps[0].key == "a" && ps[0].policyState.policy.mode.Paper?
  {
    hide Run, TickTimes, RunMinuteCron, RefreshPolicy, Initial, Env, TO_PAPER, Setup, Backed, Passing, ASKING_IO, Holds,
      Record, Given;
    var w0 := FreshWorld(LIVE_POLICY, ASKING_IO);
    assert ASKING_IO + [] == ASKING_IO;
    FreshIsInitial(LIVE_POLICY, ASKING_IO);
    SetUpReached([], TEN_MINUTES);
    RunConcat(w0, Setup(TEN_MINUTES), TO_PAPER);
    var w := Run(w0, Setup(TEN_MINUTES));
    NowPaper(w, TEN_MINUTES);
    var w1 := RefreshPolicy(w, PolicyLoader.Missing).world;
    HumanBacked(DEFAULT_POLICY, Approved, TEN_MINUTES);
    HumanPasses(DEFAULT_POLICY, Approved, TEN_MINUTES, GIVEN_UNTIL, w1.now);
    SendingTick(w1, DEFAULT_POLICY, Record(Approved, Some("b"), TEN_MINUTES, true), Some(GIVEN));
    RefreshThenTick(w);
  }

  lemma NowPaper(w: World, expires: int)
    requires SetUp(w, expires) && w.script == []
    ensures var w1 := RefreshPolicy(w, PolicyLoader.Missing).world;
      && Holds(w1, DEFAULT_POLICY, Record(Approved, Some("b"), expires, true), Some(GIVEN)) && w1.script == []
      && w1.store.policyState.policy == DEFAULT_POLICY && w1.history.placements == [] && w1.now == w.now
      && DEFAULT_POLICY.mode.Paper?
  {
    hide Record, Given;
  }

  /** A record staged with a reference of white space. */
  function Blank(expires: int): Intention {
    Record(Staged, Some(" "), expires, true)
  }

  /** One tick finds the reference of white space and fails, changing no record. */
  lemma BlankTick(w: World, expires: int)
    requires Holds(w, LIVE_POLICY, Blank(expires), None) && w.script == [] && w.now < expires
    ensures var r := RunMinuteCron(w, Env(w.now));
      && r.Done? && r.value.CronError? && Holds(r.world, LIVE_POLICY, Blank(expires), None) && r.world.now == w.now
      && r.world.script == [] && r.world.history.placements == w.history.placements
  {
    hide SafeId, Smooth, Calm, Env, RunMinuteCron, Finish, IntentionReasons, ExecuteLive, RequestApproval, Reject,
      ExecutePaper, On, Known, Journaled, Rest;
    SmoothNothing(8);
    SmoothNothing(3);
    TickReaches(w, LIVE_POLICY, Blank(expires), None);
    BlankHasNoKey();
    var st := Acting(w.store, w.now);
    OnFields(w, st, 8);
    RestNothing(8);
    FinishLost(Begun(w));
    NotBlocked(st, w.now, ErrorEntry, None);
    OnFields(Begun(w), Journaled(st, w.now, ErrorEntry, None).(lock := Some(Lock(0))), 3);
    RestNothing(3);
  }

  lemma BlankHasNoKey()
    ensures SafeId(" ") == None
  {
    assert Trim(" ") == "";
  }

  lemma {:induction false} BlankMinutes(w: World, expires: int, n: nat)
    requires Holds(w, LIVE_POLICY, Blank(expires), None) && w.script == [] && w.now + n * MINUTE_MS <= expires
    ensures var w' := Run(w, Minutes(w.now, n));
      && Holds(w', LIVE_POLICY, Blank(expires), None) && w'.script == [] && w'.now == w.now + n * MINUTE_MS
      && w'.history.placements == w.history.placements && TickTimes(w, Minutes(w.now, n)) == Every(w.now, n)
    decreases n
  {
    hide RunMinuteCron, Holds, Env, Run, TickTimes, Blank, Minutes;
    if n > 0 {
      BlankTick(w, expires);
      var w1 := RunMinuteCron(w, Env(w.now)).world;
      Waits(w1, LIVE_POLICY, Blank(expires), None, MINUTE_MS);
      BlankMinutes(w1.(now := w1.now + MINUTE_MS), expires, n - 1);
      OneMinute(w, n);
      assert [w.now] + Every(w.now + MINUTE_MS, n - 1) == Every(w.now, n);
    } else {
      NoMinutes(w, None);
    }
  }

  /**
   A record staged with a reference of white space blocks the queue until it expires: however many ticks pass before
   that, a minute apart, the next one fails too.
   */
  lemma BlankReferenceBlocks(n: nat)
    ensures var w0, expires := FreshWorld(LIVE_POLICY, []), (n + 2) * MINUTE_MS;
      var steps := [Stage(Raw(Some(" "), expires)), Wait(MINUTE_MS)] + Minutes(MINUTE_MS, n);
      var w := Run(w0, steps);
      && Initial(w0) && MinuteApart(TickTimes(w0, steps) + [w.now])
      && w.store.intentions == map["a" := Blank(expires)] && w.history.placements == []
      && RunMinuteCron(w, Env(w.now)).Done? && RunMinuteCron(w, Env(w.now)).value.CronError?
  {
    hide Run, TickTimes, RunMinuteCron, Initial, Smooth, Raw, Env, FirstHistory, LIVE_POLICY, Minutes, Blank, Known,
      NoteStaging;
    var w0, expires := FreshWorld(LIVE_POLICY, []), (n + 2) * MINUTE_MS;
    var a, b := [Stage(Raw(Some(" "), expires)), Wait(MINUTE_MS)], Minutes(MINUTE_MS, n);
    FreshIsInitial(LIVE_POLICY, []);
    SmoothNothing(4);
    ApprovalRequired();
    FreshStaged(LIVE_POLICY, Some(" "), expires, []);
    RestNothing(4);
    RunConcat(w0, a, b);
    var w := Run(w0, a);
    assert Blank(expires) == Record(Staged, Some(" "), expires, true) by { BlankIs(expires); }
    BlankMinutes(w, expires, n);
    BlankTick(Run(w, b), expires);
    StagedOnly(LIVE_POLICY, Some(" "));
  }

  lemma BlankIs(expires: int)
    ensures Blank(expires) == Record(Staged, Some(" "), expires, true)
  {
  }
}
