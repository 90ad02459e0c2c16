/** Whole runs of the trading engine, and the guarantees that hold over all of them. */
module TradingRuns {
  import opened Basics
  import opened JsStrings
  import opened TradingTypes
  import opened TradingSafety
  import opened StorageSpec
  import opened OpsSpec
  import opened TradingInvariant
  import opened TradingHistory
  import opened TradingCalls
  import PolicyLoader

  /** One serial step. `Approve` is the human, whom no code of the plugin replaces. */
  datatype Step =
    | Stage(raw: RawIntention) | Cancel(id: string) | Refresh(file: PolicyLoader.PolicyFile)
    | Tick(env: TickInput) | SwitchedOffTick | Approve(key: string) | Wait(ms: nat)

  function ApproveRecord(w: World, key: string): World {
    if key in w.store.intentions && w.store.intentions[key].status.ApprovalRequested? then
      w.(store := w.store.(intentions := w.store.intentions[key := w.store.intentions[key].(status := Approved)]),
         history := w.history.(approved := w.history.approved + {key}))
    else w
  }

  function SwitchedOff(w: World): World {
    var r := Touch(w);
    if r.Done? then AppendJournal(r.world, NoAction, None).world else r.world
  }

  ghost function Apply(w: World, s: Step): World {
    match s
    case Stage(raw) => StageIntention(w, raw).world
    case Cancel(id) => CancelIntention(w, id).world
    case Refresh(file) => RefreshPolicy(w, file).world
    case Tick(env) => RunMinuteCron(w, env).world
    case SwitchedOffTick => SwitchedOff(w)
    case Approve(key) => ApproveRecord(w, key)
    case Wait(ms) => w.(now := w.now + ms)
  }

  ghost function Run(w: World, steps: seq<Step>): World
    decreases |steps|
  {
    if steps == [] then w else Run(Apply(w, steps[0]), steps[1..])
  }

  /** A freshly initialised store under any bounded or disabled policy; any clock and any script of faults. */
  ghost predicate Initial(w: World) {
    && PolicyLoader.BoundedOrDisabled(w.store.policyState)
    && w.store == Store(w.store.policyState, DEFAULT_RUNTIME, DEFAULT_KILL_SWITCH, map[], map[], [], [], None)
    && w.history == FirstHistory(w.store.policyState.policy)
  }

  lemma InitialInv(w: World)
    requires Initial(w)
    ensures Inv(w)
  {
    hide PolicyLoader.WithinBounds;
    assert forall k: string :: BalancedAt(w.store, [], Turns(w.history), k);
    assert forall k: string :: ApprovedOnceAt(w.store, [], Spare(w.history), k);
  }

  lemma StoredKey(w: World, key: string)
    requires InvCore(w) && key in w.store.intentions
    ensures SafeId(w.store.intentions[key].id) == Some(key)
  {
    hide SafeId;
    assert KeysMatch(w.store);
  }

  lemma ApproveMoves(w: World, key: string)
    requires key in w.store.intentions && w.store.intentions[key].status.ApprovalRequested?
    ensures var i, w0 := w.store.intentions[key].(status := Approved), Approving(w, key);
      && Moved(w0, ApproveRecord(w, key), w0.store.(intentions := w0.store.intentions[key := i]))
      && NoNewTurn(w0.store, key, i) && Traced(i, key, w0.history.approved, w0.history.references)
      && SameCore(w.store, w0.store) && NotesMore(w.history, w0.history)
  {
  }

  /** The human's decision, before the record shows it. */
  function Approving(w: World, key: string): World {
    w.(history := w.history.(approved := w.history.approved + {key}))
  }

  lemma ApproveKeeps(w: World, key: string)
    requires Inv(w)
    ensures Inv(ApproveRecord(w, key))
  {
    if key in w.store.intentions && w.store.intentions[key].status.ApprovalRequested? {
      ApproveMoves(w, key);
      hide InvCore, Books, SafeId, Moved, NoNewTurn, NotesMore, Traced, SameCore;
      CoreOf(w);
      StoredKey(w, key);
      var w0, w' := Approving(w, key), ApproveRecord(w, key);
      FrameKeeps(w, w0);
      hide ApproveRecord;
      IntentionKeeps(w0, w', key, w.store.intentions[key].(status := Approved));
    }
  }

  lemma StepKeeps(w: World, s: Step)
    requires Inv(w)
    ensures Inv(Apply(w, s))
  {
    hide InvCore, Books, StageIntention, CancelIntention, RefreshPolicy, RunMinuteCron, ApproveRecord, Touch,
      AppendJournal;
    match s
    case Stage(raw) => StageKeeps(w, raw);
    case Cancel(id) => CancelKeeps(w, id);
    case Refresh(file) => RefreshKeeps(w, file);
    case Tick(env) => CronKeeps(w, env);
    case Approve(key) => ApproveKeeps(w, key);
    case Wait(ms) => IdleKeeps(w, Apply(w, s));
    case SwitchedOffTick =>
      TouchKeeps(w);
      var r := Touch(w);
      if r.Done? { QuietJournalKeeps(r.world, NoAction, None); }
  }

  /** The invariant holds at every step boundary of every run, with faults at every I/O. */
  lemma {:induction false} RunKeeps(w: World, steps: seq<Step>)
    requires Inv(w)
    ensures Inv(Run(w, steps))
    decreases |steps|
  {
    hide Inv, Apply;
    if steps != [] {
      StepKeeps(w, steps[0]);
      RunKeeps(Apply(w, steps[0]), steps[1..]);
    }
  }

  lemma Reached(w: World, steps: seq<Step>)
    requires Initial(w)
    ensures Inv(Run(w, steps))
  {
    InitialInv(w);
    RunKeeps(w, steps);
  }

  // ------------------------------------------------------------------ the guarantees

  /**
   Every `placeLimitOrder` call of every run was made under a valid, enabled, bounded policy, with the kill
   switch neither latched nor in panic, after a passing system check, for an unexpired staged or approved
   intention whose loss at its invalidation price is at most the policy's fraction of equity.
   */
  lemma OrdersAreJustified(w: World, steps: seq<Step>, at: nat)
    requires Initial(w) && at < |Run(w, steps).history.placements|
    ensures var p := Run(w, steps).history.placements[at]; Justified(p) && LosesLittle(p)
  {
    hide Run, Justified, LosesLittle;
    Reached(w, steps);
    BoundedLoss(Run(w, steps).history.placements[at]);
  }

  /** What an order loses between its limit and its invalidation price, by its side, against the equity at the time. */
  ghost predicate LosesLittle(p: Placement) {
    p.snapshot.equity.Some? &&
    var i, budget := p.intention, p.policyState.policy.maxRiskPerTradeFraction * p.snapshot.equity.value;
    && (i.side.Buy? ==> (i.limitPrice - i.invalidationPrice) * i.quantity <= budget)
    && (i.side.Sell? ==> (i.invalidationPrice - i.limitPrice) * i.quantity <= budget)
  }

  lemma BoundedLoss(p: Placement)
    requires Justified(p)
    ensures LosesLittle(p)
  {
    hide SafeId, SafeSystem, FieldsFit, ApprovalFits;
    MultiplyBound(0.0, p.policyState.policy.maxRiskPerTradeFraction, p.snapshot.equity.value);
  }

  /** At every point of every run the policy in force is within its documented bounds or disabled. */
  lemma PolicyIsAlwaysBounded(w: World, steps: seq<Step>)
    requires Initial(w)
    ensures PolicyLoader.BoundedOrDisabled(Run(w, steps).store.policyState)
  {
    hide Run, PolicyLoader.BoundedOrDisabled;
    Reached(w, steps);
  }

  /**
   An approval backs one live order, and one more for each lost latch that left it unused and for each time its id was
   generated again.
   */
  lemma OrdersUnderAnApproval(w: World, steps: seq<Step>, key: string)
    requires Initial(w)
    ensures var h := Run(w, steps).history;
      OrdersUnder(h.placements, key) <= 1 + h.lost.approvals[key] + h.reused[key]
  {
    hide Run, OrdersUnder;
    Reached(w, steps);
    var w' := Run(w, steps);
    assert ApprovedOnceAt(w'.store, w'.history.placements, Spare(w'.history), key);
  }

  lemma TwiceCounts<T>(s: seq<T>, i: nat, j: nat)
    requires i < j < |s| && s[i] == s[j]
    ensures multiset(s)[s[i]] >= 2
  {
    assert s == s[..j] + [s[j]] + s[j + 1..];
    assert s[..j][i] == s[i];
  }

  /**
   While human approval is required no approval backs two live orders, whatever throws after the order was sent, unless
   a lost latch left that approval unused or its id was generated again.
   */
  lemma NoApprovalBacksTwoOrders(w: World, steps: seq<Step>, i: nat, j: nat)
    requires Initial(w) && i < j < |Run(w, steps).history.placements|
    requires Run(w, steps).history.placements[i].policyState.policy.live.requiresHumanApproval
    ensures var h := Run(w, steps).history;
      var used := h.placements[i].approvalKey;
      used.Some? && (used == h.placements[j].approvalKey ==> h.lost.approvals[used.value] + h.reused[used.value] > 0)
  {
    OrdersAreJustified(w, steps, i);
    hide Run;
    var ps := Run(w, steps).history.placements;
    var used := ps[i].approvalKey;
    if used == ps[j].approvalKey {
      OrdersUnderAnApproval(w, steps, used.value);
      TwiceCounts(UsedKeys(ps), i, j);
    }
  }

  /**
   Orders of a key, paper recorded plus live attempted, never exceed the accepted stagings of that key plus the lost
   latches that left its record open.
   */
  lemma OrdersNeverExceedStagings(w: World, steps: seq<Step>, key: string)
    requires Initial(w)
    ensures var w' := Run(w, steps);
      multiset(PaperKeys(w'.store.runtime.paperOrders))[key] + multiset(PlacedKeys(w'.history.placements))[key]
      <= multiset(w'.history.stagings)[key] + w'.history.lost.records[key]
  {
    hide Run;
    Reached(w, steps);
    var w' := Run(w, steps);
    assert BalancedAt(w'.store, w'.history.placements, Turns(w'.history), key);
  }

  /**
   With the shown adapter a whole run places at most five live orders under any policy changes, and at most one if no
   paper policy was ever in force, plus one for each lost latch that left its order unrecorded.
   */
  lemma AtMostFiveLiveOrders(w: World, steps: seq<Step>)
    requires Initial(w) && !Run(w, steps).history.foreignSnapshot
    ensures var h := Run(w, steps).history;
      |h.placements| <= 5 + h.lost.orders && (!h.sawPaper ==> |h.placements| <= 1 + h.lost.orders)
  {
    hide Run;
    Reached(w, steps);
  }

  /**
   Without faults the journal holds exactly one LIVE_ORDER and one PAPER_ORDER entry per recorded order, and the last
   stamp is the newest.
   */
  lemma JournalAgreesWithBooks(w: World, steps: seq<Step>)
    requires Initial(w) && NoFaults(w.script)
    ensures var st := Run(w, steps).store;
      && multiset(Kinds(st.journal))[LiveOrderEntry] == |st.runtime.openOrders|
      && multiset(Kinds(st.journal))[PaperOrderEntry] == |st.runtime.paperOrders|
      && st.runtime.lastJournalAt == (if st.journal == [] then None else Some(st.journal[|st.journal| - 1].timestamp))
  {
    hide Run, Kinds;
    Reached(w, steps);
    RunGrows(w, steps);
  }

  predicate LoadsLive(s: Step) {
    s.Refresh? && PolicyLoader.LoadProjectPolicy(s.file).policy.enabled &&
      PolicyLoader.LoadProjectPolicy(s.file).policy.mode.Live?
  }

  predicate LoadsPaper(s: Step) {
    s.Refresh? && PolicyLoader.LoadProjectPolicy(s.file).policy.enabled &&
      PolicyLoader.LoadProjectPolicy(s.file).policy.mode.Paper?
  }

  /** Without an enabled live policy no run ever calls the exchange: neither to place nor to cancel. */
  lemma PaperIsolation(w: World, steps: seq<Step>)
    requires Initial(w) && !(w.store.policyState.policy.enabled && w.store.policyState.policy.mode.Live?)
    requires forall s :: s in steps ==> !LoadsLive(s)
    ensures Run(w, steps).history.placements == [] && Run(w, steps).history.cancelAlls == 0
  {
    hide Run, LoadsLive;
    Reached(w, steps);
    SawLiveOnlyByLoading(w, steps);
  }

  /** Under policies that are live whenever enabled, the stale private stream stops every order after a recorded one. */
  lemma LivePolicyPlacesOnce(w: World, steps: seq<Step>)
    requires Initial(w) && !(w.store.policyState.policy.enabled && w.store.policyState.policy.mode.Paper?)
    requires forall s :: s in steps ==> !LoadsPaper(s)
    requires !Run(w, steps).history.foreignSnapshot
    ensures |Run(w, steps).history.placements| <= 1 + Run(w, steps).history.lost.orders
  {
    hide Run, LoadsPaper;
    AtMostFiveLiveOrders(w, steps);
    SawPaperOnlyByLoading(w, steps);
  }

  // ------------------------------------------------------------------ what a run never takes back

  /** Like Grows, for whole steps: the lock and the policy may change. */
  ghost predicate StepGrows(w: World, w': World) {
    && w.store.journal <= w'.store.journal
    && w.history.placements <= w'.history.placements
    && (w.store.killSwitch.latched ==> w'.store.killSwitch.latched)
    && (NoFaults(w.script) ==> NoFaults(w'.script) && (w'.history.faulted ==> w.history.faulted))
    && (w.history.faulted ==> w'.history.faulted)
    && w.now <= w'.now && w.history.reused <= w'.history.reused
  }

  /** Besides, only the given references come in, no mode, and nothing is approved. */
  ghost predicate Extends(w: World, w': World, references: set<string>) {
    && StepGrows(w, w')
    && w'.history.sawLive == w.history.sawLive && w'.history.sawPaper == w.history.sawPaper
    && w'.history.approved == w.history.approved && w'.history.references <= w.history.references + references
  }

  lemma ExtendsTransitive(a: World, b: World, c: World, references: set<string>)
    requires (Extends(a, b, references) && Extends(b, c, {})) || (Extends(a, b, {}) && Extends(b, c, references))
    ensures Extends(a, c, references)
  {
    hide NoFaults;
  }

  lemma GrowsExtends(w: World, w': World)
    requires Grows(w, w')
    ensures Extends(w, w', {})
  {
    hide NoFaults;
  }

  lemma CommitExtends(w: World, store: Store)
    requires w.store.journal <= store.journal && (w.store.killSwitch.latched ==> store.killSwitch.latched)
    ensures var w' := Commit(w, store).world; Extends(w, w', {}) && w'.history.placements == w.history.placements
  {
    ElapseGrows(w);
    hide NoFaults;
  }

  lemma CronExtends(w: World, env: TickInput)
    ensures Extends(w, RunMinuteCron(w, env).world, {})
  {
    hide GuardedBody, Commit, Extends, Grows;
    ElapseGrows(w);
    GrowsExtends(w, Touch(w).world);
    var r0 := Touch(w);
    if r0.Done? && !LockBlocks(r0.world.store.lock, r0.world.now) {
      hide Touch;
      var w0 := r0.world;
      var store := w0.store.(lock := Some(Lock(w0.now + LOCK_TTL_MS)));
      CommitExtends(w0, store);
      var r1 := Commit(w0, store);
      ExtendsTransitive(w, w0, r1.world, {});
      if r1.Done? {
        GuardedBodyExtends(r1.world, env);
        var w2 := GuardedBody(r1.world, env).world;
        ExtendsTransitive(w, r1.world, w2, {});
        ReleaseExtends(w2);
        ExtendsTransitive(w, w2, ReleaseLock(w2).world, {});
      }
    }
  }

  lemma GuardedBodyExtends(w: World, env: TickInput)
    ensures Extends(w, GuardedBody(w, env).world, {})
  {
    hide GuardedBody, Grows, Extends;
    GuardedBodyJournals(w, env);
    GrowsExtends(w, GuardedBody(w, env).world);
  }

  lemma ReleaseExtends(w: World)
    ensures Extends(w, ReleaseLock(w).world, {})
  {
    ElapseGrows(w);
    hide NoFaults;
  }

  function References(raw: RawIntention): set<string> {
    if raw.humanApprovalId.Some? then {raw.humanApprovalId.value} else {}
  }

  lemma StageExtends(w: World, raw: RawIntention)
    ensures Extends(w, StageIntention(w, raw).world, References(raw))
  {
    hide SafeId, Grows, Extends, Touch, SaveIntention, SaveStaged, AppendJournal, NormalizeIntention, StageReasons,
      References;
    ElapseGrows(w);
    GrowsExtends(w, Touch(w).world);
    NothingExtends(w, Touch(w).world, References(raw));
    var r0 := Touch(w);
    if r0.Done? {
      var ps := r0.world.store.policyState;
      var i := NormalizeIntention(raw, ps.policy, r0.world.now);
      if StageReasons(raw, i, ps, r0.world.now) != [] {
        RefusalGrows(r0.world, i);
        GrowsExtends(r0.world, StageRefusal(r0.world, i));
        NothingExtends(r0.world, StageRefusal(r0.world, i), References(raw));
        ExtendsTransitive(w, r0.world, StageRefusal(r0.world, i), References(raw));
      } else {
        SaveStagedExtends(r0.world, raw);
        var r1 := SaveStaged(r0.world, i);
        ExtendsTransitive(w, r0.world, r1.world, References(raw));
        if r1.Done? {
          AppendJournalGrows(r1.world, IntentionStaged, Some(i.id));
          GrowsExtends(r1.world, AppendJournal(r1.world, IntentionStaged, Some(i.id)).world);
          ExtendsTransitive(w, r1.world, AppendJournal(r1.world, IntentionStaged, Some(i.id)).world, References(raw));
        }
      }
    }
  }

  lemma NothingExtends(w: World, w': World, references: set<string>)
    requires Extends(w, w', {})
    ensures Extends(w, w', references)
  {
    hide StepGrows;
  }

  function StageRefusal(w: World, i: Intention): World {
    var r1 := SaveIntention(w, i.(status := Rejected));
    if r1.Done? then AppendJournal(r1.world, IntentionRejected, Some(i.id)).world else r1.world
  }

  lemma RefusalGrows(w: World, i: Intention)
    ensures Grows(w, StageRefusal(w, i))
  {
    hide Grows, SaveIntention, AppendJournal;
    SaveIntentionGrows(w, i.(status := Rejected));
    var r1 := SaveIntention(w, i.(status := Rejected));
    if r1.Done? {
      AppendJournalGrows(r1.world, IntentionRejected, Some(i.id));
      GrowsTransitive(w, r1.world, AppendJournal(r1.world, IntentionRejected, Some(i.id)).world);
    }
  }

  lemma SaveStagedExtends(w: World, raw: RawIntention)
    ensures var i := NormalizeIntention(raw, w.store.policyState.policy, w.now);
      Extends(w, SaveStaged(w, i).world, References(raw))
  {
    var i := NormalizeIntention(raw, w.store.policyState.policy, w.now);
    assert i.humanApprovalId == raw.humanApprovalId by { hide AsString; }
    hide NormalizeIntention;
    SaveIntentionGrows(w, i);
    hide SaveIntention, SafeId, NoFaults;
  }

  lemma CancelGrows(w: World, id: string)
    ensures Grows(w, CancelIntention(w, id).world)
  {
    hide SafeId, Grows, Touch, ReadIntention, SaveIntention;
    ElapseGrows(w);
    var r0 := Touch(w);
    if r0.Done? {
      ReadIntentionGrows(r0.world, id);
      var r1 := ReadIntention(r0.world, id);
      GrowsTransitive(w, r0.world, r1.world);
      if r1.Done? && r1.value.Some? {
        SaveIntentionGrows(r1.world, r1.value.value.(status := Cancelled));
        GrowsTransitive(w, r1.world, SaveIntention(r1.world, r1.value.value.(status := Cancelled)).world);
      }
    }
  }

  predicate Refers(s: Step, reference: string) {
    s.Stage? && s.raw.humanApprovalId == Some(reference)
  }

  lemma StepOnlyGrows(w: World, s: Step)
    ensures StepGrows(w, Apply(w, s))
    ensures Apply(w, s).history.sawLive ==> w.history.sawLive || LoadsLive(s)
    ensures Apply(w, s).history.sawPaper ==> w.history.sawPaper || LoadsPaper(s)
    ensures forall key :: key in Apply(w, s).history.approved ==> key in w.history.approved || s == Approve(key)
    ensures forall r :: r in Apply(w, s).history.references ==> r in w.history.references || Refers(s, r)
  {
    hide NoFaults, StageIntention, CancelIntention, RunMinuteCron, AppendJournal, PolicyLoader.LoadProjectPolicy;
    match s
    case Stage(raw) => StageExtends(w, raw);
    case Cancel(id) => CancelGrows(w, id);
    case Tick(env) => CronExtends(w, env);
    case Refresh(file) => CommitExtends(w, w.store.(policyState := PolicyLoader.LoadProjectPolicy(file)));
    case SwitchedOffTick =>
      ElapseGrows(w);
      var r := Touch(w);
      if r.Done? {
        AppendJournalGrows(r.world, NoAction, None);
        GrowsTransitive(w, r.world, AppendJournal(r.world, NoAction, None).world);
      }
    case Approve(key) =>
    case Wait(ms) =>
  }

  /**
   The journal and the list of calls are append-only, the latch is permanent, and faults come only from the script.
   */
  lemma {:induction false} RunGrows(w: World, steps: seq<Step>)
    ensures StepGrows(w, Run(w, steps))
    decreases |steps|
  {
    hide Apply, NoFaults;
    if steps != [] {
      StepOnlyGrows(w, steps[0]);
      RunGrows(Apply(w, steps[0]), steps[1..]);
    }
  }

  lemma {:induction false} SawLiveOnlyByLoading(w: World, steps: seq<Step>)
    requires !w.history.sawLive && forall s :: s in steps ==> !LoadsLive(s)
    ensures !Run(w, steps).history.sawLive
    decreases |steps|
  {
    hide Apply, LoadsLive, StepGrows, LoadsPaper;
    if steps != [] {
      StepOnlyGrows(w, steps[0]);
      SawLiveOnlyByLoading(Apply(w, steps[0]), steps[1..]);
    }
  }

  lemma {:induction false} SawPaperOnlyByLoading(w: World, steps: seq<Step>)
    requires !w.history.sawPaper && forall s :: s in steps ==> !LoadsPaper(s)
    ensures !Run(w, steps).history.sawPaper
    decreases |steps|
  {
    hide Apply, LoadsPaper, StepGrows, LoadsLive;
    if steps != [] {
      StepOnlyGrows(w, steps[0]);
      SawPaperOnlyByLoading(Apply(w, steps[0]), steps[1..]);
    }
  }

  // ------------------------------------------------------------------ runs, one after the other

  /** When the ticks of a run begin. */
  ghost function TickTimes(w: World, steps: seq<Step>): seq<int>
    decreases |steps|
  {
    if steps == [] then []
    else (if steps[0].Tick? then [w.now] else []) + TickTimes(Apply(w, steps[0]), steps[1..])
  }

  lemma {:induction false} RunConcat(w: World, a: seq<Step>, b: seq<Step>)
    ensures Run(w, a + b) == Run(Run(w, a), b) && TickTimes(w, a + b) == TickTimes(w, a) + TickTimes(Run(w, a), b)
    decreases |a|
  {
    hide Apply;
    if a == [] {
      assert a + b == b;
    } else {
      assert (a + b)[1..] == a[1..] + b;
      RunConcat(Apply(w, a[0]), a[1..], b);
    }
  }

  // ------------------------------------------------------------------ where the permission came from

  lemma {:induction false} RunTraces(w: World, steps: seq<Step>)
    ensures var h := Run(w, steps).history;
      && (forall key :: key in h.approved ==> key in w.history.approved || Approve(key) in steps)
      && (forall r :: r in h.references ==> r in w.history.references || exists s :: s in steps && Refers(s, r))
    decreases |steps|
  {
    hide Apply, StepGrows, LoadsLive, LoadsPaper, Refers;
    if steps != [] {
      StepOnlyGrows(w, steps[0]);
      RunTraces(Apply(w, steps[0]), steps[1..]);
    }
  }

  lemma ApprovedInRun(w: World, steps: seq<Step>, at: nat)
    requires Initial(w) && at < |Run(w, steps).history.placements|
    requires Run(w, steps).history.placements[at].policyState.policy.live.requiresHumanApproval
    ensures var p := Run(w, steps).history.placements[at];
      || (p.intention.status.Approved? && Approve(p.key) in steps)
      || (p.intention.status.Staged? && p.intention.humanApprovalId.Some?
          && exists s :: s in steps && Refers(s, p.intention.humanApprovalId.value))
  {
    OrdersAreJustified(w, steps, at);
    Reached(w, steps);
    RunTraces(w, steps);
    hide Run, KeysMatch, DatesValid, PolicyInForce, ApprovedOnce, Balanced, Capped, PaperOnly, Fresh, Backing, SafeId,
      AllJustified, Books, Refers, LosesAtMost, SafeSystem, PolicyLoader.WithinBounds;
    var w' := Run(w, steps);
    assert Traced(w'.history.placements[at].intention, w'.history.placements[at].key, w'.history.approved,
                  w'.history.references);
  }

  lemma RunAndStep(w: World, before: seq<Step>, s: Step)
    ensures Run(w, before + [s]) == Apply(Run(w, before), s)
  {
    hide Apply;
    RunConcat(w, before, [s]);
    assert [s][1..] == [];
    assert Run(Run(w, before), [s]) == Run(Apply(Run(w, before), s), []);
  }

  /**
   A live order under required approval was approved by the human for its own key before the step that sent it, or else
   its record was staged before with the reference of the approval already in it.
   */
  lemma ApprovedBeforeSent(w: World, before: seq<Step>, s: Step, at: nat)
    requires Initial(w) && |Run(w, before).history.placements| <= at
    requires at < |Apply(Run(w, before), s).history.placements|
    requires Apply(Run(w, before), s).history.placements[at].policyState.policy.live.requiresHumanApproval
    ensures var p := Apply(Run(w, before), s).history.placements[at];
      || (p.intention.status.Approved? && Approve(p.key) in before)
      || (p.intention.status.Staged? && p.intention.humanApprovalId.Some?
          && exists b :: b in before && Refers(b, p.intention.humanApprovalId.value))
  {
    hide Run, Apply, Initial;
    RunAndStep(w, before, s);
    ApprovedInRun(w, before + [s], at);
    if !s.Tick? { StepSendsNothing(Run(w, before), s); }
  }

  // ------------------------------------------------------------------ ticks at least a minute apart

  const MINUTE_MS := 60_000

  predicate MinuteApart(times: seq<int>) {
    forall i :: 0 < i < |times| ==> times[i - 1] + MINUTE_MS <= times[i]
  }

  const MOST_PER_APPROVAL := 5

  /** The orders under an approval so far fit into the time from its request to the last tick. */
  ghost predicate InTime(w: World, last: Option<int>, key: string) {
    var n := OrdersUnder(w.history.placements, key);
    n > 0 && w.history.reused[key] == 0 ==>
      && n <= MOST_PER_APPROVAL && last.Some? && key in w.store.approvals
      && last.value >= w.store.approvals[key].expiresAt - APPROVAL_TTL_MS + (n - 1) * MINUTE_MS
  }

  /** The expiry of an approval that has backed an order does not move. */
  lemma ExpiryStays(st: Store, ps: seq<Placement>, reused: multiset<string>, st': Store, ps': seq<Placement>,
                    reused': multiset<string>, key: string)
    requires Backing(st, ps, reused) && Backing(st', ps', reused') && ps <= ps'
    requires OrdersUnder(ps, key) > 0 && reused[key] == 0 && reused'[key] == 0
    ensures key in st.approvals && key in st'.approvals
    ensures st'.approvals[key].expiresAt == st.approvals[key].expiresAt
  {
    assert Some(key) in UsedKeys(ps);
    var at: nat :| at < |ps| && UsedKeys(ps)[at] == Some(key);
    assert BackedBy(st, ps[at], reused) && ps'[at] == ps[at] && BackedBy(st', ps'[at], reused');
  }

  lemma OneMoreUnder(ps: seq<Placement>, p: Placement, key: string)
    ensures OrdersUnder(ps + [p], key) == OrdersUnder(ps, key) + if p.approvalKey == Some(key) then 1 else 0
  {
    assert UsedKeys(ps + [p]) == UsedKeys(ps) + [p.approvalKey];
  }

  ghost predicate Dated(w: World) {
    Backing(w.store, w.history.placements, w.history.reused) && Fresh(w.store, w.now)
  }

  /** What happens to other approvals leaves this one in time, and a later tick only leaves it more time. */
  lemma OthersStayInTime(w: World, w': World, last: Option<int>, last': Option<int>, key: string)
    requires Dated(w) && Dated(w') && w.history.placements <= w'.history.placements && InTime(w, last, key)
    requires OrdersUnder(w'.history.placements, key) == OrdersUnder(w.history.placements, key)
    requires w.history.reused <= w'.history.reused
    requires last'.Some? || last.None?
    requires last.Some? ==> last.value <= last'.value
    ensures InTime(w', last', key)
  {
    hide OrdersUnder, Backing, Fresh;
    if OrdersUnder(w.history.placements, key) > 0 && w'.history.reused[key] == 0 {
      ExpiryStays(w.store, w.history.placements, w.history.reused, w'.store, w'.history.placements, w'.history.reused,
                  key);
    }
  }

  /** What a justified order under an approval says of it when the tick began: stored, and not expired. */
  lemma SentUnderOpen(w: World, p: Placement)
    requires Justified(p) && SentUnder(w, p) && p.approvalKey.Some?
    ensures p.approval.Some? && p.approvalKey.value in w.store.approvals
    ensures p.approval.value == w.store.approvals[p.approvalKey.value] && w.now < p.approval.value.expiresAt
  {
    hide SafeId, LosesAtMost, SafeSystem, PolicyLoader.WithinBounds;
  }

  /** One more order under the approval: a minute after the last, and before it expires. */
  lemma CallStaysInTime(w: World, w': World, last: Option<int>, key: string, p: Placement)
    requires Dated(w) && Dated(w') && InTime(w, last, key) && w.history.reused <= w'.history.reused
    requires w'.history.placements == w.history.placements + [p] && p.approvalKey == Some(key)
    requires Justified(p) && SentUnder(w, p) && (last.Some? ==> w.now >= last.value + MINUTE_MS)
    ensures InTime(w', Some(w.now), key)
  {
    hide OrdersUnder, Justified, SentUnder, Backing;
    SentUnderOpen(w, p);
    OneMoreUnder(w.history.placements, p, key);
    if w'.history.reused[key] == 0 {
      BackedNow(w', p, key);
      if OrdersUnder(w.history.placements, key) > 0 {
        ExpiryStays(w.store, w.history.placements, w.history.reused, w'.store, w'.history.placements,
                    w'.history.reused, key);
      }
    }
  }

  lemma BackedNow(w: World, p: Placement, key: string)
    requires Dated(w) && p in w.history.placements && p.approvalKey == Some(key) && w.history.reused[key] == 0
    ensures key in w.store.approvals && p.approval.Some?
    ensures w.store.approvals[key].expiresAt == p.approval.value.expiresAt
  {
    var at :| 0 <= at < |w.history.placements| && w.history.placements[at] == p;
    assert BackedBy(w.store, w.history.placements[at], w.history.reused);
  }

  /** A tick that begins a minute after the last keeps every approval in time. */
  lemma TickStaysInTime(w: World, w': World, last: Option<int>, key: string)
    requires Dated(w) && Dated(w') && AllJustified(w'.history.placements) && AtMostOneCall(w, w')
    requires w.history.reused <= w'.history.reused
    requires InTime(w, last, key) && (last.Some? ==> w.now >= last.value + MINUTE_MS)
    ensures InTime(w', Some(w.now), key)
  {
    hide Dated, InTime, OrdersUnder, SentUnder, Justified;
    var ps, ps' := w.history.placements, w'.history.placements;
    if ps' == ps {
      OthersStayInTime(w, w', last, Some(w.now), key);
    } else {
      var p := ps'[|ps|];
      assert ps' == ps + [p];
      OneMoreUnder(ps, p, key);
      if p.approvalKey == Some(key) {
        CallStaysInTime(w, w', last, key, p);
      } else {
        OthersStayInTime(w, w', last, Some(w.now), key);
      }
    }
  }

  lemma InvIsDated(w: World)
    requires Inv(w)
    ensures Dated(w) && AllJustified(w.history.placements)
  {
    hide KeysMatch, DatesValid, PolicyInForce, ApprovedOnce, Balanced, Capped, PaperOnly, Fresh, Backing, AllJustified,
      Provenance, Books;
  }

  lemma StepSendsNothing(w: World, s: Step)
    requires !s.Tick?
    ensures SameCalls(w, Apply(w, s))
  {
    hide StageIntention, CancelIntention, RefreshPolicy, AppendJournal;
    match s
    case Stage(raw) => StageOrders(w, raw);
    case Cancel(id) => CancelOrders(w, id);
    case Refresh(file) => RefreshOrders(w, file);
    case SwitchedOffTick => AppendJournalOrders(Touch(w).world, NoAction, None);
    case Approve(key) =>
    case Wait(ms) =>
  }

  lemma StepStaysInTime(w: World, s: Step, last: Option<int>, key: string)
    requires Inv(w) && InTime(w, last, key) && (s.Tick? && last.Some? ==> w.now >= last.value + MINUTE_MS)
    ensures InTime(Apply(w, s), if s.Tick? then Some(w.now) else last, key)
  {
    hide Inv, InTime, RunMinuteCron, StageIntention, CancelIntention, RefreshPolicy, ApproveRecord, SwitchedOff,
      OrdersUnder, Dated, AllJustified, LoadsLive, LoadsPaper, NoFaults, AtMostOneCall, Refers;
    var w' := Apply(w, s);
    StepKeeps(w, s);
    StepOnlyGrows(w, s);
    InvIsDated(w);
    InvIsDated(w');
    if s.Tick? {
      TickSendsAtMostOnce(w, s.env);
      TickStaysInTime(w, w', last, key);
    } else {
      StepSendsNothing(w, s);
      OthersStayInTime(w, w', last, last, key);
    }
  }

  function LastOf(times: seq<int>): Option<int> {
    if times == [] then None else Some(times[|times| - 1])
  }

  lemma {:induction false} RunStaysInTime(w: World, steps: seq<Step>, done: seq<int>, key: string)
    requires Inv(w) && MinuteApart(done + TickTimes(w, steps)) && InTime(w, LastOf(done), key)
    ensures InTime(Run(w, steps), LastOf(done + TickTimes(w, steps)), key)
    decreases |steps|
  {
    hide Inv, Apply, InTime;
    if steps != [] {
      var s, w' := steps[0], Apply(w, steps[0]);
      var later := TickTimes(w', steps[1..]);
      StepKeeps(w, s);
      if s.Tick? {
        assert (done + TickTimes(w, steps))[|done|] == w.now;
        assert done != [] ==> (done + TickTimes(w, steps))[|done| - 1] == done[|done| - 1];
        assert done + TickTimes(w, steps) == (done + [w.now]) + later;
        StepStaysInTime(w, s, LastOf(done), key);
        RunStaysInTime(w', steps[1..], done + [w.now], key);
      } else {
        assert done + TickTimes(w, steps) == done + later;
        StepStaysInTime(w, s, LastOf(done), key);
        RunStaysInTime(w', steps[1..], done, key);
      }
    } else {
      assert done + TickTimes(w, steps) == done;
    }
  }

  /**
   With ticks at least a minute apart no approval backs more than five live orders, whatever is lost, unless its id was
   generated again: each order falls within the five minutes of the approval.
   */
  lemma AtMostFivePerApproval(w: World, steps: seq<Step>, key: string)
    requires Initial(w) && MinuteApart(TickTimes(w, steps)) && Run(w, steps).history.reused[key] == 0
    ensures OrdersUnder(Run(w, steps).history.placements, key) <= MOST_PER_APPROVAL
  {
    hide Run, Inv, TickTimes;
    InitialInv(w);
    assert InTime(w, None, key);
    assert [] + TickTimes(w, steps) == TickTimes(w, steps);
    RunStaysInTime(w, steps, [], key);
  }

  // ------------------------------------------------------------------ after the latch

  /** Orders recorded and calls made. */
  ghost predicate SameOrders(w: World, w': World) {
    && w'.history.placements == w.history.placements
    && w'.store.runtime.paperOrders == w.store.runtime.paperOrders
    && w'.store.runtime.openOrders == w.store.runtime.openOrders
  }

  lemma SaveIntentionOrders(w: World, i: Intention)
    ensures SameOrders(w, SaveIntention(w, i).world) && SameOrders(w, SaveStaged(w, i).world)
  {
    hide SafeId;
  }

  lemma AppendJournalOrders(w: World, kind: JournalKind, id: Option<string>)
    ensures SameOrders(w, AppendJournal(w, kind, id).world)
  {
  }

  lemma LatchedTickOrders(w: World, env: TickInput)
    requires w.store.killSwitch.latched
    ensures SameOrders(w, RunMinuteCron(w, env).world)
  {
    hide AppendJournal, ReleaseLock, Gated, NoFaults;
    var r0 := Touch(w);
    if r0.Done? {
      var r1 := AcquireLock(r0.world, LOCK_TTL_MS);
      if r1.Done? && r1.value {
        hide Touch, AcquireLock;
        LatchedBodyOrders(r1.world, env);
        var w2 := GuardedBody(r1.world, env).world;
        ReleaseOrders(w2);
        hide GuardedBody;
        assert SameOrders(w, RunMinuteCron(w, env).world);
      }
    }
  }

  lemma ReleaseOrders(w: World)
    ensures SameOrders(w, ReleaseLock(w).world)
  {
  }

  lemma LatchedBodyOrders(w: World, env: TickInput)
    requires w.store.killSwitch.latched
    ensures SameOrders(w, GuardedBody(w, env).world)
  {
    hide AppendJournal, Gated, GetRuntimeSnapshot;
    var r1 := WriteRuntime(w, w.store.runtime.(lastCronAt := Some(w.now)));
    var ps := w.store.policyState;
    if r1.Done? {
      hide WriteRuntime;
      var kind := if !ps.valid || !ps.policy.enabled then NoAction else Halt;
      AppendJournalOrders(r1.world, kind, None);
      var r2 := AppendJournal(r1.world, kind, None);
      AppendJournalOrders(r2.world, ErrorEntry, None);
    } else {
      AppendJournalOrders(r1.world, ErrorEntry, None);
    }
  }

  lemma StageOrders(w: World, raw: RawIntention)
    ensures SameOrders(w, StageIntention(w, raw).world)
  {
    hide SaveIntention, SaveStaged, AppendJournal, SafeId, NormalizeIntention, StageReasons;
    var r0 := Touch(w);
    if r0.Done? {
      var i := NormalizeIntention(raw, r0.world.store.policyState.policy, r0.world.now);
      SaveIntentionOrders(r0.world, i);
      SaveIntentionOrders(r0.world, i.(status := Rejected));
      AppendJournalOrders(SaveStaged(r0.world, i).world, IntentionStaged, Some(i.id));
      AppendJournalOrders(SaveIntention(r0.world, i.(status := Rejected)).world, IntentionRejected, Some(i.id));
    }
  }

  lemma CancelOrders(w: World, id: string)
    ensures SameOrders(w, CancelIntention(w, id).world)
  {
    hide SaveIntention, SafeId;
    var r0 := Touch(w);
    if r0.Done? {
      var r1 := ReadIntention(r0.world, id);
      if r1.Done? && r1.value.Some? { SaveIntentionOrders(r1.world, r1.value.value.(status := Cancelled)); }
    }
  }

  lemma RefreshOrders(w: World, file: PolicyLoader.PolicyFile)
    ensures SameOrders(w, RefreshPolicy(w, file).world)
  {
    hide PolicyLoader.LoadProjectPolicy;
  }

  lemma LatchedStepOrders(w: World, s: Step)
    requires w.store.killSwitch.latched
    ensures SameOrders(w, Apply(w, s))
  {
    hide RunMinuteCron, StageIntention, CancelIntention, RefreshPolicy, AppendJournal;
    match s
    case Tick(env) => LatchedTickOrders(w, env);
    case Stage(raw) => StageOrders(w, raw);
    case Cancel(id) => CancelOrders(w, id);
    case Refresh(file) => RefreshOrders(w, file);
    case SwitchedOffTick => AppendJournalOrders(Touch(w).world, NoAction, None);
    case Approve(key) =>
    case Wait(ms) =>
  }

  /** Once latched, a run stays latched and never again records or sends an order. */
  lemma {:induction false} NoOrderAfterTheLatch(w: World, steps: seq<Step>)
    requires w.store.killSwitch.latched
    ensures Run(w, steps).store.killSwitch.latched && SameOrders(w, Run(w, steps))
    decreases |steps|
  {
    hide Apply, NoFaults;
    if steps != [] {
      LatchedStepOrders(w, steps[0]);
      StepOnlyGrows(w, steps[0]);
      NoOrderAfterTheLatch(Apply(w, steps[0]), steps[1..]);
    }
  }
}
