/**
 The trading store as a value: what each storage and adapter operation does, with a fault and a delay
 allowed at every I/O. The class in Storage.dfy is proved to behave exactly like these functions.
 */
module StorageSpec {
  import opened Basics
  import opened JsStrings
  import opened TradingTypes

  /** A failing write may fail before or after it took effect. */
  datatype Fault = Fine | ThrowsBefore | ThrowsAfter
  datatype Io = Io(fault: Fault, elapsed: nat)

  datatype Store = Store(
    policyState: LoadedPolicy, runtime: Runtime, killSwitch: KillSwitch,
    intentions: map<string, Intention>, approvals: map<string, Approval>,
    journal: seq<JournalEntry>, incidents: seq<Incident>, lock: Option<Lock>)

  /** A call of `placeLimitOrder`, with the state of the store at the moment of the call. */
  datatype Placement = Placement(
    key: string, intention: Intention, policyState: LoadedPolicy, killSwitch: KillSwitch, runtime: Runtime,
    snapshot: Snapshot, approval: Option<Approval>, approvalKey: Option<string>, gateAt: int, at: int)

  /**
   What writes that threw without taking effect left undone: for each live attempt whose latch was lost, the key of
   its record if that was still open, the key of its approval if that was still unused, and one order if that was
   missing from the runtime; and the number of locks not released.
   */
  datatype Losses = Losses(records: multiset<string>, orders: nat, approvals: multiset<string>, releases: nat)

  const NO_LOSSES := Losses(multiset{}, 0, multiset{}, 0)

  /** What happened so far; nothing in the original reads it. */
  datatype History = History(
    placements: seq<Placement>, cancelAlls: nat,
    stagings: seq<string>,      // keys of the accepted stagings
    references: set<string>,    // approval references that came with accepted stagings
    approved: set<string>,      // keys whose record the human approved
    faulted: bool,              // some I/O threw
    lost: Losses,
    reused: multiset<string>,   // keys of generated approval ids that were already in use
    foreignSnapshot: bool,      // a snapshot's order lists were not those of the stored runtime
    sawLive: bool, sawPaper: bool)  // modes of the enabled policies that were in force

  /** Of a freshly initialised store under the policy `p`. */
  function FirstHistory(p: Policy): History {
    History([], 0, [], {}, {}, false, NO_LOSSES, multiset{}, false, p.enabled && p.mode.Live?,
            p.enabled && p.mode.Paper?)
  }

  datatype World = World(store: Store, now: int, script: seq<Io>, history: History)

  /** The result of an asynchronous operation: the world after it, and a value unless it threw. */
  datatype Outcome<+T> = Done(world: World, value: T) | Threw(world: World) {
    predicate IsFailure() { Threw? }
    function PropagateFailure<U>(): Outcome<U> requires Threw? { Threw(world) }
    function Extract(): (World, T) requires Done? { (world, value) }
  }

  function NextFault(w: World): Fault {
    if w.script == [] then Fine else w.script[0].fault
  }

  function Elapse(w: World): World {
    if w.script == [] then w
    else w.(now := w.now + w.script[0].elapsed, script := w.script[1..],
            history := w.history.(faulted := w.history.faulted || w.script[0].fault != Fine))
  }

  /** One write. */
  function Commit(w: World, store: Store): Outcome<()> {
    match NextFault(w)
    case Fine => Done(Elapse(w).(store := store), ())
    case ThrowsBefore => Threw(Elapse(w))
    case ThrowsAfter => Threw(Elapse(w).(store := store))
  }

  /** One call that changes nothing in the store: directory creation, listing, a read, a notification. */
  function Touch(w: World): Outcome<()> {
    if NextFault(w).Fine? then Done(Elapse(w), ()) else Threw(Elapse(w))
  }

  /** The history notes the mode of every enabled policy that reached the store. */
  function WritePolicyState(w: World, loaded: LoadedPolicy): Outcome<()> {
    var r := Commit(w, w.store.(policyState := loaded));
    if NextFault(w).ThrowsBefore? then r
    else
      var h := r.world.history;
      var w1 := r.world.(history := h.(sawLive := h.sawLive || (loaded.policy.enabled && loaded.policy.mode.Live?),
                                       sawPaper := h.sawPaper || (loaded.policy.enabled && loaded.policy.mode.Paper?)));
      if r.Done? then Done(w1, ()) else Threw(w1)
  }

  function WriteRuntime(w: World, runtime: Runtime): Outcome<()> {
    Commit(w, w.store.(runtime := runtime))
  }

  function SaveIntention(w: World, intention: Intention): Outcome<()> {
    match SafeId(intention.id)
    case None => Threw(w)
    case Some(key) => Commit(w, w.store.(intentions := w.store.intentions[key := intention]))
  }

  function SaveApproval(w: World, approval: Approval): Outcome<()> {
    match SafeId(approval.id)
    case None => Threw(w)
    case Some(key) => Commit(w, w.store.(approvals := w.store.approvals[key := approval]))
  }

  function ReadIntention(w: World, id: string): Outcome<Option<Intention>> {
    match SafeId(id)
    case None => Threw(w)
    case Some(key) =>
      var (w1, _) :- Touch(w);
      Done(w1, if key in w1.store.intentions then Some(w1.store.intentions[key]) else None)
  }

  function ReadApproval(w: World, id: Option<string>): Outcome<Option<Approval>> {
    if id.None? || id.value == "" then Done(w, None)
    else
      match SafeId(id.value)
      case None => Threw(w)
      case Some(key) =>
        var (w1, _) :- Touch(w);
        Done(w1, if key in w1.store.approvals then Some(w1.store.approvals[key]) else None)
  }

  /** The journal line is written first, then the runtime is read back and stamped. */
  function AppendJournal(w: World, kind: JournalKind, intentionId: Option<string>): Outcome<()> {
    var entry := JournalEntry(kind, intentionId, w.now);
    var (w1, _) :- Commit(w, w.store.(journal := w.store.journal + [entry]));
    Commit(w1, w1.store.(runtime := w1.store.runtime.(lastJournalAt := Some(entry.timestamp))))
  }

  function AppendIncident(w: World, incident: Incident): Outcome<()> {
    Commit(w, w.store.(incidents := w.store.incidents + [incident]))
  }

  function Latched(k: KillSwitch, cause: LatchCause, now: int): KillSwitch {
    k.(latched := true, latchedAt := if k.latchedAt.Some? then k.latchedAt else Some(now), reason := Some(cause))
  }

  predicate Closed(st: Store, key: string) {
    key in st.intentions && st.intentions[key].status.Executed?
  }

  predicate Spent(st: Store, key: string) {
    key in st.approvals && st.approvals[key].usedAt.Some?
  }

  predicate LeavesRecord(h: History, st: Store) {
    h.placements != [] && !Closed(st, h.placements[|h.placements| - 1].key)
  }

  predicate LeavesOrder(h: History, st: Store) {
    h.placements != [] && |st.runtime.openOrders| <= |h.placements[|h.placements| - 1].runtime.openOrders|
  }

  predicate LeavesApproval(h: History, st: Store) {
    h.placements != [] &&
    var used := h.placements[|h.placements| - 1].approvalKey;
    used.Some? && !Spent(st, used.value)
  }

  function LeftBy(h: History, st: Store): Losses {
    Losses(if LeavesRecord(h, st) then multiset{h.placements[|h.placements| - 1].key} else multiset{},
           if LeavesOrder(h, st) then 1 else 0,
           if LeavesApproval(h, st) then multiset{h.placements[|h.placements| - 1].approvalKey.value} else multiset{},
           0)
  }

  /** A lost latch leaves undone what the live attempt that asked for it had not done. */
  function NoteLoss(h: History, st: Store, cause: LatchCause): (r: History)
    ensures r == h.(lost := r.lost)
  {
    var left := if cause.LiveOrderException? then LeftBy(h, st) else NO_LOSSES;
    h.(lost := Losses(h.lost.records + left.records, h.lost.orders + left.orders, h.lost.approvals + left.approvals,
                      h.lost.releases))
  }

  function LatchKillSwitch(w: World, cause: LatchCause): Outcome<()> {
    var r := Commit(w, w.store.(killSwitch := Latched(w.store.killSwitch, cause, w.now)));
    if NextFault(w).ThrowsBefore? then Threw(r.world.(history := NoteLoss(r.world.history, w.store, cause))) else r
  }

  /** A lock blocks only while its expiry lies strictly in the future. */
  predicate LockBlocks(lock: Option<Lock>, now: int) {
    lock.Some? && lock.value.expiresAt > now
  }

  function AcquireLock(w: World, ttl: int): Outcome<bool> {
    if LockBlocks(w.store.lock, w.now) then Done(w, false)
    else
      var (w1, _) :- Commit(w, w.store.(lock := Some(Lock(w.now + ttl))));
      Done(w1, true)
  }

  function NoteUnreleased(h: History): History {
    h.(lost := h.lost.(releases := h.lost.releases + 1))
  }

  function ReleaseLock(w: World): Outcome<()> {
    if w.store.lock.None? then Done(w, ())
    else
      var r := Commit(w, w.store.(lock := Some(Lock(0))));
      if NextFault(w).ThrowsBefore? then Threw(r.world.(history := NoteUnreleased(r.world.history)))
      else r
  }

  // ------------------------------------------------------------------ listing

  function PathOf(key: string): string {
    key + ".json"
  }

  predicate PathLeq(a: string, b: string) {
    LexLeq(PathOf(a), PathOf(b))
  }

  lemma FirstKeyExists(keys: set<string>)
    requires keys != {}
    ensures exists k :: k in keys && forall o :: o in keys ==> PathLeq(k, o)
  {
    var names := set k | k in keys :: PathOf(k);
    var some :| some in keys;
    assert PathOf(some) in names;
    FirstExists(names);
    var n :| n in names && forall o :: o in names ==> LexLeq(n, o);
    var k :| k in keys && PathOf(k) == n;
    assert forall o :: o in keys ==> PathOf(o) in names;
  }

  lemma PathAntisymmetric(a: string, b: string)
    requires PathLeq(a, b) && PathLeq(b, a)
    ensures a == b
  {
    LexAntisymmetric(PathOf(a), PathOf(b));
    assert a == PathOf(a)[..|PathOf(a)| - 5] && b == PathOf(b)[..|PathOf(b)| - 5];
  }

  ghost function FirstKey(keys: set<string>): (k: string)
    requires keys != {}
    ensures k in keys && forall o :: o in keys ==> PathLeq(k, o)
  {
    FirstKeyExists(keys);
    var k :| k in keys && forall o :: o in keys ==> PathLeq(k, o);
    k
  }

  /** The stored records in the order of their sorted file names. */
  ghost function Listing(intentions: map<string, Intention>, keys: set<string>): (r: seq<Intention>)
    requires keys <= intentions.Keys
    decreases |keys|
  {
    if keys == {} then []
    else
      var first := FirstKey(keys);
      [intentions[first]] + Listing(intentions, keys - {first})
  }

  lemma {:induction false} ListingMember(intentions: map<string, Intention>, keys: set<string>, i: Intention)
    requires keys <= intentions.Keys
    ensures i in Listing(intentions, keys) <==> exists k :: k in keys && intentions[k] == i
    decreases |keys|
  {
    if keys != {} {
      var first := FirstKey(keys);
      ListingMember(intentions, keys - {first}, i);
      assert Listing(intentions, keys) == [intentions[first]] + Listing(intentions, keys - {first});
    }
  }

  ghost function ListIntentions(w: World): Outcome<seq<Intention>> {
    var (w1, _) :- Touch(w);
    Done(w1, Listing(w1.store.intentions, w1.store.intentions.Keys))
  }

  // ------------------------------------------------------------------ adapter calls

  /** Whatever the exchange and the runtime provider answer in one tick. */
  datatype TickInput = TickInput(snapshot: Snapshot, reconcileRequired: bool, later: Snapshot, approvalId: string)

  /** The shown adapter takes both order lists from the stored runtime. */
  predicate OwnOrders(s: Snapshot, r: Runtime) {
    s.openOrders == r.openOrders && s.localOpenOrders == r.openOrders
  }

  /** The snapshot the shown adapter assembles: only status, markets and equity come from the exchange. */
  function ShownSnapshot(r: Runtime, status: ExchangeStatus, market: map<string, Market>,
                         equity: Option<real>): Snapshot
  {
    Snapshot(r.adapterHealthy, status, market, equity, r.dailyRealizedPnl, r.weeklyRealizedPnl, r.openOrders, 0,
             r.openOrders, false, r.apiErrorCount)
  }

  function GetRuntimeSnapshot(w: World, s: Snapshot): Outcome<Snapshot> {
    var (w1, _) :- Touch(w);
    var foreign := w1.history.foreignSnapshot || !OwnOrders(s, w1.store.runtime);
    Done(w1.(history := w1.history.(foreignSnapshot := foreign)), s)
  }

  function CallOf(w: World, i: Intention, s: Snapshot, approval: Option<Approval>, gateAt: int): Placement
    requires SafeId(i.id).Some?
  {
    var needed := i.mode.Live? && w.store.policyState.policy.live.requiresHumanApproval;
    var approvalKey := if needed && i.humanApprovalId.Some? then SafeId(i.humanApprovalId.value) else None;
    Placement(SafeId(i.id).value, i, w.store.policyState, w.store.killSwitch, w.store.runtime, s, approval,
      approvalKey, gateAt, w.now)
  }

  /** Every attempt counts, whether or not the exchange answered. */
  function PlaceLimitOrder(w: World, i: Intention, s: Snapshot, approval: Option<Approval>,
                           gateAt: int): Outcome<string>
    requires SafeId(i.id).Some?
  {
    var w1 := Elapse(w);
    var w2 := w1.(history := w1.history.(placements := w1.history.placements + [CallOf(w, i, s, approval, gateAt)]));
    if NextFault(w).Fine? then Done(w2, Take("metidos-" + i.id, 60)) else Threw(w2)
  }

  /** The caller swallows any exception. */
  function CancelAllOrders(w: World): World {
    var w1 := Elapse(w);
    w1.(history := w1.history.(cancelAlls := w1.history.cancelAlls + 1))
  }
}
