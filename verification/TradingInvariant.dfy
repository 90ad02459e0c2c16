/** What every step of the trading engine keeps, and the proof that each operation keeps it. */
module TradingInvariant {
  import opened Basics
  import opened JsStrings
  import opened TradingTypes
  import opened TradingSafety
  import opened StorageSpec
  import opened OpsSpec
  import PolicyLoader

  predicate Pending(s: Status) {
    s.Staged? || s.ApprovalRequested? || s.Approved?
  }

  function KeyOf(id: string): string {
    if SafeId(id).Some? then SafeId(id).value else ""
  }

  function PlacedKeys(ps: seq<Placement>): seq<string> {
    seq(|ps|, i requires 0 <= i < |ps| => ps[i].key)
  }

  function PaperKeys(os: seq<PaperOrder>): seq<string> {
    seq(|os|, i requires 0 <= i < |os| => KeyOf(os[i].intentionId))
  }

  function Kinds(journal: seq<JournalEntry>): seq<JournalKind> {
    seq(|journal|, i requires 0 <= i < |journal| => journal[i].kind)
  }

  // ------------------------------------------------------------------ the invariant

  ghost predicate KeysMatch(st: Store) {
    && (forall k :: k in st.intentions ==> SafeId(st.intentions[k].id) == Some(k))
    && (forall k :: k in st.approvals ==> SafeId(st.approvals[k].id) == Some(k))
  }

  ghost predicate DatesValid(st: Store) {
    forall k :: k in st.intentions && Pending(st.intentions[k].status) ==>
      st.intentions[k].createdAt.At? && st.intentions[k].expiresAt.At?
  }

  ghost predicate PolicyInForce(ps: LoadedPolicy, sawLive: bool, sawPaper: bool) {
    && PolicyLoader.BoundedOrDisabled(ps)
    && (ps.policy.enabled && ps.policy.mode.Live? ==> sawLive)
    && (ps.policy.enabled && ps.policy.mode.Paper? ==> sawPaper)
  }

  /** Everything that must have held when a live order was sent. */
  ghost predicate Justified(p: Placement) {
    && p.policyState.valid && p.policyState.policy.enabled && PolicyLoader.WithinBounds(p.policyState.policy)
    && !p.killSwitch.latched && !p.killSwitch.panic
    && SafeSystem(p.policyState.policy, p.runtime, p.snapshot, p.gateAt) && p.gateAt <= p.at
    && Acceptable(p.intention, p.approval, p.policyState.policy, p.snapshot, p.at)
    && p.intention.mode.Live? && SafeId(p.intention.id) == Some(p.key)
    && (p.policyState.policy.live.requiresHumanApproval <==> p.approvalKey.Some?)
    && (p.approvalKey.Some? ==>
          p.intention.humanApprovalId.Some? && SafeId(p.intention.humanApprovalId.value) == p.approvalKey)
  }

  ghost predicate AllJustified(ps: seq<Placement>) {
    forall i :: 0 <= i < |ps| ==> Justified(ps[i])
  }

  function UsedKeys(ps: seq<Placement>): seq<Option<string>> {
    seq(|ps|, i requires 0 <= i < |ps| => ps[i].approvalKey)
  }

  /** The live orders an approval has backed. */
  function OrdersUnder(ps: seq<Placement>, k: string): nat {
    multiset(UsedKeys(ps))[Some(k)]
  }

  function OpenApproval(st: Store, k: string): nat {
    if !Spent(st, k) && !st.killSwitch.latched then 1 else 0
  }

  ghost predicate ApprovedOnceAt(st: Store, ps: seq<Placement>, spare: multiset<string>, k: string) {
    OrdersUnder(ps, k) + OpenApproval(st, k) <= 1 + spare[k]
  }

  /** Orders under an approval, plus the one it may still back, never exceed one and what losses and reuse gave back. */
  ghost predicate ApprovedOnce(st: Store, ps: seq<Placement>, spare: multiset<string>) {
    forall k: string :: ApprovedOnceAt(st, ps, spare, k)
  }

  function Spare(h: History): multiset<string> {
    h.lost.approvals + h.reused
  }

  function OrdersOf(st: Store, ps: seq<Placement>, k: string): nat {
    multiset(PaperKeys(st.runtime.paperOrders))[k] + multiset(PlacedKeys(ps))[k]
  }

  function OpenTurn(st: Store, k: string): nat {
    if k in st.intentions && Pending(st.intentions[k].status) && !st.killSwitch.latched then 1 else 0
  }

  ghost predicate BalancedAt(st: Store, ps: seq<Placement>, turns: multiset<string>, k: string) {
    OrdersOf(st, ps, k) + OpenTurn(st, k) <= turns[k]
  }

  /** Orders of a key, plus the one its pending record may still cause, never exceed its turns. */
  ghost predicate Balanced(st: Store, ps: seq<Placement>, turns: multiset<string>) {
    forall k: string :: BalancedAt(st, ps, turns, k)
  }

  /** A key has one turn for each accepted staging, and one more for each loss that left its record open. */
  function Turns(h: History): multiset<string> {
    multiset(h.stagings) + h.lost.records
  }

  ghost predicate Capped(st: Store, ps: seq<Placement>, lost: nat, sawPaper: bool) {
    && |ps| <= |st.runtime.openOrders| + lost + (if st.killSwitch.latched then 1 else 0)
    && |ps| <= PolicyLoader.MAX_OPEN_ORDERS + lost
    && (!sawPaper ==> |ps| <= 1 + lost)
  }

  /** No stored approval reaches further than its time to live. */
  ghost predicate Fresh(st: Store, now: int) {
    forall k :: k in st.approvals ==> st.approvals[k].expiresAt <= now + APPROVAL_TTL_MS
  }

  ghost predicate BackedBy(st: Store, p: Placement, reused: multiset<string>) {
    p.approvalKey.Some? && reused[p.approvalKey.value] == 0 ==>
      && p.approvalKey.value in st.approvals && p.approval.Some?
      && st.approvals[p.approvalKey.value].expiresAt == p.approval.value.expiresAt
  }

  /** An approval keeps the expiry under which it backed an order. */
  ghost predicate Backing(st: Store, ps: seq<Placement>, reused: multiset<string>) {
    forall i :: 0 <= i < |ps| ==> BackedBy(st, ps[i], reused)
  }

  /** Where an executable record comes from: the human approved its key, or staging gave it its reference. */
  predicate Traced(i: Intention, key: string, approved: set<string>, references: set<string>) {
    && (i.status.Approved? ==> key in approved)
    && (i.status.Staged? && i.humanApprovalId.Some? ==> i.humanApprovalId.value in references)
  }

  ghost predicate Provenance(st: Store, ps: seq<Placement>, approved: set<string>, references: set<string>) {
    && (forall k :: k in st.intentions ==> Traced(st.intentions[k], k, approved, references))
    && (forall i :: 0 <= i < |ps| ==> Traced(ps[i].intention, ps[i].key, approved, references))
  }

  ghost predicate PaperOnly(st: Store, ps: seq<Placement>, cancelAlls: nat) {
    && ps == [] && cancelAlls == 0
    && forall k :: k in st.intentions && Pending(st.intentions[k].status) ==> st.intentions[k].mode.Paper?
  }

  function Newest(journal: seq<JournalEntry>): Option<int> {
    if journal == [] then None else Some(journal[|journal| - 1].timestamp)
  }

  /** The journal against the books, with `live` and `paper` orders recorded but not yet journalled. */
  ghost predicate CountsAgree(journal: seq<JournalEntry>, runtime: Runtime, live: nat, paper: nat) {
    && multiset(Kinds(journal))[LiveOrderEntry] + live == |runtime.openOrders|
    && multiset(Kinds(journal))[PaperOrderEntry] + paper == |runtime.paperOrders|
  }

  ghost predicate Books(st: Store) {
    CountsAgree(st.journal, st.runtime, 0, 0) && st.runtime.lastJournalAt == Newest(st.journal)
  }

  ghost predicate InvCore(w: World) {
    && KeysMatch(w.store) && DatesValid(w.store)
    && PolicyInForce(w.store.policyState, w.history.sawLive, w.history.sawPaper)
    && w.store.runtime.lastPrivateStreamAt.None?
    && AllJustified(w.history.placements)
    && ApprovedOnce(w.store, w.history.placements, Spare(w.history))
    && Balanced(w.store, w.history.placements, Turns(w.history))
    && (!w.history.foreignSnapshot ==>
          Capped(w.store, w.history.placements, w.history.lost.orders, w.history.sawPaper))
    && (!w.history.sawLive ==> PaperOnly(w.store, w.history.placements, w.history.cancelAlls))
    && Fresh(w.store, w.now) && Backing(w.store, w.history.placements, w.history.reused)
    && Provenance(w.store, w.history.placements, w.history.approved, w.history.references)
  }

  ghost predicate Inv(w: World) {
    InvCore(w) && (!w.history.faulted ==> Books(w.store))
  }

  /** The part of the world that only placing, recording, latching or refreshing changes. */
  ghost predicate Steady(w: World, w': World) {
    && w'.store.policyState == w.store.policyState && w'.store.killSwitch == w.store.killSwitch
    && w'.store.runtime.openOrders == w.store.runtime.openOrders
    && w'.store.runtime.paperOrders == w.store.runtime.paperOrders
    && w.now <= w'.now && (w.history.foreignSnapshot ==> w'.history.foreignSnapshot)
  }

  // ------------------------------------------------------------------ edits

  /** `w'` is `w` with its store replaced and some I/O done. */
  ghost predicate Moved(w: World, w': World, store: Store) {
    && w'.store == store && w.now <= w'.now
    && w'.history == w.history.(faulted := w'.history.faulted) && (w.history.faulted ==> w'.history.faulted)
  }

  lemma CommitMoves(w: World, store: Store)
    ensures var r := Commit(w, store);
      && (r.Done? ==> Moved(w, r.world, store) && (w.history.faulted <==> r.world.history.faulted))
      && (r.Threw? ==> r.world.history.faulted && (Moved(w, r.world, store) || Moved(w, r.world, w.store)))
  {
  }

  lemma TouchMoves(w: World)
    ensures Moved(w, Elapse(w), w.store) && Moved(w, Touch(w).world, w.store)
    ensures NextFault(w).Fine? ==> (w.history.faulted <==> Elapse(w).history.faulted)
    ensures !NextFault(w).Fine? ==> Elapse(w).history.faulted
  {
  }

  /** Nothing of the store that the invariant's core is about differs. */
  ghost predicate SameCore(st: Store, st': Store) {
    && st'.policyState == st.policyState && st'.killSwitch == st.killSwitch
    && st'.intentions == st.intentions && st'.approvals == st.approvals
    && st'.runtime.openOrders == st.runtime.openOrders && st'.runtime.paperOrders == st.runtime.paperOrders
    && st'.runtime.lastPrivateStreamAt == st.runtime.lastPrivateStreamAt
  }

  /** The history may note more, as long as it takes nothing back and admits nothing new. */
  ghost predicate NotesMore(h: History, h': History) {
    && h'.placements == h.placements && Turns(h') == Turns(h) && h'.lost.orders == h.lost.orders
    && h'.lost.approvals == h.lost.approvals && h.reused <= h'.reused
    && h.approved <= h'.approved && h.references <= h'.references
    && (h.foreignSnapshot ==> h'.foreignSnapshot) && h'.sawLive == h.sawLive && h'.sawPaper == h.sawPaper
    && (h'.cancelAlls == h.cancelAlls || h.sawLive)
  }

  lemma KeysFrame(st: Store, st': Store)
    requires st'.approvals == st.approvals && st'.intentions == st.intentions
    ensures KeysMatch(st') == KeysMatch(st) && DatesValid(st') == DatesValid(st)
  {
    hide SafeId;
  }

  lemma ApprovalsFrame(st: Store, st': Store, ps: seq<Placement>, spare: multiset<string>, spare': multiset<string>)
    requires st'.approvals == st.approvals && st'.killSwitch == st.killSwitch && spare <= spare'
    requires ApprovedOnce(st, ps, spare)
    ensures ApprovedOnce(st', ps, spare')
  {
    hide UsedKeys;
    assert forall k :: ApprovedOnceAt(st, ps, spare, k) ==> ApprovedOnceAt(st', ps, spare', k);
  }

  lemma BackingFrame(st: Store, st': Store, ps: seq<Placement>, reused: multiset<string>, reused': multiset<string>,
                     now: int, now': int)
    requires st'.approvals == st.approvals && reused <= reused' && now <= now'
    ensures (Backing(st, ps, reused) ==> Backing(st', ps, reused')) && (Fresh(st, now) ==> Fresh(st', now'))
  {
  }

  lemma BalancedFrame(st: Store, st': Store, ps: seq<Placement>, turns: multiset<string>)
    requires st'.runtime.paperOrders == st.runtime.paperOrders && st'.killSwitch == st.killSwitch
    requires st'.intentions == st.intentions && Balanced(st, ps, turns)
    ensures Balanced(st', ps, turns)
  {
    hide PaperKeys, PlacedKeys;
    assert forall k :: BalancedAt(st, ps, turns, k) ==> BalancedAt(st', ps, turns, k);
  }

  lemma CappedFrame(st: Store, st': Store, ps: seq<Placement>, lost: nat, sawPaper: bool)
    requires |st'.runtime.openOrders| == |st.runtime.openOrders| && st'.killSwitch == st.killSwitch
    ensures Capped(st', ps, lost, sawPaper) == Capped(st, ps, lost, sawPaper)
  {
  }

  lemma RecordsFrame(st: Store, st': Store, h: History, h': History)
    requires st'.intentions == st.intentions && NotesMore(h, h')
    ensures Provenance(st, h.placements, h.approved, h.references) ==>
            Provenance(st', h'.placements, h'.approved, h'.references)
    ensures PaperOnly(st, h.placements, h.cancelAlls) && !h.sawLive ==> PaperOnly(st', h'.placements, h'.cancelAlls)
  {
  }

  /** Writes and notes that leave the core of the store alone keep the invariant. */
  lemma FrameKeeps(w: World, w': World)
    requires InvCore(w) && SameCore(w.store, w'.store) && NotesMore(w.history, w'.history) && w.now <= w'.now
    ensures InvCore(w') && Steady(w, w')
    ensures
      (&& Inv(w) && (w.history.faulted ==> w'.history.faulted) && w'.store.journal == w.store.journal
       && w'.store.runtime.lastJournalAt == w.store.runtime.lastJournalAt) ==> Inv(w')
  {
    hide KeysMatch, DatesValid, PolicyInForce, AllJustified, ApprovedOnce, Balanced, Capped, PaperOnly, Fresh, Backing,
      Provenance, Kinds, Turns;
    var h, h', ps := w.history, w'.history, w.history.placements;
    KeysFrame(w.store, w'.store);
    ApprovalsFrame(w.store, w'.store, ps, Spare(h), Spare(h'));
    BackingFrame(w.store, w'.store, ps, h.reused, h'.reused, w.now, w'.now);
    BalancedFrame(w.store, w'.store, ps, Turns(h));
    CappedFrame(w.store, w'.store, ps, h.lost.orders, h.sawPaper);
    RecordsFrame(w.store, w'.store, h, h');
  }

  lemma MovedNotes(w: World, w': World, store: Store)
    requires Moved(w, w', store)
    ensures NotesMore(w.history, w'.history) && w.now <= w'.now && (w.history.faulted ==> w'.history.faulted)
  {
  }

  lemma IdleKeeps(w: World, w': World)
    requires InvCore(w) && Moved(w, w', w.store)
    ensures InvCore(w') && (Inv(w) ==> Inv(w')) && Steady(w, w')
  {
    hide InvCore, Books, NotesMore, Moved;
    MovedNotes(w, w', w.store);
    assert w'.store == w.store by { MovedStore(w, w', w.store); }
    FrameKeeps(w, w');
  }

  lemma MovedStore(w: World, w': World, store: Store)
    requires Moved(w, w', store)
    ensures w'.store == store
  {
  }

  /** A record may be rewritten as long as it does not become pending, or executable in another form, again. */
  predicate NoNewTurn(st: Store, key: string, i: Intention) {
    && (Pending(i.status) ==>
          && key in st.intentions && Pending(st.intentions[key].status) && i.mode == st.intentions[key].mode
          && i.createdAt == st.intentions[key].createdAt && i.expiresAt == st.intentions[key].expiresAt)
  }

  lemma RewrittenStore(st: Store, key: string, i: Intention, ps: seq<Placement>, cancelAlls: nat)
    requires SafeId(i.id) == Some(key) && NoNewTurn(st, key, i) && KeysMatch(st) && DatesValid(st)
    ensures var st' := st.(intentions := st.intentions[key := i]);
      KeysMatch(st') && DatesValid(st') && (PaperOnly(st, ps, cancelAlls) ==> PaperOnly(st', ps, cancelAlls))
  {
    hide SafeId;
  }

  lemma RewritingOpensNoTurn(st: Store, key: string, i: Intention, ps: seq<Placement>, turns: multiset<string>)
    requires NoNewTurn(st, key, i) && Balanced(st, ps, turns)
    ensures Balanced(st.(intentions := st.intentions[key := i]), ps, turns)
  {
    hide PaperKeys, PlacedKeys;
    var st' := st.(intentions := st.intentions[key := i]);
    assert forall k :: BalancedAt(st, ps, turns, k) ==> BalancedAt(st', ps, turns, k);
  }

  lemma TracedStore(st: Store, key: string, i: Intention, ps: seq<Placement>, approved: set<string>, refs: set<string>)
    requires Provenance(st, ps, approved, refs) && Traced(i, key, approved, refs)
    ensures Provenance(st.(intentions := st.intentions[key := i]), ps, approved, refs)
  {
    hide Traced;
  }

  lemma IntentionKeeps(w: World, w': World, key: string, i: Intention)
    requires InvCore(w) && SafeId(i.id) == Some(key) && NoNewTurn(w.store, key, i)
    requires Traced(i, key, w.history.approved, w.history.references)
    requires Moved(w, w', w.store.(intentions := w.store.intentions[key := i]))
    ensures InvCore(w') && (Inv(w) ==> Inv(w')) && Steady(w, w')
  {
    hide SafeId, KeysMatch, DatesValid, PolicyInForce, AllJustified, ApprovedOnce, Balanced, Capped, PaperOnly, Fresh,
      Backing, Provenance, CountsAgree, NoNewTurn, Traced;
    var h := w.history;
    RewrittenStore(w.store, key, i, h.placements, h.cancelAlls);
    RewritingOpensNoTurn(w.store, key, i, h.placements, Turns(h));
    TracedStore(w.store, key, i, h.placements, h.approved, h.references);
    ApprovalsFrame(w.store, w'.store, h.placements, Spare(h), Spare(h));
    BackingFrame(w.store, w'.store, h.placements, h.reused, h.reused, w.now, w'.now);
    CappedFrame(w.store, w'.store, h.placements, h.lost.orders, h.sawPaper);
  }

  /** An approval may be stored if it is used, or if its key has an order to give. */
  lemma ApprovalStored(st: Store, key: string, a: Approval, ps: seq<Placement>, spare: multiset<string>)
    requires ApprovedOnce(st, ps, spare) && (a.usedAt.Some? || OrdersUnder(ps, key) <= spare[key])
    ensures ApprovedOnce(st.(approvals := st.approvals[key := a]), ps, spare)
  {
    hide UsedKeys;
    var st' := st.(approvals := st.approvals[key := a]);
    assert forall k :: ApprovedOnceAt(st, ps, spare, k) ==> ApprovedOnceAt(st', ps, spare, k);
  }

  /** It keeps the expiry of the one it replaces, unless its key was reused, and expires no later than allowed. */
  predicate SameExpiry(st: Store, key: string, a: Approval, reused: multiset<string>, now: int) {
    && (key in st.approvals && reused[key] == 0 ==> a.expiresAt == st.approvals[key].expiresAt)
    && a.expiresAt <= now + APPROVAL_TTL_MS
  }

  lemma ApprovalDated(st: Store, key: string, a: Approval, ps: seq<Placement>, reused: multiset<string>,
                      now: int, now': int)
    requires Fresh(st, now) && Backing(st, ps, reused) && SameExpiry(st, key, a, reused, now) && now <= now'
    ensures var st' := st.(approvals := st.approvals[key := a]); Fresh(st', now') && Backing(st', ps, reused)
  {
  }

  lemma ApprovalKeyed(st: Store, key: string, a: Approval)
    requires KeysMatch(st) && SafeId(a.id) == Some(key)
    ensures KeysMatch(st.(approvals := st.approvals[key := a]))
  {
    hide SafeId;
  }

  lemma ApprovalKeeps(w: World, w': World, key: string, a: Approval)
    requires InvCore(w) && SafeId(a.id) == Some(key) && SameExpiry(w.store, key, a, w.history.reused, w.now)
    requires a.usedAt.Some? || OrdersUnder(w.history.placements, key) <= Spare(w.history)[key]
    requires Moved(w, w', w.store.(approvals := w.store.approvals[key := a]))
    ensures InvCore(w') && (Inv(w) ==> Inv(w')) && Steady(w, w')
  {
    hide SafeId, KeysMatch, PolicyInForce, AllJustified, ApprovedOnce, Balanced, Capped, PaperOnly, Fresh, Backing,
      Provenance, CountsAgree, SameExpiry, OrdersUnder;
    var h, ps := w.history, w.history.placements;
    ApprovalKeyed(w.store, key, a);
    ApprovalStored(w.store, key, a, ps, Spare(h));
    ApprovalDated(w.store, key, a, ps, h.reused, w.now, w'.now);
    BalancedFrame(w.store, w'.store, ps, Turns(h));
    CappedFrame(w.store, w'.store, ps, h.lost.orders, h.sawPaper);
    RecordsFrame(w.store, w'.store, h, h);
  }

  lemma LatchingBalances(st: Store, k: KillSwitch, ps: seq<Placement>, turns: multiset<string>, spare: multiset<string>)
    requires Balanced(st, ps, turns) && ApprovedOnce(st, ps, spare) && k.latched
    ensures Balanced(st.(killSwitch := k), ps, turns) && ApprovedOnce(st.(killSwitch := k), ps, spare)
  {
    hide PaperKeys, PlacedKeys, UsedKeys;
    var st' := st.(killSwitch := k);
    assert forall key :: BalancedAt(st, ps, turns, key) ==> BalancedAt(st', ps, turns, key);
    assert forall key :: ApprovedOnceAt(st, ps, spare, key) ==> ApprovedOnceAt(st', ps, spare, key);
  }

  lemma LatchKeeps(w: World, w': World, k: KillSwitch)
    requires InvCore(w) && k.latched
    requires Moved(w, w', w.store.(killSwitch := k))
    ensures InvCore(w') && (Inv(w) ==> Inv(w'))
  {
    hide KeysMatch, DatesValid, PolicyInForce, AllJustified, ApprovedOnce, Balanced, PaperOnly, Fresh, Backing,
      Provenance, CountsAgree;
    var h, ps := w.history, w.history.placements;
    KeysFrame(w.store, w'.store);
    LatchingBalances(w.store, k, ps, Turns(h), Spare(h));
    BackingFrame(w.store, w'.store, ps, h.reused, h.reused, w.now, w'.now);
    RecordsFrame(w.store, w'.store, h, h);
  }

  // ------------------------------------------------------------------ operations

  lemma SaveIntentionKeeps(w: World, i: Intention)
    requires InvCore(w) && !Executable(i) && (SafeId(i.id).Some? ==> NoNewTurn(w.store, SafeId(i.id).value, i))
    ensures var w' := SaveIntention(w, i).world; InvCore(w') && (Inv(w) ==> Inv(w')) && Steady(w, w')
  {
    hide InvCore, SafeId;
    var w' := SaveIntention(w, i).world;
    if SafeId(i.id).Some? {
      var key := SafeId(i.id).value;
      var store := w.store.(intentions := w.store.intentions[key := i]);
      CommitMoves(w, store);
      if Moved(w, w', store) { IntentionKeeps(w, w', key, i); } else { IdleKeeps(w, w'); }
    }
  }

  predicate OrderKind(kind: JournalKind) {
    kind.LiveOrderEntry? || kind.PaperOrderEntry?
  }

  lemma KindsAppend(journal: seq<JournalEntry>, e: JournalEntry)
    ensures multiset(Kinds(journal + [e])) == multiset(Kinds(journal))[e.kind := multiset(Kinds(journal))[e.kind] + 1]
  {
    assert Kinds(journal + [e]) == Kinds(journal) + [e.kind];
  }

  /** Journalling an order settles the books; any other entry leaves them settled. */
  lemma AppendJournalBooks(w: World, kind: JournalKind, id: Option<string>)
    requires !w.history.faulted ==>
      CountsAgree(w.store.journal, w.store.runtime, if kind.LiveOrderEntry? then 1
        else 0, if kind.PaperOrderEntry? then 1 else 0)
    ensures var w' := AppendJournal(w, kind, id).world; !w'.history.faulted ==> Books(w'.store)
  {
    var entry := JournalEntry(kind, id, w.now);
    KindsAppend(w.store.journal, entry);
    var store := w.store.(journal := w.store.journal + [entry]);
    CommitMoves(w, store);
    var r1 := Commit(w, store);
    if r1.Done? {
      var runtime := r1.world.store.runtime.(lastJournalAt := Some(entry.timestamp));
      CommitMoves(r1.world, r1.world.store.(runtime := runtime));
      hide Commit, Kinds;
      assert Newest(store.journal) == Some(entry.timestamp);
    }
  }

  lemma AppendJournalKeeps(w: World, kind: JournalKind, id: Option<string>)
    requires InvCore(w)
    requires !w.history.faulted ==>
      CountsAgree(w.store.journal, w.store.runtime, if kind.LiveOrderEntry? then 1
        else 0, if kind.PaperOrderEntry? then 1 else 0)
    ensures var w' := AppendJournal(w, kind, id).world; Inv(w') && Steady(w, w')
  {
    hide InvCore;
    AppendJournalBooks(w, kind, id);
    var entry := JournalEntry(kind, id, w.now);
    var journal := w.store.journal + [entry];
    var store := w.store.(journal := journal);
    var r1 := Commit(w, store);
    CommitMoves(w, store);
    FrameKeeps(w, r1.world);
    if r1.Done? {
      var w1 := r1.world;
      var runtime := w1.store.runtime.(lastJournalAt := Some(entry.timestamp));
      var store1 := w1.store.(runtime := runtime);
      CommitMoves(w1, store1);
      var w2 := Commit(w1, store1).world;
      FrameKeeps(w1, w2);
    }
  }

  lemma QuietJournalKeeps(w: World, kind: JournalKind, id: Option<string>)
    requires Inv(w) && !OrderKind(kind)
    ensures var w' := AppendJournal(w, kind, id).world; Inv(w') && Steady(w, w')
  {
    hide InvCore;
    AppendJournalKeeps(w, kind, id);
  }

  lemma TouchKeeps(w: World)
    requires Inv(w)
    ensures Inv(Touch(w).world) && Steady(w, Touch(w).world) && Inv(Elapse(w)) && Steady(w, Elapse(w))
  {
    TouchMoves(w);
    hide InvCore;
    IdleKeeps(w, Touch(w).world);
    IdleKeeps(w, Elapse(w));
  }

  lemma SnapshotKeeps(w: World, s: Snapshot)
    requires Inv(w)
    ensures var w' := GetRuntimeSnapshot(w, s).world; Inv(w') && Steady(w, w')
  {
    hide InvCore, Books;
    FrameKeeps(w, GetRuntimeSnapshot(w, s).world);
  }

  lemma LatchKillSwitchKeeps(w: World)
    requires InvCore(w)
    ensures var r := LatchKillSwitch(w, UnsafeSystem);
      && InvCore(r.world) && (Inv(w) ==> Inv(r.world))
      && (r.Done? ==> r.world.store.killSwitch.latched) && (r.Threw? ==> r.world.history.faulted)
      && w.now <= r.world.now
  {
    hide InvCore, Books, NoteLoss;
    var latched := Latched(w.store.killSwitch, UnsafeSystem, w.now);
    var store := w.store.(killSwitch := latched);
    CommitMoves(w, store);
    var w' := LatchKillSwitch(w, UnsafeSystem).world;
    if NextFault(w).ThrowsBefore? {
      UnsafeLosesNothing(Elapse(w).history, w.store);
      IdleKeeps(w, w');
    } else {
      LatchKeeps(w, w', latched);
    }
  }

  lemma UnsafeLosesNothing(h: History, st: Store)
    ensures NoteLoss(h, st, UnsafeSystem) == h
  {
    assert h.lost.records + multiset{} == h.lost.records && h.lost.approvals + multiset{} == h.lost.approvals;
  }

  lemma CancelAllKeeps(w: World)
    requires Inv(w) && w.history.sawLive
    ensures Inv(CancelAllOrders(w)) && Steady(w, CancelAllOrders(w))
  {
    hide InvCore, Books;
    FrameKeeps(w, CancelAllOrders(w));
  }

  lemma LatchKeepsModes(w: World, cause: LatchCause)
    ensures LatchKillSwitch(w, cause).world.history.sawLive == w.history.sawLive
  {
    hide NoteLoss, Latched;
  }

  lemma IncidentKeeps(w: World, incident: Incident)
    requires Inv(w)
    ensures Inv(AppendIncident(w, incident).world)
  {
    hide InvCore, Books;
    var store := w.store.(incidents := w.store.incidents + [incident]);
    CommitMoves(w, store);
    var w' := Commit(w, store).world;
    hide Commit;
    FrameKeeps(w, w');
  }

  lemma NoticeKeeps(w: World, kind: JournalKind, id: Option<string>)
    requires Inv(w) && !OrderKind(kind)
    ensures var r := AppendJournal(w, kind, id); Inv(r.world) && Inv(Touch(r.world).world)
  {
    hide Inv, AppendJournal, Touch, Steady;
    QuietJournalKeeps(w, kind, id);
    TouchKeeps(AppendJournal(w, kind, id).world);
  }

  /** Everything after the latch write. */
  lemma AfterLatchKeeps(w: World, cause: LatchCause, live: bool)
    requires Inv(LatchKillSwitch(w, cause).world) && (live ==> w.history.sawLive)
    ensures Inv(LatchCritical(w, cause, live).world)
  {
    hide Inv, LatchKillSwitch, CancelAllOrders, AppendIncident, AppendJournal, Touch, Steady;
    LatchKeepsModes(w, cause);
    var r1 := LatchKillSwitch(w, cause);
    if r1.Done? {
      if live { CancelAllKeeps(r1.world); }
      var w2 := if live then CancelAllOrders(r1.world) else r1.world;
      var incident := Incident(live, cause, w2.now);
      IncidentKeeps(w2, incident);
      NoticeKeeps(AppendIncident(w2, incident).world, KillSwitchEntry, None);
    }
  }

  lemma LatchCriticalKeeps(w: World, live: bool)
    requires Inv(w) && (live ==> w.history.sawLive)
    ensures Inv(LatchCritical(w, UnsafeSystem, live).world)
  {
    hide LatchCritical;
    LatchKillSwitchKeeps(w);
    AfterLatchKeeps(w, UnsafeSystem, live);
  }

  // ------------------------------------------------------------------ the sweep and the refusals

  /** `i` is the stored record of its key and may still be executed. */
  ghost predicate Current(w: World, i: Intention) {
    SafeId(i.id).Some? && SafeId(i.id).value in w.store.intentions && w.store.intentions[SafeId(i.id).value] == i &&
      Executable(i)
  }

  lemma RejectKeeps(w: World, i: Intention)
    requires Inv(w)
    ensures Inv(Reject(w, i).world)
  {
    hide InvCore, SafeId;
    var rejected := i.(status := Rejected);
    SaveIntentionKeeps(w, rejected);
    var r1 := SaveIntention(w, rejected);
    if r1.Done? { QuietJournalKeeps(r1.world, IntentionRejected, Some(i.id)); }
  }

  lemma ReadIntentionKeeps(w: World, id: string)
    requires Inv(w)
    ensures var w' := ReadIntention(w, id).world; Inv(w') && Steady(w, w') && w'.store == w.store
  {
    TouchKeeps(w);
    hide Inv, SafeId;
  }

  lemma SweepHead(m: map<string, Intention>, keys: set<string>, at: int)
    requires keys != {} && keys <= m.Keys
    ensures var list, x := RejectExpired(Listing(m, keys), at), m[FirstKey(keys)];
      && list != [] && list[1..] == RejectExpired(Listing(m, keys - {FirstKey(keys)}), at)
      && list[0] == if x.status.Staged? && x.expiresAt.NotAfter(at) then x.(status := Expired) else x
  {
    assert Listing(m, keys)[1..] == Listing(m, keys - {FirstKey(keys)});
  }

  /** The listed records of `keys` are still the stored ones. */
  ghost predicate StillStored(st: Store, m: map<string, Intention>, keys: set<string>) {
    keys <= m.Keys && forall k :: k in keys ==>
      SafeId(m[k].id) == Some(k) && k in st.intentions && st.intentions[k] == m[k]
  }

  lemma SavedIntention(w: World, i: Intention)
    requires SaveIntention(w, i).Done?
    ensures SafeId(i.id).Some? &&
      SaveIntention(w, i).world.store.intentions == w.store.intentions[SafeId(i.id).value := i]
  {
    hide SafeId;
  }

  lemma JournalLeavesRecords(w: World, kind: JournalKind, id: Option<string>)
    ensures AppendJournal(w, kind, id).world.store.intentions == w.store.intentions
  {
  }

  lemma SweepOneKeeps(w: World, e: Intention)
    requires Inv(w) && !Pending(e.status)
    ensures var r1 := SaveIntention(w, e);
      && Inv(r1.world) && Steady(w, r1.world)
      && (r1.Done? ==>
            var w2 := AppendJournal(r1.world, IntentionRejected, Some(e.id)).world;
            Inv(w2) && Steady(w, w2) && SafeId(e.id).Some? &&
            w2.store.intentions == w.store.intentions[SafeId(e.id).value := e])
  {
    hide InvCore, SafeId, Books;
    SaveIntentionKeeps(w, e);
    var r1 := SaveIntention(w, e);
    if r1.Done? {
      SavedIntention(w, e);
      hide SaveIntention, Commit, Pending;
      QuietJournalKeeps(r1.world, IntentionRejected, Some(e.id));
      JournalLeavesRecords(r1.world, IntentionRejected, Some(e.id));
      hide AppendJournal;
    }
  }

  /** The sweep writes each listed record at most once, so every pending record it meets is the stored one. */
  lemma {:induction false} SweepKeeps(w: World, m: map<string, Intention>, keys: set<string>, at: int)
    requires Inv(w) && StillStored(w.store, m, keys)
    ensures var w' := Sweep(w, RejectExpired(Listing(m, keys), at)).world; Inv(w') && Steady(w, w')
    decreases |keys|
  {
    hide Inv, SafeId, AppendJournal, SaveIntention, Listing, RejectExpired;
    if keys != {} {
      var first := FirstKey(keys);
      var rest := keys - {first};
      var list := RejectExpired(Listing(m, keys), at);
      SweepHead(m, keys, at);
      var e := list[0];
      ReadIntentionKeeps(w, e.id);
      var r1 := ReadIntention(w, e.id);
      if r1.Done? {
        if e != m[first] {
          SweepOneKeeps(r1.world, e);
          var r2 := SaveIntention(r1.world, e);
          if r2.Done? {
            var r3 := AppendJournal(r2.world, IntentionRejected, Some(e.id));
            if r3.Done? { SweepKeeps(r3.world, m, rest, at); }
          }
        } else {
          SweepKeeps(r1.world, m, rest, at);
        }
      }
    } else {
      SweepNothing(w, m, at);
    }
  }

  lemma SweepNothing(w: World, m: map<string, Intention>, at: int)
    ensures Sweep(w, RejectExpired(Listing(m, {}), at)) == Done(w, ())
  {
  }

  lemma ElapseReuse(w: World, st: Store, key: Option<string>)
    ensures var w0 := w.(history := NoteReuse(w.history, st, key));
      Elapse(w0) == Elapse(w).(history := NoteReuse(Elapse(w).history, st, key)) && NextFault(w0) == NextFault(w)
  {
  }

  lemma CommitReuse(w: World, store: Store, st: Store, key: Option<string>)
    ensures var w0, w1 := w.(history := NoteReuse(w.history, st, key)), Commit(w, store).world;
      Commit(w0, store).world == w1.(history := NoteReuse(w1.history, st, key))
  {
    ElapseReuse(w, st, key);
    hide Elapse, NoteReuse;
  }

  lemma SaveApprovalKeeps(w: World, a: Approval)
    requires Inv(w)
    requires SafeId(a.id).Some? ==>
      var key := SafeId(a.id).value;
      && SameExpiry(w.store, key, a, w.history.reused, w.now)
      && (a.usedAt.Some? || OrdersUnder(w.history.placements, key) <= Spare(w.history)[key])
    ensures var w' := SaveApproval(w, a).world; Inv(w') && Steady(w, w') && w'.store.intentions == w.store.intentions
  {
    hide SafeId, InvCore, Books, SameExpiry, OrdersUnder, Spare;
    if SafeId(a.id).Some? {
      var key := SafeId(a.id).value;
      var store := w.store.(approvals := w.store.approvals[key := a]);
      CommitMoves(w, store);
      var w' := SaveApproval(w, a).world;
      if Moved(w, w', store) { ApprovalKeeps(w, w', key, a); } else { IdleKeeps(w, w'); }
    }
  }

  /** A key that is new, or noted as reused, has an order to give while trading is not latched. */
  lemma ReuseGivesBack(w: World, key: string)
    requires InvCore(w) && !w.store.killSwitch.latched
    ensures var h' := NoteReuse(w.history, w.store, Some(key));
      OrdersUnder(w.history.placements, key) <= Spare(h')[key] && (key in w.store.approvals ==> h'.reused[key] > 0)
  {
    hide KeysMatch, DatesValid, PolicyInForce, AllJustified, Balanced, Capped, PaperOnly, Fresh, Backing, Provenance,
      OrdersUnder;
    assert ApprovedOnceAt(w.store, w.history.placements, Spare(w.history), key);
  }

  lemma SaveNewApprovalKeeps(w: World, a: Approval)
    requires Inv(w) && a.usedAt.None? && a.expiresAt <= w.now + APPROVAL_TTL_MS && !w.store.killSwitch.latched
    ensures var w' := SaveNewApproval(w, a).world; Inv(w') && Steady(w, w') && w'.store.intentions == w.store.intentions
  {
    hide SafeId, Inv, InvCore, Commit, OrdersUnder;
    CoreOf(w);
    var w0 := w.(history := NoteReuse(w.history, w.store, SafeId(a.id)));
    FrameKeeps(w, w0);
    assert Inv(w0) by { StillBooked(w, w0); }
    if SafeId(a.id).Some? {
      ReuseGivesBack(w, SafeId(a.id).value);
      CommitReuse(w, w.store.(approvals := w.store.approvals[SafeId(a.id).value := a]), w.store, SafeId(a.id));
    }
    SaveApprovalKeeps(w0, a);
  }

  lemma StillBooked(w: World, w': World)
    requires Inv(w) && InvCore(w') && w'.store == w.store && (w.history.faulted ==> w'.history.faulted)
    ensures Inv(w')
  {
    hide InvCore, Books;
  }

  lemma RequestApprovalKeeps(w: World, env: TickInput, i: Intention, p: Policy)
    requires Inv(w) && Current(w, i) && !w.store.killSwitch.latched
    ensures Inv(RequestApproval(w, env, i, p).world)
  {
    hide InvCore, SafeId, Books;
    SnapshotKeeps(w, env.later);
    var r1 := GetRuntimeSnapshot(w, env.later);
    if r1.Done? {
      var a := NewApproval(i, p, r1.value, env.approvalId, r1.world.now);
      SaveNewApprovalKeeps(r1.world, a);
      var r2 := SaveNewApproval(r1.world, a);
      if r2.Done? {
        var asked := i.(humanApprovalId := Some(env.approvalId), status := ApprovalRequested);
        assert r2.world.store.intentions == w.store.intentions;
        SaveIntentionKeeps(r2.world, asked);
        var r3 := SaveIntention(r2.world, asked);
        if r3.Done? {
          QuietJournalKeeps(r3.world, ApprovalRequestedEntry, Some(i.id));
          var r4 := AppendJournal(r3.world, ApprovalRequestedEntry, Some(i.id));
          if r4.Done? { TouchKeeps(r4.world); }
        }
      }
    }
  }

  lemma RefuseUnsafeKeeps(w: World, p: Policy, critical: bool)
    requires Inv(w) && (p.mode.Live? ==> w.history.sawLive)
    ensures Inv(RefuseUnsafe(w, p, critical).world)
  {
    hide Inv;
    if critical { LatchCriticalKeeps(w, p.mode.Live?); } else { QuietJournalKeeps(w, Halt, None); }
  }

  // ------------------------------------------------------------------ placing orders

  /** What the tick has established when it starts to act. */
  ghost predicate GatePassed(w: World, p: Policy, runtime: Runtime, s: Snapshot, gateAt: int) {
    && w.store.policyState.valid && w.store.policyState.policy == p && p.enabled
    && !w.store.killSwitch.latched && !w.store.killSwitch.panic
    && runtime.openOrders == w.store.runtime.openOrders && runtime.paperOrders == w.store.runtime.paperOrders
    && runtime.lastPrivateStreamAt.None?
    && SafeSystem(p, runtime, s, gateAt) && gateAt <= w.now
    && (OwnOrders(s, runtime) || w.history.foreignSnapshot)
  }

  lemma GateStays(w: World, w': World, p: Policy, runtime: Runtime, s: Snapshot, gateAt: int)
    requires GatePassed(w, p, runtime, s, gateAt) && Steady(w, w')
    ensures GatePassed(w', p, runtime, s, gateAt)
  {
    hide SafeSystem;
  }

  lemma PaperTakesTurn(st: Store, st': Store, ps: seq<Placement>, turns: multiset<string>, o: PaperOrder, key: string)
    requires Balanced(st, ps, turns) && OrdersOf(st, ps, key) + OpenTurn(st, key) < turns[key]
    requires KeyOf(o.intentionId) == key && st'.runtime.paperOrders == st.runtime.paperOrders + [o]
    requires st'.intentions == st.intentions && st'.killSwitch == st.killSwitch
    ensures Balanced(st', ps, turns)
  {
    hide PlacedKeys, KeyOf;
    assert PaperKeys(st'.runtime.paperOrders) == PaperKeys(st.runtime.paperOrders) + [key];
    assert forall k :: BalancedAt(st, ps, turns, k) ==> BalancedAt(st', ps, turns, k);
  }

  lemma RecordPaperOrder(w: World, w': World, runtime: Runtime, key: string, o: PaperOrder)
    requires InvCore(w) && KeyOf(o.intentionId) == key && runtime.lastPrivateStreamAt.None?
    requires runtime.openOrders == w.store.runtime.openOrders &&
      runtime.paperOrders == w.store.runtime.paperOrders + [o]
    requires Moved(w, w', w.store.(runtime := runtime))
    requires OrdersOf(w.store, w.history.placements, key) + OpenTurn(w.store, key) < Turns(w.history)[key]
    ensures InvCore(w')
    ensures CountsAgree(w.store.journal, w.store.runtime, 0, 0) ==>
      CountsAgree(w'.store.journal, w'.store.runtime, 0, 1)
  {
    hide KeysMatch, DatesValid, PolicyInForce, AllJustified, ApprovedOnce, Balanced, Capped, PaperOnly, Fresh, Backing,
      Provenance, KeyOf, OrdersOf, OpenTurn, Turns;
    var h, ps := w.history, w.history.placements;
    KeysFrame(w.store, w'.store);
    ApprovalsFrame(w.store, w'.store, ps, Spare(h), Spare(h));
    BackingFrame(w.store, w'.store, ps, h.reused, h.reused, w.now, w'.now);
    PaperTakesTurn(w.store, w'.store, ps, Turns(h), o, key);
    CappedFrame(w.store, w'.store, ps, h.lost.orders, h.sawPaper);
    SameTurns(h, w'.history);
    RecordsFrame(w.store, w'.store, h, w'.history);
  }

  /** Closing the record frees the turn that the paper order then takes. */
  lemma ClosingFreesTheTurn(w: World, w1: World, key: string)
    requires InvCore(w) && key in w.store.intentions && Pending(w.store.intentions[key].status)
    requires !w.store.killSwitch.latched && Closed(w1.store, key)
    requires w1.store == w.store.(intentions := w1.store.intentions)
    requires w1.history == w.history.(faulted := w1.history.faulted)
    ensures OrdersOf(w1.store, w1.history.placements, key) + OpenTurn(w1.store, key) < Turns(w1.history)[key]
  {
    hide KeysMatch, DatesValid, PolicyInForce, AllJustified, ApprovedOnce, Capped, PaperOnly, Fresh, Backing,
      Provenance, PaperKeys, PlacedKeys, Turns;
    assert Turns(w1.history) == Turns(w.history) by { SameTurns(w.history, w1.history); }
    assert BalancedAt(w.store, w.history.placements, Turns(w.history), key);
  }

  lemma SameTurns(h: History, h': History)
    requires h'.stagings == h.stagings && h'.lost == h.lost
    ensures Turns(h') == Turns(h)
  {
  }

  lemma SavingMoves(w: World, i: Intention, key: string)
    requires SafeId(i.id) == Some(key)
    ensures var r := SaveIntention(w, i);
      r.Done? ==> Moved(w, r.world, w.store.(intentions := w.store.intentions[key := i]))
  {
    hide SafeId;
  }

  lemma RecordPaper(w: World, i: Intention, runtime: Runtime, key: string)
    requires Inv(w) && SafeId(i.id) == Some(key) && runtime.lastPrivateStreamAt.None?
    requires runtime.openOrders == w.store.runtime.openOrders && runtime.paperOrders == w.store.runtime.paperOrders
    requires OrdersOf(w.store, w.history.placements, key) + OpenTurn(w.store, key) < Turns(w.history)[key]
    ensures var r := WriteRuntime(w, runtime.(paperOrders := runtime.paperOrders + [PaperOrderOf(i)]));
      && InvCore(r.world) && (r.Threw? ==> Inv(r.world))
      && (r.Done? && !r.world.history.faulted ==> CountsAgree(r.world.store.journal, r.world.store.runtime, 0, 1))
  {
    hide SafeId, InvCore, CountsAgree, OrdersOf, OpenTurn, Turns;
    var runtime' := runtime.(paperOrders := runtime.paperOrders + [PaperOrderOf(i)]);
    var store := w.store.(runtime := runtime');
    CommitMoves(w, store);
    var w' := WriteRuntime(w, runtime').world;
    if Moved(w, w', store) { RecordPaperOrder(w, w', runtime', key, PaperOrderOf(i)); } else { IdleKeeps(w, w'); }
  }

  lemma ExecutePaperKeeps(w: World, i: Intention, p: Policy, runtime: Runtime, s: Snapshot, gateAt: int)
    requires Inv(w) && Current(w, i) && GatePassed(w, p, runtime, s, gateAt)
    ensures Inv(ExecutePaper(w, i, runtime).world)
  {
    hide SafeId, SafeSystem, InvCore, Books, SaveIntention, WriteRuntime, AppendJournal, Touch, CountsAgree, OrdersOf,
      OpenTurn, Turns, PaperOrderOf;
    var key, executed := SafeId(i.id).value, i.(status := Executed);
    SaveIntentionKeeps(w, executed);
    SavingMoves(w, executed, key);
    var r1 := SaveIntention(w, executed);
    if r1.Done? {
      ClosingFreesTheTurn(w, r1.world, key);
      RecordPaper(r1.world, i, runtime, key);
      var r2 := WriteRuntime(r1.world, runtime.(paperOrders := runtime.paperOrders + [PaperOrderOf(i)]));
      if r2.Done? {
        AppendJournalKeeps(r2.world, PaperOrderEntry, Some(i.id));
        TouchKeeps(AppendJournal(r2.world, PaperOrderEntry, Some(i.id)).world);
      }
    }
  }

  // ------------------------------------------------------------------ live orders

  ghost predicate BalancedBut(st: Store, ps: seq<Placement>, turns: multiset<string>, key: string) {
    forall k: string :: BalancedButAt(st, ps, turns, key, k)
  }

  ghost predicate BalancedButAt(st: Store, ps: seq<Placement>, turns: multiset<string>, key: string, k: string) {
    OrdersOf(st, ps, k) + (if k == key then 0 else OpenTurn(st, k)) <= turns[k]
  }

  ghost predicate ApprovedBut(st: Store, ps: seq<Placement>, spare: multiset<string>, used: Option<string>) {
    forall k: string :: ApprovedButAt(st, ps, spare, used, k)
  }

  ghost predicate ApprovedButAt(st: Store, ps: seq<Placement>, spare: multiset<string>, used: Option<string>,
                                k: string)
  {
    OrdersUnder(ps, k) + (if Some(k) == used then 0 else OpenApproval(st, k)) <= 1 + spare[k]
  }

  ghost predicate CappedBut(st: Store, ps: seq<Placement>, lost: nat, sawPaper: bool)
    requires ps != []
  {
    && |ps| <= |st.runtime.openOrders| + lost + 1 && |ps| <= |ps[|ps| - 1].runtime.openOrders| + lost + 1
    && |ps| <= PolicyLoader.MAX_OPEN_ORDERS + lost
    && (!sawPaper ==> |ps| <= 1 + lost)
  }

  /** Between the attempt to place the order for `key` and the end of its bookkeeping. */
  ghost predicate Indebted(w: World, key: string) {
    var ps, h := w.history.placements, w.history;
    && ps != [] && h.sawLive && ps[|ps| - 1].key == key
    && KeysMatch(w.store) && DatesValid(w.store)
    && PolicyInForce(w.store.policyState, h.sawLive, h.sawPaper)
    && w.store.runtime.lastPrivateStreamAt.None?
    && AllJustified(ps)
    && ApprovedBut(w.store, ps, Spare(h), ps[|ps| - 1].approvalKey)
    && BalancedBut(w.store, ps, Turns(h), key)
    && (!h.foreignSnapshot ==> CappedBut(w.store, ps, h.lost.orders, h.sawPaper))
    && Fresh(w.store, w.now) && Backing(w.store, ps, h.reused)
    && Provenance(w.store, ps, h.approved, h.references)
  }

  /** The bookkeeping writes: the record of `key` closed, orders added, approvals used, journal and stamps. */
  ghost predicate Bookkeeping(st: Store, st': Store, key: string) {
    && st'.policyState == st.policyState && st'.killSwitch == st.killSwitch
    && st'.runtime.lastPrivateStreamAt == st.runtime.lastPrivateStreamAt
    && st'.runtime.paperOrders == st.runtime.paperOrders
    && |st'.runtime.openOrders| >= |st.runtime.openOrders|
    && (|| st'.intentions == st.intentions
        || exists i: Intention ::
             i.status.Executed? && SafeId(i.id) == Some(key) && st'.intentions == st.intentions[key := i])
    && (|| st'.approvals == st.approvals
        || exists k: string, a: Approval ::
             && a.usedAt.Some? && SafeId(a.id) == Some(k) && st'.approvals == st.approvals[k := a]
             && k in st.approvals && a.expiresAt == st.approvals[k].expiresAt)
  }

  lemma BookkeepingStore(st: Store, st': Store, key: string)
    requires Bookkeeping(st, st', key) && KeysMatch(st) && DatesValid(st)
    ensures KeysMatch(st') && DatesValid(st')
  {
    hide SafeId;
  }

  lemma BookkeepingApprovals(st: Store, st': Store, key: string, ps: seq<Placement>, spare: multiset<string>,
                             used: Option<string>)
    requires Bookkeeping(st, st', key) && ApprovedBut(st, ps, spare, used)
    ensures ApprovedBut(st', ps, spare, used)
  {
    hide SafeId, UsedKeys;
    assert forall k :: Spent(st, k) ==> Spent(st', k);
    assert forall k :: ApprovedButAt(st, ps, spare, used, k) ==> ApprovedButAt(st', ps, spare, used, k);
  }

  lemma BookkeepingExpiry(st: Store, st': Store, key: string, ps: seq<Placement>, reused: multiset<string>,
                          now: int, now': int)
    requires Bookkeeping(st, st', key) && Fresh(st, now) && Backing(st, ps, reused) && now <= now'
    ensures Fresh(st', now') && Backing(st', ps, reused)
  {
    hide SafeId;
  }

  lemma BookkeepingProvenance(st: Store, st': Store, key: string, ps: seq<Placement>, approved: set<string>,
                              refs: set<string>)
    requires Bookkeeping(st, st', key) && Provenance(st, ps, approved, refs)
    ensures Provenance(st', ps, approved, refs)
  {
    hide SafeId;
  }

  lemma BookkeepingBalance(st: Store, st': Store, key: string, ps: seq<Placement>, turns: multiset<string>)
    requires Bookkeeping(st, st', key) && BalancedBut(st, ps, turns, key)
    ensures BalancedBut(st', ps, turns, key)
  {
    hide SafeId, PaperKeys, PlacedKeys;
    assert forall k :: BalancedButAt(st, ps, turns, key, k) ==> BalancedButAt(st', ps, turns, key, k);
  }

  lemma BookkeepingFrame(st: Store, st': Store, key: string)
    requires Bookkeeping(st, st', key)
    ensures st'.policyState == st.policyState && st'.runtime.lastPrivateStreamAt == st.runtime.lastPrivateStreamAt
    ensures |st'.runtime.openOrders| >= |st.runtime.openOrders|
  {
    hide SafeId;
  }

  lemma DebtStays(w: World, w': World, key: string)
    requires Indebted(w, key) && Moved(w, w', w'.store) && Bookkeeping(w.store, w'.store, key)
    ensures Indebted(w', key)
  {
    hide SafeId, KeysMatch, DatesValid, PolicyInForce, AllJustified, ApprovedBut, BalancedBut, Bookkeeping, Fresh,
      Backing, Provenance, Turns, Spare;
    var ps, h := w.history.placements, w.history;
    SameTurns(h, w'.history);
    SameSpare(h, w'.history);
    BookkeepingFrame(w.store, w'.store, key);
    BookkeepingStore(w.store, w'.store, key);
    BookkeepingApprovals(w.store, w'.store, key, ps, Spare(h), ps[|ps| - 1].approvalKey);
    BookkeepingBalance(w.store, w'.store, key, ps, Turns(h));
    BookkeepingExpiry(w.store, w'.store, key, ps, h.reused, w.now, w'.now);
    BookkeepingProvenance(w.store, w'.store, key, ps, h.approved, h.references);
  }

  lemma SameSpare(h: History, h': History)
    requires h'.reused == h.reused && h'.lost == h.lost
    ensures Spare(h') == Spare(h)
  {
  }

  /** What a store owes for the last order is settled once nothing of it is open, or more is granted. */
  lemma Settled(st: Store, st': Store, ps: seq<Placement>, turns: multiset<string>, turns': multiset<string>,
                spare: multiset<string>, spare': multiset<string>, key: string, used: Option<string>)
    requires BalancedBut(st, ps, turns, key) && ApprovedBut(st, ps, spare, used)
    requires st'.intentions == st.intentions && st'.approvals == st.approvals && st'.runtime == st.runtime
    requires st'.killSwitch.latched || (!st.killSwitch.latched && !st'.killSwitch.latched)
    requires turns <= turns' && spare <= spare'
    requires st'.killSwitch.latched || OpenTurn(st', key) == 0 || turns[key] < turns'[key]
    requires used.Some? ==> st'.killSwitch.latched || Spent(st', used.value) || spare[used.value] < spare'[used.value]
    ensures Balanced(st', ps, turns') && ApprovedOnce(st', ps, spare')
  {
    hide PaperKeys, PlacedKeys, UsedKeys, Pending;
    assert forall k :: BalancedButAt(st, ps, turns, key, k) ==> BalancedAt(st', ps, turns', k);
    assert forall k :: ApprovedButAt(st, ps, spare, used, k) ==> ApprovedOnceAt(st', ps, spare', k);
  }

  lemma LatchPays(w: World, w': World, k: KillSwitch, key: string)
    requires Indebted(w, key) && k.latched && Moved(w, w', w.store.(killSwitch := k))
    ensures InvCore(w')
  {
    hide KeysMatch, DatesValid, PolicyInForce, AllJustified, ApprovedBut, BalancedBut, ApprovedOnce, Balanced, Fresh,
      Backing, Provenance, Turns, Spare, PaperOnly;
    var ps, h := w.history.placements, w.history;
    SameTurns(h, w'.history);
    SameSpare(h, w'.history);
    Settled(w.store, w'.store, ps, Turns(h), Turns(h), Spare(h), Spare(h), key, ps[|ps| - 1].approvalKey);
    KeysFrame(w.store, w'.store);
    BackingFrame(w.store, w'.store, ps, h.reused, h.reused, w.now, w'.now);
    ProvenanceFrame(w.store, w'.store, ps, h.approved, h.references);
  }

  lemma ProvenanceFrame(st: Store, st': Store, ps: seq<Placement>, approved: set<string>, refs: set<string>)
    requires st'.intentions == st.intentions
    ensures Provenance(st', ps, approved, refs) == Provenance(st, ps, approved, refs)
  {
  }

  /** What a lost latch grants is what it left open. */
  lemma LossGrants(h: History, h': History, st: Store)
    requires h.placements != [] && h'.lost == NoteLoss(h, st, LiveOrderException).lost && h'.reused == h.reused
    requires h'.stagings == h.stagings
    ensures var last := h.placements[|h.placements| - 1];
      && Turns(h) <= Turns(h') && Spare(h) <= Spare(h')
      && (Closed(st, last.key) || Turns(h)[last.key] < Turns(h')[last.key])
      && (last.approvalKey.Some? ==>
            Spent(st, last.approvalKey.value) || Spare(h)[last.approvalKey.value] < Spare(h')[last.approvalKey.value])
      && h'.lost.orders == h.lost.orders + if |st.runtime.openOrders| <= |last.runtime.openOrders| then 1 else 0
  {
    hide Closed, Spent;
  }

  /** A lost latch pays only what was settled before the exception; what was not is granted again. */
  lemma LostLatchPays(w: World, w': World, key: string)
    requires Indebted(w, key) && w'.store == w.store && !w.store.killSwitch.latched && w.now <= w'.now
    requires w'.history == NoteLoss(w.history.(faulted := w'.history.faulted), w.store, LiveOrderException)
    ensures InvCore(w')
  {
    hide KeysMatch, DatesValid, PolicyInForce, AllJustified, ApprovedBut, BalancedBut, ApprovedOnce, Balanced, Fresh,
      Backing, Provenance, Turns, Spare, PaperOnly, NoteLoss, Spent;
    var ps, h := w.history.placements, w.history;
    LossIgnoresFaulted(h, w.store, LiveOrderException, w'.history.faulted);
    LossGrants(h, w'.history, w.store);
    Settled(w.store, w'.store, ps, Turns(h), Turns(w'.history), Spare(h), Spare(w'.history), key,
            ps[|ps| - 1].approvalKey);
    BackingFrame(w.store, w'.store, ps, h.reused, h.reused, w.now, w'.now);
  }

  lemma LossIgnoresFaulted(h: History, st: Store, cause: LatchCause, faulted: bool)
    ensures NoteLoss(h.(faulted := faulted), st, cause).lost == NoteLoss(h, st, cause).lost
  {
  }

  /** Latching pays every debt, and a lost latch notes what it leaves unpaid. */
  lemma LatchSettles(w: World, key: string)
    requires Indebted(w, key) && w.history.faulted && !w.store.killSwitch.latched
    ensures Inv(LatchKillSwitch(w, LiveOrderException).world)
  {
    hide Indebted, InvCore, Books, NoteLoss;
    var k := Latched(w.store.killSwitch, LiveOrderException, w.now);
    CommitMoves(w, w.store.(killSwitch := k));
    var w' := LatchKillSwitch(w, LiveOrderException).world;
    if NextFault(w).ThrowsBefore? {
      LostLatchPays(w, w', key);
    } else {
      LatchPays(w, w', k, key);
    }
  }

  /** So does finishing: record closed, order recorded, approval used, journal written. */
  lemma FinishSettles(w: World, key: string)
    requires Indebted(w, key) && !w.store.killSwitch.latched
    requires Closed(w.store, key)
    requires !w.history.foreignSnapshot ==>
      |w.history.placements| <= |w.store.runtime.openOrders| + w.history.lost.orders
    requires var last := w.history.placements[|w.history.placements| - 1];
      last.approvalKey.Some? ==> Spent(w.store, last.approvalKey.value)
    ensures InvCore(w)
  {
    hide KeysMatch, DatesValid, PolicyInForce, AllJustified, ApprovedBut, BalancedBut, ApprovedOnce, Balanced, Fresh,
      Backing, Provenance, Turns, Spare, PaperOnly, Spent;
    var ps, h := w.history.placements, w.history;
    Settled(w.store, w.store, ps, Turns(h), Turns(h), Spare(h), Spare(h), key, ps[|ps| - 1].approvalKey);
  }

  ghost predicate ApprovalRead(w: World, i: Intention, approval: Option<Approval>) {
    approval.Some? ==>
      && i.humanApprovalId.Some? && SafeId(i.humanApprovalId.value).Some?
      && SafeId(i.humanApprovalId.value).value in w.store.approvals
      && w.store.approvals[SafeId(i.humanApprovalId.value).value] == approval.value
  }

  /** The facts of a placement that the counting arguments use. */
  lemma PlacementFacts(i: Intention, p: Policy, s: Snapshot, approval: Option<Approval>, now: int)
    requires PolicyLoader.WithinBounds(p) && IntentionReasons(i, approval, p, s, now) == []
    ensures Acceptable(i, approval, p, s, now)
    ensures |s.openOrders| < p.maxOpenOrders <= PolicyLoader.MAX_OPEN_ORDERS
    ensures i.mode.Live? && p.live.requiresHumanApproval ==> approval.Some? && approval.value.usedAt.None?
  {
    hide IntentionReasons, FieldsFit, HasRisk, Within, LosesAtMost;
    AcceptedIff(i, approval, p, s, now);
  }

  lemma SameGate(p: Policy, r: Runtime, r': Runtime, s: Snapshot, at: int)
    requires SafeSystem(p, r, s, at) && r.lastPrivateStreamAt == r'.lastPrivateStreamAt
    ensures SafeSystem(p, r', s, at)
  {
  }

  /** The call itself is justified. */
  lemma CallJustified(w: World, i: Intention, p: Policy, runtime: Runtime, s: Snapshot, approval: Option<Approval>,
                      gateAt: int)
    requires PolicyLoader.WithinBounds(p) && w.store.runtime.lastPrivateStreamAt.None?
    requires SafeId(i.id).Some? && GatePassed(w, p, runtime, s, gateAt) && ApprovalRead(w, i, approval)
    requires i.mode.Live? && IntentionReasons(i, approval, p, s, w.now) == []
    ensures Justified(CallOf(w, i, s, approval, gateAt))
  {
    hide SafeId, IntentionReasons, Acceptable, SafeSystem, PolicyLoader.WithinBounds;
    PlacementFacts(i, p, s, approval, w.now);
    SameGate(p, runtime, w.store.runtime, s, gateAt);
  }

  lemma ApprovalTaken(st: Store, ps: seq<Placement>, spare: multiset<string>, call: Placement)
    requires ApprovedOnce(st, ps, spare) && !st.killSwitch.latched
    requires call.approvalKey.Some? ==> !Spent(st, call.approvalKey.value)
    ensures ApprovedBut(st, ps + [call], spare, call.approvalKey)
  {
    hide Spent;
    assert UsedKeys(ps + [call]) == UsedKeys(ps) + [call.approvalKey];
    assert forall k :: ApprovedOnceAt(st, ps, spare, k) ==> ApprovedButAt(st, ps + [call], spare, call.approvalKey, k);
  }

  lemma TurnTaken(st: Store, ps: seq<Placement>, turns: multiset<string>, call: Placement)
    requires Balanced(st, ps, turns) && OpenTurn(st, call.key) == 1
    ensures BalancedBut(st, ps + [call], turns, call.key)
  {
    assert PlacedKeys(ps + [call]) == PlacedKeys(ps) + [call.key];
    assert forall k :: BalancedAt(st, ps, turns, k) ==> BalancedButAt(st, ps + [call], turns, call.key, k);
  }

  /** The order lists bound the number of placements, and a live policy admits no second one. */
  lemma PlacingIsCapped(w: World, i: Intention, p: Policy, runtime: Runtime, s: Snapshot, approval: Option<Approval>,
                        gateAt: int)
    requires PolicyLoader.WithinBounds(p) && GatePassed(w, p, runtime, s, gateAt)
    requires PolicyInForce(w.store.policyState, w.history.sawLive, w.history.sawPaper)
    requires IntentionReasons(i, approval, p, s, w.now) == []
    requires !w.history.foreignSnapshot
    requires Capped(w.store, w.history.placements, w.history.lost.orders, w.history.sawPaper)
    ensures |w.history.placements| < PolicyLoader.MAX_OPEN_ORDERS + w.history.lost.orders
    ensures !w.history.sawPaper ==> |w.history.placements| <= w.history.lost.orders
  {
    hide IntentionReasons, FreshMarkets, SameOrderIds, PolicyLoader.WithinBounds, Acceptable;
    PlacementFacts(i, p, s, approval, w.now);
  }

  lemma PlacingOwes(w: World, i: Intention, p: Policy, runtime: Runtime, s: Snapshot, approval: Option<Approval>,
                    gateAt: int)
    requires InvCore(w) && Current(w, i) && GatePassed(w, p, runtime, s, gateAt) && ApprovalRead(w, i, approval)
    requires i.mode.Live? && IntentionReasons(i, approval, p, s, w.now) == []
    ensures Indebted(PlaceLimitOrder(w, i, s, approval, gateAt).world, SafeId(i.id).value)
  {
    hide *;
    PlacingPreconditions(w, i, p, runtime, s, approval, gateAt);
    var call := CallOf(w, i, s, approval, gateAt);
    CallJustified(w, i, p, runtime, s, approval, gateAt);
    ApprovalTaken(w.store, w.history.placements, Spare(w.history), call);
    TurnTaken(w.store, w.history.placements, Turns(w.history), call);
    if !w.history.foreignSnapshot { PlacingIsCapped(w, i, p, runtime, s, approval, gateAt); }
    PlacedOnTop(w, call, PlaceLimitOrder(w, i, s, approval, gateAt).world);
  }

  /** What the invariant and the gate say of the state in which the call is made. */
  lemma PlacingPreconditions(w: World, i: Intention, p: Policy, runtime: Runtime, s: Snapshot,
                             approval: Option<Approval>,
                             gateAt: int)
    requires InvCore(w) && Current(w, i) && GatePassed(w, p, runtime, s, gateAt) && ApprovalRead(w, i, approval)
    requires i.mode.Live? && IntentionReasons(i, approval, p, s, w.now) == []
    ensures var call, before := CallOf(w, i, s, approval, gateAt), w.history.placements;
      && SafeId(i.id).Some? && call.key == SafeId(i.id).value && call.runtime == w.store.runtime
      && PolicyLoader.WithinBounds(p) && w.history.sawLive && OpenTurn(w.store, call.key) == 1
      && w.store.runtime.lastPrivateStreamAt.None? && !w.store.killSwitch.latched
      && PolicyInForce(w.store.policyState, w.history.sawLive, w.history.sawPaper)
      && (call.approvalKey.Some? ==> !Spent(w.store, call.approvalKey.value))
      && ApprovedOnce(w.store, before, Spare(w.history)) && Balanced(w.store, before, Turns(w.history))
      && (!w.history.foreignSnapshot ==> Capped(w.store, before, w.history.lost.orders, w.history.sawPaper))
      && BackedBy(w.store, call, w.history.reused)
      && Traced(call.intention, call.key, w.history.approved, w.history.references)
    ensures PlacedWorld(w, PlaceLimitOrder(w, i, s, approval, gateAt).world, CallOf(w, i, s, approval, gateAt))
  {
    hide SafeId, IntentionReasons, PolicyLoader.WithinBounds, Acceptable, SafeSystem, KeysMatch, DatesValid,
      ApprovedOnce, Balanced, Capped, AllJustified, PaperOnly, PlaceLimitOrder, OwnOrders, Fresh, Backing, Provenance,
      Turns, Spare, Traced;
    SeenLive(w, i);
    CurrentIsTraced(w, i);
    GateBounds(w, p, runtime, s, gateAt);
    PlacementFacts(i, p, s, approval, w.now);
    PlaceWorld(w, i, s, approval, gateAt);
  }

  lemma GateBounds(w: World, p: Policy, runtime: Runtime, s: Snapshot, gateAt: int)
    requires InvCore(w) && GatePassed(w, p, runtime, s, gateAt)
    ensures PolicyLoader.WithinBounds(p)
  {
    hide PolicyLoader.WithinBounds, SafeSystem, KeysMatch, DatesValid, ApprovedOnce, Balanced, Capped, AllJustified,
      PaperOnly, Fresh, Backing, Provenance;
  }

  lemma CurrentIsTraced(w: World, i: Intention)
    requires InvCore(w) && Current(w, i)
    ensures Traced(i, SafeId(i.id).value, w.history.approved, w.history.references)
  {
    hide SafeId, KeysMatch, DatesValid, ApprovedOnce, Balanced, Capped, AllJustified, PolicyInForce, PaperOnly, Fresh,
      Backing, Traced;
  }

  /** A pending live record exists only after a live policy was in force. */
  lemma SeenLive(w: World, i: Intention)
    requires InvCore(w) && Current(w, i) && i.mode.Live?
    ensures w.history.sawLive && OpenTurn(w.store, SafeId(i.id).value) == if w.store.killSwitch.latched then 0 else 1
  {
    hide SafeId, KeysMatch, DatesValid, ApprovedOnce, Balanced, Capped, AllJustified, PolicyInForce, Fresh, Backing,
      Provenance;
  }

  ghost predicate PlacedWorld(w: World, w1: World, call: Placement) {
    && w1.store == w.store
    && w1.history == w.history.(faulted := w1.history.faulted, placements := w.history.placements + [call])
    && w.now <= w1.now
  }

  lemma PlaceWorld(w: World, i: Intention, s: Snapshot, approval: Option<Approval>, gateAt: int)
    requires SafeId(i.id).Some?
    ensures PlacedWorld(w, PlaceLimitOrder(w, i, s, approval, gateAt).world, CallOf(w, i, s, approval, gateAt))
  {
    hide SafeId, CallOf, Take;
  }

  lemma AddedOnTop(st: Store, ps: seq<Placement>, call: Placement, reused: multiset<string>, approved: set<string>,
                   refs: set<string>)
    requires AllJustified(ps) && Backing(st, ps, reused) && Provenance(st, ps, approved, refs)
    requires Justified(call) && BackedBy(st, call, reused) && Traced(call.intention, call.key, approved, refs)
    ensures AllJustified(ps + [call]) && Backing(st, ps + [call], reused) && Provenance(st, ps + [call], approved, refs)
  {
    hide Justified, BackedBy, Traced;
  }

  lemma PlacedOnTop(w: World, call: Placement, w1: World)
    requires InvCore(w) && w.history.sawLive && Justified(call)
    requires PlacedWorld(w, w1, call) && call.runtime == w.store.runtime
    requires ApprovedBut(w.store, w.history.placements + [call], Spare(w.history), call.approvalKey)
    requires BalancedBut(w.store, w.history.placements + [call], Turns(w.history), call.key)
    requires BackedBy(w.store, call, w.history.reused)
    requires Traced(call.intention, call.key, w.history.approved, w.history.references)
    requires !w.history.foreignSnapshot ==>
      && |w.history.placements| < PolicyLoader.MAX_OPEN_ORDERS + w.history.lost.orders
      && (!w.history.sawPaper ==> |w.history.placements| <= w.history.lost.orders)
    requires !w.store.killSwitch.latched
    ensures Indebted(w1, call.key)
  {
    hide Justified, KeysMatch, DatesValid, PolicyInForce, AllJustified, ApprovedOnce, Balanced, PaperOnly, BalancedBut,
      ApprovedBut, Fresh, Backing, BackedBy, Provenance, Traced, Turns, Spare;
    var h := w.history;
    AddedOnTop(w.store, h.placements, call, h.reused, h.approved, h.references);
    BackingFrame(w.store, w1.store, h.placements, h.reused, h.reused, w.now, w1.now);
    SameTurns(h, w1.history);
    SameSpare(h, w1.history);
  }

  // ------------------------------------------------------------------ the live branch

  /** The bookkeeping leaves the record of calls and failures alone. */
  ghost predicate SameLog(w: World, w': World) {
    && w'.history.placements == w.history.placements && w'.history.lost == w.history.lost
    && w'.history.foreignSnapshot == w.history.foreignSnapshot && w'.store.killSwitch == w.store.killSwitch
  }

  lemma ApprovalBookkeeping(st: Store, key: string, k: string, a: Approval)
    requires a.usedAt.Some? && SafeId(a.id) == Some(k) && k in st.approvals && a.expiresAt == st.approvals[k].expiresAt
    ensures Bookkeeping(st, st.(approvals := st.approvals[k := a]), key)
  {
  }

  lemma QuietBookkeeping(st: Store, key: string, journal: seq<JournalEntry>, runtime: Runtime)
    requires runtime.lastPrivateStreamAt == st.runtime.lastPrivateStreamAt &&
      runtime.paperOrders == st.runtime.paperOrders
    requires |runtime.openOrders| >= |st.runtime.openOrders|
    ensures Bookkeeping(st, st.(journal := journal, runtime := runtime), key)
  {
  }

  lemma CommitBookkeeping(w: World, store: Store, key: string)
    requires Indebted(w, key) && Bookkeeping(w.store, store, key)
    ensures var r := Commit(w, store);
      && Indebted(r.world, key)
      && (r.Done? ==> r.world.store == store && (r.world.history.faulted <==> w.history.faulted))
      && (r.Threw? ==> r.world.history.faulted)
      && SameLog(w, r.world)
  {
    hide Indebted, SafeId;
    CommitMoves(w, store);
    var w' := Commit(w, store).world;
    if Moved(w, w', w.store) { assert Bookkeeping(w.store, w.store, key); }
    DebtStays(w, w', key);
  }

  lemma CloseRecord(w: World, i: Intention, key: string)
    requires Indebted(w, key) && SafeId(i.id) == Some(key)
    ensures var r := SaveIntention(w, i.(status := Executed));
      && Indebted(r.world, key) && SameLog(w, r.world)
      && (r.Threw? ==> r.world.history.faulted)
      && (r.Done? ==> (r.world.history.faulted <==> w.history.faulted) && Closed(r.world.store, key)
                      && r.world.store == w.store.(intentions := r.world.store.intentions))
  {
    hide Indebted, SafeId;
    var executed := i.(status := Executed);
    CommitBookkeeping(w, w.store.(intentions := w.store.intentions[key := executed]), key);
  }

  lemma JournalOwing(w: World, key: string, kind: JournalKind, id: Option<string>)
    requires Indebted(w, key)
    ensures var r := AppendJournal(w, kind, id);
      && Indebted(r.world, key) && SameLog(w, r.world)
      && (r.Threw? ==> r.world.history.faulted)
      && (r.Done? ==>
            && r.world.store.intentions == w.store.intentions && r.world.store.approvals == w.store.approvals
            && r.world.store.runtime.openOrders == w.store.runtime.openOrders)
  {
    hide Indebted, SafeId, Commit, Bookkeeping;
    var entry := JournalEntry(kind, id, w.now);
    var store := w.store.(journal := w.store.journal + [entry]);
    QuietBookkeeping(w.store, key, store.journal, w.store.runtime);
    assert store == w.store.(journal := store.journal, runtime := w.store.runtime);
    CommitBookkeeping(w, store, key);
    var r1 := Commit(w, store);
    if r1.Done? {
      var runtime := r1.world.store.runtime.(lastJournalAt := Some(entry.timestamp));
      var store1 := r1.world.store.(runtime := runtime);
      QuietBookkeeping(r1.world.store, key, r1.world.store.journal, runtime);
      assert store1 == r1.world.store.(journal := r1.world.store.journal, runtime := runtime);
      CommitBookkeeping(r1.world, store1, key);
      assert AppendJournal(w, kind, id) == Commit(r1.world, store1);
    } else {
      assert AppendJournal(w, kind, id) == r1;
    }
  }

  lemma JournalOrder(w: World, key: string, id: string)
    requires Indebted(w, key) && (!w.history.faulted ==> CountsAgree(w.store.journal, w.store.runtime, 1, 0))
    ensures var r := AppendJournal(w, LiveOrderEntry, Some(id));
      && Indebted(r.world, key) && SameLog(w, r.world)
      && (r.Threw? ==> r.world.history.faulted) && (!r.world.history.faulted ==> Books(r.world.store))
      && (r.Done? ==>
            && r.world.store.intentions == w.store.intentions && r.world.store.approvals == w.store.approvals
            && r.world.store.runtime.openOrders == w.store.runtime.openOrders)
  {
    hide Indebted, Books, CountsAgree, AppendJournal;
    AppendJournalBooks(w, LiveOrderEntry, Some(id));
    JournalOwing(w, key, LiveOrderEntry, Some(id));
  }

  lemma NotifyOwing(w: World, key: string)
    requires Indebted(w, key)
    ensures var r := Touch(w);
      && Indebted(r.world, key) && r.world.store == w.store && SameLog(w, r.world)
      && (r.Threw? ==> r.world.history.faulted) && (!r.world.history.faulted ==> !w.history.faulted)
  {
    TouchMoves(w);
    hide Indebted;
    DebtStays(w, Touch(w).world, key);
  }

  lemma SavingCommits(w: World, a: Approval, k: string)
    requires SafeId(a.id) == Some(k)
    ensures SaveApproval(w, a) == Commit(w, w.store.(approvals := w.store.approvals[k := a]))
  {
    hide SafeId;
  }

  lemma ReadKey(w: World, i: Intention, approval: Option<Approval>)
    requires ApprovalRead(w, i, approval) && KeysMatch(w.store) && approval.Some?
    ensures SafeId(approval.value.id) == SafeId(i.humanApprovalId.value)
  {
    hide SafeId;
  }

  lemma UseApproval(w: World, i: Intention, approval: Option<Approval>, key: string)
    requires Indebted(w, key) && ApprovalRead(w, i, approval) && KeysMatch(w.store)
    ensures var r := MarkUsed(w, approval);
      && Indebted(r.world, key) && SameLog(w, r.world)
      && (r.Threw? ==> r.world.history.faulted)
      && (r.Done? ==>
            && (r.world.history.faulted <==> w.history.faulted)
            && r.world.store == w.store.(approvals := r.world.store.approvals)
            && (approval.Some? ==> Spent(r.world.store, SafeId(i.humanApprovalId.value).value)))
  {
    hide Indebted, SafeId, Commit, KeysMatch, Bookkeeping, SaveApproval;
    if approval.Some? {
      ReadKey(w, i, approval);
      var a, k := approval.value.(usedAt := Some(w.now)), SafeId(i.humanApprovalId.value).value;
      SavingCommits(w, a, k);
      ApprovalBookkeeping(w.store, key, k, a);
      hide ApprovalRead;
      CommitBookkeeping(w, w.store.(approvals := w.store.approvals[k := a]), key);
    }
  }

  ghost predicate LiveReady(w: World, i: Intention, runtime: Runtime, s: Snapshot, approval: Option<Approval>,
                            gateAt: int)
  {
    && SafeId(i.id).Some? && ApprovalRead(w, i, approval) && KeysMatch(w.store)
    && !w.store.killSwitch.latched
    && runtime.openOrders == w.store.runtime.openOrders && runtime.paperOrders == w.store.runtime.paperOrders
    && runtime.lastPrivateStreamAt.None? && w.store.runtime.lastPrivateStreamAt.None?
    && (!w.history.faulted ==> Books(w.store))
    && (!w.history.foreignSnapshot ==>
          |w.history.placements| <= |w.store.runtime.openOrders| + w.history.lost.orders)
    && (CallOf(w, i, s, approval, gateAt).approvalKey.Some? ==>
          approval.Some? && CallOf(w, i, s, approval, gateAt).approvalKey == SafeId(i.humanApprovalId.value))
  }

  lemma LiveStart(w: World, i: Intention, p: Policy, runtime: Runtime, s: Snapshot, approval: Option<Approval>,
                  gateAt: int)
    requires Inv(w) && Current(w, i) && GatePassed(w, p, runtime, s, gateAt) && ApprovalRead(w, i, approval)
    requires i.mode.Live? && IntentionReasons(i, approval, p, s, w.now) == []
    ensures LiveReady(w, i, runtime, s, approval, gateAt)
  {
    hide SafeId, IntentionReasons, PolicyLoader.WithinBounds, Acceptable, SafeSystem, DatesValid, ApprovedOnce,
      Balanced, AllJustified, Books, Fresh, Backing, Provenance, PaperOnly;
    assert PolicyLoader.WithinBounds(p);
    PlacementFacts(i, p, s, approval, w.now);
  }

  lemma PlaceMoves(w: World, i: Intention, s: Snapshot, approval: Option<Approval>, gateAt: int)
    requires SafeId(i.id).Some?
    ensures var r := PlaceLimitOrder(w, i, s, approval, gateAt);
      && r.world.store == w.store
      && r.world.history.placements == w.history.placements + [CallOf(w, i, s, approval, gateAt)]
      && r.world.history.lost == w.history.lost && r.world.history.foreignSnapshot == w.history.foreignSnapshot
      && (r.Threw? ==> r.world.history.faulted) && (r.Done? ==> (r.world.history.faulted <==> w.history.faulted))
  {
    hide CallOf, Take, SafeId;
  }

  /** The open order is written over the runtime read when the tick began. */
  lemma RecordLiveOrder(w: World, runtime: Runtime, o: OpenOrder, key: string)
    requires Indebted(w, key)
    requires runtime.openOrders == w.store.runtime.openOrders && runtime.paperOrders == w.store.runtime.paperOrders
    requires runtime.lastPrivateStreamAt.None?
    requires !w.history.faulted ==> CountsAgree(w.store.journal, w.store.runtime, 0, 0)
    ensures var r := WriteRuntime(w, runtime.(openOrders := runtime.openOrders + [o]));
      && Indebted(r.world, key) && SameLog(w, r.world)
      && (r.Threw? ==> r.world.history.faulted)
      && (r.Done? ==>
            && r.world.store == w.store.(runtime := r.world.store.runtime)
            && |r.world.store.runtime.openOrders| == |runtime.openOrders| + 1
            && (!r.world.history.faulted ==> CountsAgree(r.world.store.journal, r.world.store.runtime, 1, 0)))
  {
    var runtime' := runtime.(openOrders := runtime.openOrders + [o]);
    var store := w.store.(runtime := runtime');
    assert w.store.runtime.lastPrivateStreamAt.None?;
    hide Indebted, SafeId;
    CommitBookkeeping(w, store, key);
  }

  lemma TryLiveSteps(w: World, i: Intention, runtime: Runtime, s: Snapshot, approval: Option<Approval>, gateAt: int)
    requires LiveReady(w, i, runtime, s, approval, gateAt)
    requires Indebted(PlaceLimitOrder(w, i, s, approval, gateAt).world, SafeId(i.id).value)
    ensures var r := TryLive(w, i, runtime, s, approval, gateAt);
      && (r.Done? ==> Inv(r.world))
      && (r.Threw? ==>
            Indebted(r.world, SafeId(i.id).value) && r.world.history.faulted && !r.world.store.killSwitch.latched)
  {
    hide Indebted, SafeId, Inv, KeysMatch, PlaceLimitOrder, SaveIntention, WriteRuntime, AppendJournal, Touch,
      MarkUsed, CallOf,
      ApprovalRead, CountsAgree, Take;
    assert !w.history.faulted ==> CountsAgree(w.store.journal, w.store.runtime, 0, 0);
    hide Books;
    var key := SafeId(i.id).value;
    PlaceMoves(w, i, s, approval, gateAt);
    var r1 := PlaceLimitOrder(w, i, s, approval, gateAt);
    if r1.Done? {
      CloseRecord(r1.world, i, key);
      var r2 := SaveIntention(r1.world, i.(status := Executed));
      if r2.Done? {
        var o := OpenOrder(r1.value, i.symbol, i.side);
        RecordLiveOrder(r2.world, runtime, o, key);
        var r3 := WriteRuntime(r2.world, runtime.(openOrders := runtime.openOrders + [o]));
        if r3.Done? {
          JournalOrder(r3.world, key, i.id);
          var r4 := AppendJournal(r3.world, LiveOrderEntry, Some(i.id));
          if r4.Done? {
            NotifyOwing(r4.world, key);
            var r5 := Touch(r4.world);
            if r5.Done? { FinishLive(w, r5.world, i, approval, key, CallOf(w, i, s, approval, gateAt)); }
          }
        }
      }
    }
  }

  lemma FinishLive(w: World, w5: World, i: Intention, approval: Option<Approval>, key: string, call: Placement)
    requires Indebted(w5, key) && ApprovalRead(w, i, approval)
    requires w5.store.approvals == w.store.approvals && !w5.store.killSwitch.latched && Closed(w5.store, key)
    requires w5.history.placements == w.history.placements + [call]
    requires w5.history.lost == w.history.lost && w5.history.foreignSnapshot == w.history.foreignSnapshot
    requires !w.history.foreignSnapshot ==>
      |w.history.placements| < |w5.store.runtime.openOrders| + w.history.lost.orders
    requires !w5.history.faulted ==> Books(w5.store)
    requires call.approvalKey.Some? ==> approval.Some? && call.approvalKey == SafeId(i.humanApprovalId.value)
    ensures var r := MarkUsed(w5, approval);
      && (r.Done? ==> Inv(r.world))
      && (r.Threw? ==> Indebted(r.world, key) && r.world.history.faulted && !r.world.store.killSwitch.latched)
  {
    hide SafeId, MarkUsed, InvCore, CountsAgree;
    assert KeysMatch(w5.store);
    hide Indebted, KeysMatch;
    assert ApprovalRead(w5, i, approval);
    hide ApprovalRead;
    UseApproval(w5, i, approval, key);
    var r := MarkUsed(w5, approval);
    if r.Done? { FinishBooks(w, w5, r.world, i, key, call); }
  }

  lemma FinishBooks(w: World, w5: World, w6: World, i: Intention, key: string, call: Placement)
    requires Indebted(w6, key) && SameLog(w5, w6) && w6.store == w5.store.(approvals := w6.store.approvals)
    requires !w5.store.killSwitch.latched && Closed(w5.store, key)
    requires w5.history.placements == w.history.placements + [call]
    requires w5.history.lost == w.history.lost && w5.history.foreignSnapshot == w.history.foreignSnapshot
    requires !w.history.foreignSnapshot ==>
      |w.history.placements| < |w5.store.runtime.openOrders| + w.history.lost.orders
    requires (!w5.history.faulted ==> Books(w5.store)) && (w6.history.faulted <==> w5.history.faulted)
    requires call.approvalKey.Some? ==> Spent(w6.store, call.approvalKey.value)
    ensures Inv(w6)
  {
    hide Indebted, InvCore, CountsAgree;
    FinishSettles(w6, key);
  }

  /** The inner try: done, it owes nothing; thrown, it owes at most what latching pays. */
  lemma TryLiveOwes(w: World, i: Intention, p: Policy, runtime: Runtime, s: Snapshot, approval: Option<Approval>,
                    gateAt: int)
    requires Inv(w) && Current(w, i) && GatePassed(w, p, runtime, s, gateAt) && ApprovalRead(w, i, approval)
    requires i.mode.Live? && IntentionReasons(i, approval, p, s, w.now) == []
    ensures var r := TryLive(w, i, runtime, s, approval, gateAt);
      && (r.Done? ==> Inv(r.world))
      && (r.Threw? ==>
            Indebted(r.world, SafeId(i.id).value) && r.world.history.faulted && !r.world.store.killSwitch.latched)
  {
    assert InvCore(w);
    hide *;
    PlacingPreconditions(w, i, p, runtime, s, approval, gateAt);
    PlacingOwes(w, i, p, runtime, s, approval, gateAt);
    LiveStart(w, i, p, runtime, s, approval, gateAt);
    TryLiveSteps(w, i, runtime, s, approval, gateAt);
  }

  lemma ExecuteLiveKeeps(w: World, i: Intention, p: Policy, runtime: Runtime, s: Snapshot, approval: Option<Approval>,
                         gateAt: int)
    requires Inv(w) && Current(w, i) && GatePassed(w, p, runtime, s, gateAt) && ApprovalRead(w, i, approval)
    requires i.mode.Live? && IntentionReasons(i, approval, p, s, w.now) == []
    ensures Inv(ExecuteLive(w, i, runtime, s, approval, gateAt).world)
  {
    hide InvCore, TryLive, LatchCritical, IntentionReasons, SafeId;
    TryLiveOwes(w, i, p, runtime, s, approval, gateAt);
    var tried := TryLive(w, i, runtime, s, approval, gateAt);
    if tried.Threw? {
      LatchSettles(tried.world, SafeId(i.id).value);
      AfterLatchKeeps(tried.world, LiveOrderException, true);
    }
  }

  // ------------------------------------------------------------------ the tick

  lemma ReadApprovalKeeps(w: World, i: Intention)
    requires Inv(w)
    ensures var r := ReadApproval(w, i.humanApprovalId);
      Inv(r.world) && Steady(w, r.world) && r.world.store == w.store && (r.Done? ==> ApprovalRead(r.world, i, r.value))
  {
    hide Inv, SafeId, Steady, ReadApproval, Touch, ApprovalRead;
    TouchKeeps(w);
    ReadIsTouch(w, i);
    SteadyRefl(w);
  }

  lemma ReadIsTouch(w: World, i: Intention)
    ensures var r := ReadApproval(w, i.humanApprovalId);
      && (r.world == w || r.world == Touch(w).world) && r.world.store == w.store
      && (r.Done? ==> ApprovalRead(r.world, i, r.value))
  {
    hide SafeId;
  }

  lemma SteadyRefl(w: World)
    ensures Steady(w, w)
  {
  }

  lemma GateUnlatched(w: World, p: Policy, runtime: Runtime, s: Snapshot, gateAt: int)
    requires GatePassed(w, p, runtime, s, gateAt)
    ensures !w.store.killSwitch.latched
  {
    hide SafeSystem;
  }

  lemma ActKeeps(w: World, env: TickInput, p: Policy, i: Intention, runtime: Runtime, s: Snapshot, gateAt: int)
    requires Inv(w) && Current(w, i) && GatePassed(w, p, runtime, s, gateAt)
    ensures Inv(Act(w, env, p, i, runtime, s, gateAt).world)
  {
    hide Inv, Steady, SafeId, GatePassed, IntentionReasons, ReadApproval, RequestApproval, Reject, ExecutePaper,
      ExecuteLive;
    ReadApprovalKeeps(w, i);
    var r1 := ReadApproval(w, i.humanApprovalId);
    if r1.Done? {
      GateStays(w, r1.world, p, runtime, s, gateAt);
      var reasons := IntentionReasons(i, r1.value, p, s, r1.world.now);
      if reasons != [] {
        if i.mode.Live? && ApprovalMissing in reasons {
          assert !r1.world.store.killSwitch.latched by { GateUnlatched(r1.world, p, runtime, s, gateAt); }
          RequestApprovalKeeps(r1.world, env, i, p);
        } else {
          RejectKeeps(r1.world, i);
        }
      } else if i.mode.Paper? {
        ExecutePaperKeeps(r1.world, i, p, runtime, s, gateAt);
      } else {
        ExecuteLiveKeeps(r1.world, i, p, runtime, s, r1.value, gateAt);
      }
    }
  }

  /** The record chosen by the scheduler is the stored record of its key. */
  lemma SelectedIsCurrent(w: World, i: Intention)
    requires KeysMatch(w.store)
    requires SelectNext(Listing(w.store.intentions, w.store.intentions.Keys), w.now) == Some(i)
    ensures Current(w, i)
  {
    hide SafeId, SelectNext, Listing;
    var list := Listing(w.store.intentions, w.store.intentions.Keys);
    SelectNextSpec(list, w.now);
    var at: nat :| at < |list| && Candidate(list, at, w.now) && i == list[at];
    ListingMember(w.store.intentions, w.store.intentions.Keys, i);
    var k :| k in w.store.intentions && w.store.intentions[k] == i;
    assert SafeId(i.id) == Some(k);
  }

  lemma ListKeeps(w: World)
    requires Inv(w)
    ensures var r := ListIntentions(w);
      && Inv(r.world) && Steady(w, r.world)
      && (r.Done? ==> r.value == Listing(r.world.store.intentions, r.world.store.intentions.Keys))
  {
    TouchKeeps(w);
    hide Inv, Listing;
  }

  lemma ExecuteKeeps(w: World, env: TickInput, p: Policy, runtime: Runtime, s: Snapshot, gateAt: int)
    requires Inv(w) && GatePassed(w, p, runtime, s, gateAt)
    ensures Inv(Execute(w, env, p, runtime, s, gateAt).world)
  {
    hide InvCore, Books, Steady, SafeId, GatePassed, SelectNext, RejectExpired, ListIntentions, Sweep, AppendJournal,
      Act, Listing;
    ListKeeps(w);
    var r1 := ListIntentions(w);
    if r1.Done? {
      GateStays(w, r1.world, p, runtime, s, gateAt);
      AllStored(r1.world);
      SweepKeeps(r1.world, r1.world.store.intentions, r1.world.store.intentions.Keys, r1.world.now);
      var r2 := Sweep(r1.world, RejectExpired(r1.value, r1.world.now));
      if r2.Done? {
        GateStays(r1.world, r2.world, p, runtime, s, gateAt);
        ListKeeps(r2.world);
        var r3 := ListIntentions(r2.world);
        if r3.Done? {
          GateStays(r2.world, r3.world, p, runtime, s, gateAt);
          var next := SelectNext(r3.value, r3.world.now);
          if next.None? {
            QuietJournalKeeps(r3.world, NoAction, None);
          } else {
            AllStored(r3.world);
            SelectedIsCurrent(r3.world, next.value);
            ActKeeps(r3.world, env, p, next.value, runtime, s, gateAt);
          }
        }
      }
    }
  }

  lemma AllStored(w: World)
    requires InvCore(w)
    ensures KeysMatch(w.store) && StillStored(w.store, w.store.intentions, w.store.intentions.Keys)
  {
    hide SafeId;
  }

  lemma JournalAndKeeps(w: World, kind: JournalKind, status: TickStatus)
    requires Inv(w) && !OrderKind(kind)
    ensures Inv(JournalAnd(w, kind, status).world)
  {
    hide Inv, AppendJournal;
    QuietJournalKeeps(w, kind, None);
  }

  lemma StartKeeps(w: World)
    requires Inv(w)
    ensures var w' := WriteRuntime(w, w.store.runtime.(lastCronAt := Some(w.now))).world; Inv(w') && Steady(w, w')
  {
    var runtime := w.store.runtime.(lastCronAt := Some(w.now));
    var store := w.store.(runtime := runtime);
    CommitMoves(w, store);
    hide InvCore;
    var w' := WriteRuntime(w, runtime).world;
    FrameKeeps(w, w');
  }

  lemma InForce(w: World)
    requires InvCore(w)
    ensures w.store.policyState.policy.enabled && w.store.policyState.policy.mode.Live? ==> w.history.sawLive
    ensures w.store.runtime.lastPrivateStreamAt.None?
  {
  }

  lemma GateOpens(w: World, p: Policy, runtime: Runtime, s: Snapshot)
    requires Inv(w) && w.store.policyState.valid && w.store.policyState.policy == p && p.enabled
    requires !w.store.killSwitch.latched && !w.store.killSwitch.panic
    requires runtime.openOrders == w.store.runtime.openOrders && runtime.paperOrders == w.store.runtime.paperOrders
    requires runtime.lastPrivateStreamAt.None? && (OwnOrders(s, runtime) || w.history.foreignSnapshot)
    ensures p.mode.Live? ==> w.history.sawLive
    ensures SystemReasons(p, runtime, s, w.now) == [] ==> GatePassed(w, p, runtime, s, w.now)
  {
    hide SystemReasons, SafeSystem, OwnOrders, KeysMatch, DatesValid, AllJustified, ApprovedOnce, Balanced, Capped,
      PaperOnly, Books, Fresh, Backing, Provenance, PolicyLoader.BoundedOrDisabled;
    SystemSafetyMeaning(p, runtime, s, w.now);
  }

  lemma BodyStarts(w: World)
    requires Inv(w)
    ensures w.store.runtime.lastPrivateStreamAt.None?
    ensures var w' := WriteRuntime(w, w.store.runtime.(lastCronAt := Some(w.now))).world; Inv(w') && Steady(w, w')
  {
    StartKeeps(w);
  }

  lemma GatedKeeps(w: World, env: TickInput, p: Policy, runtime: Runtime, s: Snapshot)
    requires Inv(w) && w.store.policyState.valid && w.store.policyState.policy == p && p.enabled
    requires !w.store.killSwitch.latched && !w.store.killSwitch.panic
    requires runtime.openOrders == w.store.runtime.openOrders && runtime.paperOrders == w.store.runtime.paperOrders
    requires runtime.lastPrivateStreamAt.None? && (OwnOrders(s, runtime) || w.history.foreignSnapshot)
    ensures Inv(Gated(w, env, p, runtime, s).world)
  {
    hide GatePassed, Inv, Steady, SystemReasons, RefuseUnsafe, Touch, Execute, IsCritical, JournalAnd, OwnOrders;
    GateOpens(w, p, runtime, s);
    var reasons := SystemReasons(p, runtime, s, w.now);
    if reasons != [] {
      RefuseUnsafeKeeps(w, p, IsCritical(reasons));
    } else {
      TouchKeeps(w);
      var r1 := Touch(w);
      if r1.Done? {
        GateStays(w, r1.world, p, runtime, s, w.now);
        if env.reconcileRequired {
          JournalAndKeeps(r1.world, ReconcileRequired, ReconcileStatus);
        } else {
          ExecuteKeeps(r1.world, env, p, runtime, s, w.now);
        }
      }
    }
  }

  lemma TickBodyKeeps(w: World, env: TickInput)
    requires Inv(w)
    ensures Inv(TickBody(w, env).world)
  {
    var ps, ks, runtime := w.store.policyState, w.store.killSwitch, w.store.runtime.(lastCronAt := Some(w.now));
    hide Inv, WriteRuntime, JournalAnd, GetRuntimeSnapshot, Gated, OwnOrders;
    BodyStarts(w);
    var r1 := WriteRuntime(w, runtime);
    if r1.Done? {
      if !ps.valid || !ps.policy.enabled {
        JournalAndKeeps(r1.world, NoAction, if ps.valid then PolicyDisabled else PolicyInvalid);
      } else if ks.latched || ks.panic {
        JournalAndKeeps(r1.world, Halt, Halted);
      } else {
        SnapshotKeeps(r1.world, env.snapshot);
        var r2 := GetRuntimeSnapshot(r1.world, env.snapshot);
        if r2.Done? {
          SnapshotFacts(r1.world, env.snapshot, runtime);
          GatedKeeps(r2.world, env, ps.policy, runtime, env.snapshot);
        }
      }
    }
  }

  lemma SnapshotFacts(w: World, s: Snapshot, runtime: Runtime)
    requires GetRuntimeSnapshot(w, s).Done? && runtime.openOrders == w.store.runtime.openOrders
    ensures var r := GetRuntimeSnapshot(w, s);
      r.value == s && (OwnOrders(s, runtime) || r.world.history.foreignSnapshot)
  {
  }

  lemma AcquireKeeps(w: World, ttl: int)
    requires Inv(w)
    ensures Inv(AcquireLock(w, ttl).world)
  {
    hide InvCore, Books;
    if !LockBlocks(w.store.lock, w.now) {
      CommitMoves(w, w.store.(lock := Some(Lock(w.now + ttl))));
      FrameKeeps(w, AcquireLock(w, ttl).world);
    }
  }

  lemma ReleaseKeeps(w: World)
    requires Inv(w)
    ensures Inv(ReleaseLock(w).world)
  {
    hide InvCore, Books;
    if w.store.lock.Some? {
      CommitMoves(w, w.store.(lock := Some(Lock(0))));
      FrameKeeps(w, ReleaseLock(w).world);
    }
  }

  lemma GuardedBodyKeeps(w: World, env: TickInput)
    requires Inv(w)
    ensures Inv(GuardedBody(w, env).world)
  {
    hide Inv, TickBody, JournalAnd;
    TickBodyKeeps(w, env);
    var body := TickBody(w, env);
    if body.Threw? { JournalAndKeeps(body.world, ErrorEntry, CronError); }
  }

  lemma LockedTickKeeps(w: World, env: TickInput)
    requires Inv(w)
    ensures Inv(LockedTick(w, env).world)
  {
    hide Inv, ReleaseLock, GuardedBody;
    GuardedBodyKeeps(w, env);
    ReleaseKeeps(GuardedBody(w, env).world);
  }

  lemma CronKeeps(w: World, env: TickInput)
    requires Inv(w)
    ensures Inv(RunMinuteCron(w, env).world)
  {
    hide Inv, Touch, AcquireLock, LockedTick;
    TouchKeeps(w);
    var r0 := Touch(w);
    if r0.Done? {
      AcquireKeeps(r0.world, LOCK_TTL_MS);
      var r1 := AcquireLock(r0.world, LOCK_TTL_MS);
      if r1.Done? && r1.value {
        LockedTickKeeps(r1.world, env);
      }
    }
  }

  // ------------------------------------------------------------------ the other steps

  /** One staging pays for one turn. */
  lemma StagingPays(st: Store, st': Store, ps: seq<Placement>, turns: multiset<string>, key: string, i: Intention)
    requires st' == st.(intentions := st.intentions[key := i]) && Balanced(st, ps, turns)
    ensures Balanced(st', ps, turns + multiset{key})
  {
    hide PaperKeys, PlacedKeys;
    assert forall k :: BalancedAt(st, ps, turns, k) ==> BalancedAt(st', ps, turns + multiset{key}, k);
  }

  lemma StagedStore(st: Store, key: string, i: Intention, ps: seq<Placement>, cancelAlls: nat, sawLive: bool)
    requires SafeId(i.id) == Some(key) && i.status.Staged? && i.createdAt.At? && i.expiresAt.At?
    requires KeysMatch(st) && DatesValid(st) && (!sawLive ==> PaperOnly(st, ps, cancelAlls)) &&
      (i.mode.Live? ==> sawLive)
    ensures var st' := st.(intentions := st.intentions[key := i]);
      KeysMatch(st') && DatesValid(st') && (!sawLive ==> PaperOnly(st', ps, cancelAlls))
  {
    hide SafeId;
  }

  lemma StagedKeeps(w: World, i: Intention)
    requires Inv(w) && i.status.Staged? && i.createdAt.At? && i.expiresAt.At?
    requires i.mode.Live? ==> w.history.sawLive
    ensures Inv(SaveStaged(w, i).world)
  {
    hide SafeId, Inv, InvCore;
    CoreOf(w);
    if SafeId(i.id).Some? {
      var key := SafeId(i.id).value;
      var store := w.store.(intentions := w.store.intentions[key := i]);
      CommitMoves(w, store);
      var w' := SaveStaged(w, i).world;
      if NextFault(w).ThrowsBefore? {
        IdleKeeps(w, w');
      } else {
        StagedStoreKeeps(w, w', key, i);
      }
    }
  }

  lemma StagingNoted(h: History, key: string, reference: Option<string>)
    ensures var h' := NoteStaging(h, key, reference);
      && Turns(h') == Turns(h) + multiset{key} && Spare(h') == Spare(h)
      && h'.placements == h.placements && h'.lost == h.lost && h'.reused == h.reused
      && h.references <= h'.references && (reference.Some? ==> reference.value in h'.references)
      && h'.approved == h.approved && h'.foreignSnapshot == h.foreignSnapshot && h'.sawLive == h.sawLive
      && h'.sawPaper == h.sawPaper && h'.cancelAlls == h.cancelAlls && h'.faulted == h.faulted
  {
  }

  lemma TracedMore(st: Store, ps: seq<Placement>, approved: set<string>, refs: set<string>, approved': set<string>,
                   refs': set<string>)
    requires Provenance(st, ps, approved, refs) && approved <= approved' && refs <= refs'
    ensures Provenance(st, ps, approved', refs')
  {
  }

  lemma StagedStoreKeeps(w: World, w': World, key: string, i: Intention)
    requires Inv(w) && SafeId(i.id) == Some(key) && i.status.Staged? && i.createdAt.At? && i.expiresAt.At?
    requires i.mode.Live? ==> w.history.sawLive
    requires w'.store == w.store.(intentions := w.store.intentions[key := i]) && w.now <= w'.now
    requires w'.history == NoteStaging(w.history.(faulted := w'.history.faulted), key, i.humanApprovalId)
    requires w.history.faulted ==> w'.history.faulted
    ensures Inv(w')
  {
    hide SafeId, KeysMatch, DatesValid, PolicyInForce, AllJustified, ApprovedOnce, Balanced, Capped, PaperOnly, Fresh,
      Backing, Provenance, CountsAgree, NoteStaging, Turns, Spare;
    var h, h', ps, store := w.history.(faulted := w'.history.faulted), w'.history, w.history.placements, w'.store;
    StagingNoted(h, key, i.humanApprovalId);
    SameTurns(w.history, h);
    SameSpare(w.history, h);
    ApprovalsFrame(w.store, store, ps, Spare(h), Spare(h));
    BackingFrame(w.store, store, ps, h.reused, h.reused, w.now, w'.now);
    CappedFrame(w.store, store, ps, h.lost.orders, h.sawPaper);
    StagingPays(w.store, store, ps, Turns(h), key, i);
    StagedStore(w.store, key, i, ps, h.cancelAlls, h.sawLive);
    TracedMore(w.store, ps, h.approved, h.references, h'.approved, h'.references);
    TracedStore(w.store, key, i, ps, h'.approved, h'.references);
  }

  lemma RefuseStagingKeeps(w: World, i: Intention)
    requires Inv(w) && i.status.Rejected?
    ensures var r1 := SaveIntention(w, i);
      Inv(r1.world) && (r1.Done? ==> Inv(AppendJournal(r1.world, IntentionRejected, Some(i.id)).world))
  {
    hide Inv, InvCore, SafeId, SaveIntention, AppendJournal;
    CoreOf(w);
    SaveIntentionKeeps(w, i);
    var r1 := SaveIntention(w, i);
    if r1.Done? { QuietJournalKeeps(r1.world, IntentionRejected, Some(i.id)); }
  }

  lemma AcceptStagingKeeps(w: World, raw: RawIntention, i: Intention)
    requires Inv(w) && i.status.Staged? && StageReasons(raw, i, w.store.policyState, w.now) == []
    ensures var r1 := SaveStaged(w, i);
      Inv(r1.world) && (r1.Done? ==> Inv(AppendJournal(r1.world, IntentionStaged, Some(i.id)).world))
  {
    hide Inv, InvCore, SafeId, SaveStaged, SaveIntention, AppendJournal, StageReasons;
    CoreOf(w);
    InForce(w);
    AcceptedForStaging(raw, i, w.store.policyState, w.now);
    StagedKeeps(w, i);
    var r1 := SaveStaged(w, i);
    if r1.Done? { QuietJournalKeeps(r1.world, IntentionStaged, Some(i.id)); }
  }

  lemma StageKeeps(w: World, raw: RawIntention)
    requires Inv(w)
    ensures Inv(StageIntention(w, raw).world)
  {
    hide Inv, SafeId, Touch, SaveIntention, SaveStaged, AppendJournal, AsString, StageReasons;
    TouchKeeps(w);
    var r0 := Touch(w);
    if r0.Done? {
      var i := NormalizeIntention(raw, r0.world.store.policyState.policy, r0.world.now);
      if StageReasons(raw, i, r0.world.store.policyState, r0.world.now) != [] {
        RefuseStagingKeeps(r0.world, i.(status := Rejected));
      } else {
        AcceptStagingKeeps(r0.world, raw, i);
      }
    }
  }

  lemma AcceptedForStaging(raw: RawIntention, i: Intention, ps: LoadedPolicy, now: int)
    requires StageReasons(raw, i, ps, now) == []
    ensures ps.policy.enabled && i.mode == ps.policy.mode && i.createdAt.At? && i.expiresAt.At?
  {
    hide AsString;
  }

  lemma CancelKeeps(w: World, id: string)
    requires Inv(w)
    ensures Inv(CancelIntention(w, id).world)
  {
    hide Inv, Touch, ReadIntention, SaveIntention, SafeId;
    TouchKeeps(w);
    var r0 := Touch(w);
    if r0.Done? {
      ReadIntentionKeeps(r0.world, id);
      var r1 := ReadIntention(r0.world, id);
      if r1.Done? && r1.value.Some? {
        CoreOf(r1.world);
        SaveIntentionKeeps(r1.world, r1.value.value.(status := Cancelled));
      }
    }
  }

  lemma CoreOf(w: World)
    requires Inv(w)
    ensures InvCore(w)
  {
  }

  lemma RefreshKeeps(w: World, file: PolicyLoader.PolicyFile)
    requires Inv(w)
    ensures Inv(RefreshPolicy(w, file).world)
  {
    hide KeysMatch, DatesValid, AllJustified, ApprovedOnce, Balanced, Fresh, Backing, Provenance, CountsAgree, Turns,
      PolicyLoader.BoundedOrDisabled, PolicyLoader.LoadProjectPolicy;
    var h, loaded, ps := w.history, PolicyLoader.LoadProjectPolicy(file), w.history.placements;
    PolicyLoader.LoadedPolicyIsBoundedOrDisabled(file);
    var store := w.store.(policyState := loaded);
    CommitMoves(w, store);
    var w' := RefreshPolicy(w, file).world;
    if NextFault(w).ThrowsBefore? {
      IdleKeeps(w, w');
    } else {
      assert w'.store == store;
      SameTurns(h, w'.history);
      ApprovalsFrame(w.store, store, ps, Spare(h), Spare(h));
      BackingFrame(w.store, store, ps, h.reused, h.reused, w.now, w'.now);
      BalancedFrame(w.store, store, ps, Turns(h));
      ProvenanceFrame(w.store, store, ps, h.approved, h.references);
      KeysFrame(w.store, store);
    }
  }
}
