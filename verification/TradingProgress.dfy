/** Order and progress of fault-free ticks: which record is taken, when a tick acts, and when the queue empties. */
module TradingProgress {
  import opened Basics
  import opened JsStrings
  import opened TradingTypes
  import opened TradingSafety
  import opened StorageSpec
  import opened OpsSpec
  import opened TradingInvariant
  import opened TradingHistory
  import opened TradingCalls

  predicate WaitingRecord(i: Intention, t: int) {
    Executable(i) && i.expiresAt.After(t)
  }

  /** The keys whose records could still be executed at time `t`. */
  ghost function Waiting(m: map<string, Intention>, t: int): set<string> {
    set k | k in m && WaitingRecord(m[k], t)
  }

  // ------------------------------------------------------------------ the sweep

  /** The sweep may only turn expired staged records into `expired` ones. */
  ghost predicate SweptFrom(m: map<string, Intention>, m': map<string, Intention>, at: int) {
    && m'.Keys == m.Keys
    && forall k :: k in m ==>
         m'[k] == m[k] || (m[k].status.Staged? && m[k].expiresAt.NotAfter(at) && m'[k].status.Expired?)
  }

  lemma SweepOne(w: World, e: Intention, first: string)
    requires NoFaults(w.script) && SafeId(e.id) == Some(first)
    ensures var r1 := SaveIntention(w, e);
      && r1.Done? && NoFaults(r1.world.script) && w.now <= r1.world.now
      && var r2 := AppendJournal(r1.world, IntentionRejected, Some(e.id));
         && r2.Done? && NoFaults(r2.world.script) && r1.world.now <= r2.world.now
         && r2.world.store.intentions == w.store.intentions[first := e]
  {
    hide SafeId;
  }

  lemma ReadFine(w: World, id: string)
    requires NoFaults(w.script) && SafeId(id).Some?
    ensures var r := ReadIntention(w, id);
      && r.Done? && NoFaults(r.world.script) && w.now <= r.world.now && r.world.store == w.store
      && r.value == if SafeId(id).value in w.store.intentions then Some(w.store.intentions[SafeId(id).value]) else None
  {
    hide SafeId;
  }

  lemma {:induction false} SweepEffect(w: World, m: map<string, Intention>, keys: set<string>, at: int)
    requires NoFaults(w.script) && StillStored(w.store, m, keys)
    ensures var r := Sweep(w, RejectExpired(Listing(m, keys), at));
      && r.Done? && NoFaults(r.world.script) && w.now <= r.world.now
      && SweptFrom(w.store.intentions, r.world.store.intentions, at)
    decreases |keys|
  {
    hide NoFaults, SafeId, AppendJournal, SaveIntention, ReadIntention, Listing, RejectExpired;
    if keys != {} {
      var first := FirstKey(keys);
      var rest, list := keys - {first}, RejectExpired(Listing(m, keys), at);
      SweepHead(m, keys, at);
      var e := list[0];
      ReadFine(w, e.id);
      var r1 := ReadIntention(w, e.id);
      if e != m[first] {
        SweepOne(r1.world, e, first);
        var r3 := AppendJournal(SaveIntention(r1.world, e).world, IntentionRejected, Some(e.id));
        SweepEffect(r3.world, m, rest, at);
      } else {
        SweepEffect(r1.world, m, rest, at);
      }
    } else {
      SweepNothing(w, m, at);
    }
  }

  /** The records waiting at `t` are unchanged. */
  ghost predicate SameWaiting(m: map<string, Intention>, m': map<string, Intention>, t: int) {
    forall k :: k in Waiting(m, t) ==> k in m' && m'[k] == m[k]
  }

  lemma SweptWaiting(m: map<string, Intention>, m': map<string, Intention>, at: int, t: int)
    requires SweptFrom(m, m', at) && at <= t
    ensures Waiting(m', t) == Waiting(m, t) && SameWaiting(m, m', t)
  {
    forall k
      ensures k in Waiting(m', t) <==> k in Waiting(m, t)
    {
    }
  }

  // ------------------------------------------------------------------ choosing

  lemma SurveyEffect(w: World)
    requires Inv(w) && NoFaults(w.script)
    ensures var r := Survey(w);
      && r.Done? && Inv(r.world) && NoFaults(r.world.script) && w.now <= r.world.now && Steady(w, r.world)
      && r.value == Listing(r.world.store.intentions, r.world.store.intentions.Keys)
      && Waiting(r.world.store.intentions, r.world.now) == Waiting(w.store.intentions, r.world.now)
      && SameWaiting(w.store.intentions, r.world.store.intentions, r.world.now)
  {
    hide Inv, Sweep, Listing, RejectExpired, Waiting, SameWaiting;
    ListKeeps(w);
    ListFine(w);
    var w1 := ListIntentions(w).world;
    StoredAll(w1);
    SweepKeeps(w1, w1.store.intentions, w1.store.intentions.Keys, w1.now);
    SweepEffect(w1, w1.store.intentions, w1.store.intentions.Keys, w1.now);
    var r2 := Sweep(w1, RejectExpired(Listing(w1.store.intentions, w1.store.intentions.Keys), w1.now));
    ListKeeps(r2.world);
    ListFine(r2.world);
    var w3 := ListIntentions(r2.world).world;
    SweptWaiting(w1.store.intentions, r2.world.store.intentions, w1.now, w3.now);
  }

  lemma StoredAll(w: World)
    requires Inv(w)
    ensures StillStored(w.store, w.store.intentions, w.store.intentions.Keys) && KeysMatch(w.store)
  {
    hide InvCore;
    CoreOf(w);
    AllStored(w);
  }

  lemma ListFine(w: World)
    requires NoFaults(w.script)
    ensures var r := ListIntentions(w);
      && r.Done? && NoFaults(r.world.script) && w.now <= r.world.now && r.world.store == w.store
      && r.value == Listing(w.store.intentions, w.store.intentions.Keys)
  {
    hide Listing;
  }

  /** Of the records waiting at `t`, `k` holds the one created first, ties broken by the order of file names. */
  ghost predicate Oldest(m: map<string, Intention>, k: string, t: int) {
    k in Waiting(m, t) && forall o :: o in Waiting(m, t) ==> NoOlder(m[k].createdAt, k, m[o].createdAt, o)
  }

  ghost predicate NoOlder(a: Date, k: string, b: Date, o: string) {
    a.At? && b.At? && (a.ms < b.ms || (a.ms == b.ms && PathLeq(k, o)))
  }

  /** Listed in the order of file names, the first oldest candidate is the oldest record. */
  lemma {:induction false} FirstOldestIsOldest(m: map<string, Intention>, keys: set<string>, at: nat, t: int)
    requires keys <= m.Keys && FirstOldest(Listing(m, keys), at, t)
    ensures exists k ::
              && k in keys && WaitingRecord(m[k], t) && Listing(m, keys)[at] == m[k]
              && forall o :: o in keys && WaitingRecord(m[o], t) ==> NoOlder(m[k].createdAt, k, m[o].createdAt, o)
    decreases |keys|
  {
    hide PathLeq, Executable;
    var list, first := Listing(m, keys), FirstKey(keys);
    var rest := keys - {first};
    assert list == [m[first]] + Listing(m, rest);
    if at == 0 {
      forall o | o in keys && WaitingRecord(m[o], t)
        ensures NoOlder(m[first].createdAt, first, m[o].createdAt, o)
      {
        ListingMember(m, keys, m[o]);
        var j :| 0 <= j < |list| && list[j] == m[o];
        assert Candidate(list, j, t);
      }
    } else {
      TailOldest(list, at, t);
      assert list[1..] == Listing(m, rest);
      FirstOldestIsOldest(m, rest, at - 1, t);
      var k :| && k in rest && WaitingRecord(m[k], t) && Listing(m, rest)[at - 1] == m[k]
               && forall o :: o in rest && WaitingRecord(m[o], t) ==> NoOlder(m[k].createdAt, k, m[o].createdAt, o);
      if WaitingRecord(m[first], t) { assert Candidate(list, 0, t); }
    }
  }

  lemma TailOldest(list: seq<Intention>, at: nat, t: int)
    requires FirstOldest(list, at, t) && at > 0
    ensures FirstOldest(list[1..], at - 1, t)
  {
    hide Executable;
    forall j | 0 <= j < |list[1..]|
      ensures Candidate(list[1..], j, t) == Candidate(list, j + 1, t)
    {
    }
  }

  /** No two keys are the oldest. */
  lemma OneOldest(m: map<string, Intention>, a: string, b: string, t: int)
    requires Oldest(m, a, t) && Oldest(m, b, t)
    ensures a == b
  {
    hide PathLeq;
    PathAntisymmetricIff(a, b);
  }

  lemma PathAntisymmetricIff(a: string, b: string)
    ensures PathLeq(a, b) && PathLeq(b, a) ==> a == b
  {
    if PathLeq(a, b) && PathLeq(b, a) { PathAntisymmetric(a, b); }
  }

  /**
   After the sweep the scheduler finds nothing exactly when no record waits, and otherwise takes the record created
   first among those that wait, the first in the order of file names among those created with it.
   */
  lemma TakesTheOldest(w: World)
    requires Inv(w) && NoFaults(w.script)
    ensures var r := Survey(w);
      && r.Done?
      && (SelectNext(r.value, r.world.now).None? <==> Waiting(w.store.intentions, r.world.now) == {})
      && (SelectNext(r.value, r.world.now).Some? ==>
            && Current(r.world, SelectNext(r.value, r.world.now).value)
            && exists k ::
                 k in w.store.intentions && Oldest(w.store.intentions, k, r.world.now) &&
                 SelectNext(r.value, r.world.now).value == w.store.intentions[k])
  {
    hide Inv, Survey, SelectNext, Listing, Current, Oldest, SameWaiting;
    SurveyEffect(w);
    var r := Survey(w);
    StoredAll(r.world);
    SelectNextSpec(r.value, r.world.now);
    ListedWaiting(r.world.store.intentions, r.world.now);
    if SelectNext(r.value, r.world.now).Some? {
      var i := SelectNext(r.value, r.world.now).value;
      SelectedIsCurrent(r.world, i);
      SelectedIsOldest(r.world, i);
      SweepKeepsOldest(w.store.intentions, r.world.store.intentions, r.world.now);
    }
  }

  lemma SelectedIsOldest(w: World, i: Intention)
    requires Inv(w) && SelectNext(Listing(w.store.intentions, w.store.intentions.Keys), w.now) == Some(i)
    ensures exists k :: k in w.store.intentions && Oldest(w.store.intentions, k, w.now) && i == w.store.intentions[k]
  {
    hide Inv, SelectNext, Listing, FirstOldest;
    var m, list := w.store.intentions, Listing(w.store.intentions, w.store.intentions.Keys);
    WaitingAreDated(w);
    SelectNextSpec(list, w.now);
    var at: nat :| at < |list| && FirstOldest(list, at, w.now) && i == list[at];
    FirstOldestIsOldest(m, m.Keys, at, w.now);
    var k :| && k in m.Keys && WaitingRecord(m[k], w.now) && list[at] == m[k]
             && forall o :: o in m.Keys && WaitingRecord(m[o], w.now) ==>
                  NoOlder(m[k].createdAt, k, m[o].createdAt, o);
    assert Oldest(m, k, w.now);
  }

  lemma WaitingAreDated(w: World)
    requires Inv(w)
    ensures Dated(Listing(w.store.intentions, w.store.intentions.Keys), w.now)
  {
    hide Listing, KeysMatch, PolicyInForce, AllJustified, ApprovedOnce, Balanced, Capped, PaperOnly, Books, Fresh,
      Backing, Provenance;
    var m, list := w.store.intentions, Listing(w.store.intentions, w.store.intentions.Keys);
    forall j | 0 <= j < |list| && Candidate(list, j, w.now)
      ensures list[j].createdAt.At?
    {
      ListingMember(m, m.Keys, list[j]);
    }
  }

  lemma SweepKeepsOldest(m: map<string, Intention>, m': map<string, Intention>, t: int)
    requires SameWaiting(m, m', t) && Waiting(m', t) == Waiting(m, t)
    ensures forall k :: Oldest(m', k, t) ==> k in m && k in m' && Oldest(m, k, t) && m'[k] == m[k]
  {
    hide PathLeq, Executable;
  }

  lemma ListedWaiting(m: map<string, Intention>, t: int)
    ensures var list := Listing(m, m.Keys);
      (forall j :: 0 <= j < |list| ==> !Candidate(list, j, t)) <==> Waiting(m, t) == {}
  {
    hide Listing;
    var list := Listing(m, m.Keys);
    if k :| k in Waiting(m, t) {
      ListingMember(m, m.Keys, m[k]);
      var j :| 0 <= j < |list| && list[j] == m[k];
      assert Candidate(list, j, t);
    }
    if j :| 0 <= j < |list| && Candidate(list, j, t) {
      ListingMember(m, m.Keys, list[j]);
      var k :| k in m && m[k] == list[j];
      assert k in Waiting(m, t);
    }
  }

  // ------------------------------------------------------------------ acting

  /** The guard the code relies on: the approval reference is absent, empty, or has a storage key. */
  predicate ReadableApproval(i: Intention) {
    i.humanApprovalId.None? || i.humanApprovalId.value == "" || SafeId(i.humanApprovalId.value).Some?
  }

  lemma {:induction false} KeyCharsKeepSomething(s: string)
    ensures KeyChars(s) == [] <==> s == []
  {
  }

  /** The guard fails exactly for a reference of white space only, which staging accepts like any other string. */
  lemma UnreadableIff(i: Intention)
    ensures !ReadableApproval(i) <==>
            i.humanApprovalId.Some? && i.humanApprovalId.value != "" && Trim(i.humanApprovalId.value) == ""
  {
    hide Trim, KeyChars;
    if i.humanApprovalId.Some? { KeyCharsKeepSomething(Trim(i.humanApprovalId.value)); }
  }

  /** The record of `key` was rewritten so that it no longer waits; nothing else changed among the records. */
  ghost predicate Consumed(w: World, r: Outcome<TickStatus>, key: string) {
    && r.Done? && NoFaults(r.world.script) && w.now <= r.world.now
    && exists x: Intention :: !Executable(x) && r.world.store.intentions == w.store.intentions[key := x]
  }

  lemma AppendFine(w: World, kind: JournalKind, id: Option<string>)
    requires NoFaults(w.script)
    ensures var r := AppendJournal(w, kind, id);
      && r.Done? && NoFaults(r.world.script) && w.now <= r.world.now && r.world.store.intentions == w.store.intentions
  {
  }

  lemma SaveFine(w: World, i: Intention, key: string)
    requires NoFaults(w.script) && SafeId(i.id) == Some(key)
    ensures var r := SaveIntention(w, i);
      && r.Done? && NoFaults(r.world.script) && w.now <= r.world.now
      && r.world.store.intentions == w.store.intentions[key := i]
  {
    hide SafeId;
  }

  lemma TouchFine(w: World)
    requires NoFaults(w.script)
    ensures var r := Touch(w);
      r.Done? && NoFaults(r.world.script) && w.now <= r.world.now && r.world.store == w.store
  {
  }

  lemma WriteFine(w: World, runtime: Runtime)
    requires NoFaults(w.script)
    ensures var r := WriteRuntime(w, runtime);
      && r.Done? && NoFaults(r.world.script) && w.now <= r.world.now && r.world.store.intentions == w.store.intentions
  {
  }

  lemma RejectConsumes(w: World, i: Intention, key: string)
    requires NoFaults(w.script) && SafeId(i.id) == Some(key)
    ensures Consumed(w, Reject(w, i), key)
  {
    hide SafeId, SaveIntention, AppendJournal, NoFaults;
    var x := i.(status := Rejected);
    SaveFine(w, x, key);
    AppendFine(SaveIntention(w, x).world, IntentionRejected, Some(i.id));
    assert !Executable(x) && Reject(w, i).world.store.intentions == w.store.intentions[key := x];
  }

  lemma PaperConsumes(w: World, i: Intention, runtime: Runtime, key: string)
    requires NoFaults(w.script) && SafeId(i.id) == Some(key)
    ensures Consumed(w, ExecutePaper(w, i, runtime), key)
  {
    hide SafeId, SaveIntention, AppendJournal, WriteRuntime, Touch, NoFaults;
    var x := i.(status := Executed);
    SaveFine(w, x, key);
    var w1 := SaveIntention(w, x).world;
    var runtime' := runtime.(paperOrders := runtime.paperOrders + [PaperOrderOf(i)]);
    WriteFine(w1, runtime');
    var w2 := WriteRuntime(w1, runtime').world;
    AppendFine(w2, PaperOrderEntry, Some(i.id));
    TouchFine(AppendJournal(w2, PaperOrderEntry, Some(i.id)).world);
    assert !Executable(x) && ExecutePaper(w, i, runtime).world.store.intentions == w.store.intentions[key := x];
  }

  lemma SnapshotFine(w: World, s: Snapshot)
    requires NoFaults(w.script)
    ensures var r := GetRuntimeSnapshot(w, s);
      && r.Done? && NoFaults(r.world.script) && w.now <= r.world.now && r.world.store == w.store && r.value == s
  {
  }

  lemma NewApprovalFine(w: World, a: Approval)
    requires NoFaults(w.script) && SafeId(a.id).Some?
    ensures var r := SaveNewApproval(w, a);
      && r.Done? && NoFaults(r.world.script) && w.now <= r.world.now && r.world.store.intentions == w.store.intentions
  {
    hide SafeId;
  }

  lemma RequestConsumes(w: World, env: TickInput, i: Intention, p: Policy, key: string)
    requires NoFaults(w.script) && SafeId(i.id) == Some(key) && SafeId(env.approvalId).Some?
    ensures Consumed(w, RequestApproval(w, env, i, p), key)
  {
    hide SafeId, GetRuntimeSnapshot, SaveNewApproval, SaveIntention, AppendJournal, Touch, NoFaults;
    SnapshotFine(w, env.later);
    var w1 := GetRuntimeSnapshot(w, env.later).world;
    var a := NewApproval(i, p, env.later, env.approvalId, w1.now);
    NewApprovalFine(w1, a);
    var w2 := SaveNewApproval(w1, a).world;
    var x := i.(humanApprovalId := Some(env.approvalId), status := ApprovalRequested);
    SaveFine(w2, x, key);
    var w3 := SaveIntention(w2, x).world;
    AppendFine(w3, ApprovalRequestedEntry, Some(i.id));
    TouchFine(AppendJournal(w3, ApprovalRequestedEntry, Some(i.id)).world);
    assert !Executable(x) && RequestApproval(w, env, i, p).world.store.intentions == w.store.intentions[key := x];
  }

  lemma PlaceFine(w: World, i: Intention, s: Snapshot, approval: Option<Approval>, gateAt: int)
    requires NoFaults(w.script) && SafeId(i.id).Some?
    ensures var r := PlaceLimitOrder(w, i, s, approval, gateAt);
      r.Done? && NoFaults(r.world.script) && w.now <= r.world.now && r.world.store == w.store
  {
    hide SafeId, CallOf, Take;
  }

  lemma MarkFine(w: World, approval: Option<Approval>)
    requires NoFaults(w.script) && (approval.Some? ==> SafeId(approval.value.id).Some?)
    ensures var r := MarkUsed(w, approval);
      && r.Done? && NoFaults(r.world.script) && w.now <= r.world.now && r.world.store.intentions == w.store.intentions
  {
    hide SafeId;
  }

  lemma LiveConsumes(w: World, i: Intention, runtime: Runtime, s: Snapshot, approval: Option<Approval>, gateAt: int,
                     key: string)
    requires NoFaults(w.script) && SafeId(i.id) == Some(key) && (approval.Some? ==> SafeId(approval.value.id).Some?)
    ensures Consumed(w, ExecuteLive(w, i, runtime, s, approval, gateAt), key)
    ensures ExecuteLive(w, i, runtime, s, approval, gateAt).value.LivePlaced?
  {
    hide SafeId, PlaceLimitOrder, SaveIntention, WriteRuntime, AppendJournal, Touch, MarkUsed, LatchCritical, NoFaults;
    PlaceFine(w, i, s, approval, gateAt);
    var r1 := PlaceLimitOrder(w, i, s, approval, gateAt);
    var x := i.(status := Executed);
    SaveFine(r1.world, x, key);
    var w2 := SaveIntention(r1.world, x).world;
    var runtime' := runtime.(openOrders := runtime.openOrders + [OpenOrder(r1.value, i.symbol, i.side)]);
    WriteFine(w2, runtime');
    var w3 := WriteRuntime(w2, runtime').world;
    AppendFine(w3, LiveOrderEntry, Some(i.id));
    var w4 := AppendJournal(w3, LiveOrderEntry, Some(i.id)).world;
    TouchFine(w4);
    MarkFine(Touch(w4).world, approval);
    var r := TryLive(w, i, runtime, s, approval, gateAt);
    assert r.Done? && !Executable(x) && r.world.store.intentions == w.store.intentions[key := x];
  }

  lemma ReadApprovalFine(w: World, i: Intention)
    requires NoFaults(w.script)
    ensures var r := ReadApproval(w, i.humanApprovalId);
      && NoFaults(r.world.script) && w.now <= r.world.now && r.world.store == w.store
      && (r.Done? <==> ReadableApproval(i))
  {
    hide SafeId;
  }

  lemma ReadApprovalKey(w: World, i: Intention)
    requires Inv(w)
    ensures var r := ReadApproval(w, i.humanApprovalId); r.Done? && r.value.Some? ==> SafeId(r.value.value.id).Some?
  {
    hide SafeId;
    StoredAll(w);
    hide Inv;
  }

  /**
   Acting consumes the record exactly when its approval reference can be read; otherwise it changes no record at all.
   */
  lemma ActConsumes(w: World, env: TickInput, p: Policy, i: Intention, runtime: Runtime, s: Snapshot, gateAt: int)
    requires Inv(w) && NoFaults(w.script) && SafeId(i.id).Some? && SafeId(env.approvalId).Some?
    ensures var r := Act(w, env, p, i, runtime, s, gateAt);
      && (ReadableApproval(i) ==> Consumed(w, r, SafeId(i.id).value))
      && (!ReadableApproval(i) ==>
            r.Threw? && r.world.store == w.store && NoFaults(r.world.script) && w.now <= r.world.now)
  {
    hide SafeId, ReadApproval, IntentionReasons, Reject, RequestApproval, ExecutePaper, ExecuteLive, Inv, NoFaults,
      ReadableApproval;
    var key := SafeId(i.id).value;
    ReadApprovalFine(w, i);
    ReadApprovalKey(w, i);
    var r1 := ReadApproval(w, i.humanApprovalId);
    if r1.Done? {
      var reasons := IntentionReasons(i, r1.value, p, s, r1.world.now);
      if reasons != [] {
        if i.mode.Live? && ApprovalMissing in reasons {
          RequestConsumes(r1.world, env, i, p, key);
        } else {
          RejectConsumes(r1.world, i, key);
        }
      } else if i.mode.Paper? {
        PaperConsumes(r1.world, i, runtime, key);
      } else {
        LiveConsumes(r1.world, i, runtime, s, r1.value, gateAt, key);
      }
    }
  }

  lemma ConsumedWaiting(m: map<string, Intention>, m': map<string, Intention>, key: string, x: Intention, t: int,
                        t': int)
    requires key in Waiting(m, t) && m' == m[key := x] && !Executable(x) && t <= t'
    ensures Waiting(m', t') <= Waiting(m, t) - {key} && |Waiting(m', t')| < |Waiting(m, t)|
  {
    forall k | k in Waiting(m', t')
      ensures k in Waiting(m, t) - {key}
    {
    }
    SubsetSize(Waiting(m', t'), Waiting(m, t) - {key});
  }

  lemma {:induction false} SubsetSize(a: set<string>, b: set<string>)
    requires a <= b
    ensures |a| <= |b|
  {
    assert b == a + (b - a);
  }

  lemma LaterWaiting(m: map<string, Intention>, t: int, t': int)
    requires t <= t'
    ensures |Waiting(m, t')| <= |Waiting(m, t)|
  {
    forall k | k in Waiting(m, t')
      ensures k in Waiting(m, t)
    {
    }
    SubsetSize(Waiting(m, t'), Waiting(m, t));
  }

  /** The record the scheduler would take can be acted on: its approval reference has a storage key. */
  ghost predicate HeadReadable(w: World) {
    forall k :: Oldest(w.store.intentions, k, Survey(w).world.now) ==> ReadableApproval(w.store.intentions[k])
  }

  /** Of the records waiting at `t` none is new and only readable ones are gone. */
  ghost predicate OnlyReadableGone(m: map<string, Intention>, m': map<string, Intention>, t: int) {
    && (forall k :: k in Waiting(m', t) ==> k in m && m'[k] == m[k])
    && (forall k :: k in Waiting(m, t) && !ReadableApproval(m[k]) ==> k in m' && m'[k] == m[k])
  }

  /**
   A fault-free tick that has passed the gates: with nothing waiting it says so; otherwise, exactly when the
   oldest record's approval reference is readable, it strictly decreases the number of waiting records.
   When the reference is not readable the tick fails and leaves every record as it was after the sweep.
   Either way a record with an unreadable reference waits until it expires.
   */
  lemma GatedTickProgress(w: World, env: TickInput, p: Policy, runtime: Runtime, s: Snapshot, gateAt: int)
    requires Inv(w) && NoFaults(w.script) && SafeId(env.approvalId).Some?
    ensures var r, at := Execute(w, env, p, runtime, s, gateAt), Survey(w).world.now;
      && at <= r.world.now && NoFaults(r.world.script)
      && (Waiting(w.store.intentions, at) == {} ==>
            r.Done? && r.value.NothingToDo? && r.world.store.intentions == Survey(w).world.store.intentions)
      && (Waiting(w.store.intentions, at) != {} ==>
            && (r.Done? <==> HeadReadable(w)) && (r.Done? ==> Acts(r.value))
            && (r.Done? ==> |Waiting(r.world.store.intentions, r.world.now)| < |Waiting(w.store.intentions, at)|)
            && (r.Threw? ==> r.world.store == Survey(w).world.store))
      && OnlyReadableGone(w.store.intentions, r.world.store.intentions, r.world.now)
  {
    hide Inv, Survey, SelectNext, SafeId, Act, AppendJournal, Waiting, ReadableApproval, NoFaults, OnlyReadableGone,
      SameWaiting, Acts, Oldest, HeadReadable, Executable;
    TakesTheOldest(w);
    SurveyEffect(w);
    var r1 := Survey(w);
    var next, m, m1 := SelectNext(r1.value, r1.world.now), w.store.intentions, r1.world.store.intentions;
    if next.None? {
      AppendFine(r1.world, NoAction, None);
      var r := AppendJournal(r1.world, NoAction, None);
      StuckStays(m, m1, m1, "", r1.world.now, r.world.now);
    } else {
      var i := next.value;
      var head :| head in m && Oldest(m, head, r1.world.now) && i == m[head];
      HeadIs(w, head);
      ActConsumes(r1.world, env, p, i, runtime, s, gateAt);
      ActActs(r1.world, env, p, i, runtime, s, gateAt);
      CurrentWaits(r1.world, i);
      var r := Act(r1.world, env, p, i, runtime, s, gateAt);
      if ReadableApproval(i) {
        var key := SafeId(i.id).value;
        var x: Intention :| !Executable(x) && r.world.store.intentions == m1[key := x];
        ConsumedWaiting(m1, r.world.store.intentions, key, x, r1.world.now, r.world.now);
        assert key in m1 && m1[key] == i;
        StuckStays(m, m1, r.world.store.intentions, key, r1.world.now, r.world.now);
      } else {
        StuckStays(m, m1, m1, "", r1.world.now, r.world.now);
      }
    }
  }

  lemma HeadIs(w: World, head: string)
    requires Oldest(w.store.intentions, head, Survey(w).world.now)
    ensures w.store.intentions[head].expiresAt.After(Survey(w).world.now)
    ensures HeadReadable(w) <==> ReadableApproval(w.store.intentions[head])
  {
    hide Survey, ReadableApproval, NoOlder;
    forall k | Oldest(w.store.intentions, k, Survey(w).world.now)
      ensures k == head
    {
      OneOldest(w.store.intentions, k, head, Survey(w).world.now);
    }
  }

  /** Neither the sweep nor closing a readable record touches one that cannot be read. */
  lemma StuckStays(m: map<string, Intention>, m1: map<string, Intention>, m2: map<string, Intention>, key: string,
                   at: int, t: int)
    requires SameWaiting(m, m1, at) && Waiting(m1, at) == Waiting(m, at) && at <= t
    requires
      || m2 == m1
      || (key in m1 && ReadableApproval(m1[key]) && key in m2 && !Executable(m2[key]) && m2 == m1[key := m2[key]])
    ensures OnlyReadableGone(m, m2, t)
  {
    hide ReadableApproval;
    forall k | k in Waiting(m, t) && !ReadableApproval(m[k])
      ensures k in m2 && m2[k] == m[k]
    {
      assert k in Waiting(m, at);
    }
    forall k | k in Waiting(m2, t)
      ensures k in m && m2[k] == m[k]
    {
      assert k in Waiting(m1, at);
      assert k in Waiting(m, at);
    }
  }

  lemma CurrentWaits(w: World, i: Intention)
    requires Current(w, i) && i.expiresAt.After(w.now)
    ensures SafeId(i.id).Some? && SafeId(i.id).value in Waiting(w.store.intentions, w.now)
  {
    hide SafeId;
  }

  predicate Acts(s: TickStatus) {
    s.RequestedApproval? || s.RejectedByChecks? || s.PaperPlaced? || s.LivePlaced?
  }

  lemma ActActs(w: World, env: TickInput, p: Policy, i: Intention, runtime: Runtime, s: Snapshot, gateAt: int)
    requires Inv(w) && NoFaults(w.script) && SafeId(i.id).Some?
    ensures var r := Act(w, env, p, i, runtime, s, gateAt); r.Done? ==> Acts(r.value)
  {
    hide SafeId, ReadApproval, IntentionReasons, GetRuntimeSnapshot, SaveNewApproval, SaveIntention, WriteRuntime,
      AppendJournal, Touch, NewApproval, PaperOrderOf, ExecuteLive, Inv, NoFaults;
    ReadApprovalFine(w, i);
    ReadApprovalKey(w, i);
    var r1 := ReadApproval(w, i.humanApprovalId);
    if r1.Done? { LiveConsumes(r1.world, i, runtime, s, r1.value, gateAt, SafeId(i.id).value); }
  }

  // ------------------------------------------------------------------ whole ticks

  /** The world in which a tick tests system safety, once it has its lock and its snapshot. */
  ghost function AtGate(w: World, env: TickInput): World {
    var w1 := AcquireLock(Touch(w).world, LOCK_TTL_MS).world;
    var w2 := WriteRuntime(w1, w1.store.runtime.(lastCronAt := Some(w1.now))).world;
    GetRuntimeSnapshot(w2, env.snapshot).world
  }

  /** The world in which a tick past its gates turns to the intentions. */
  ghost function AtExecution(w: World, env: TickInput): World {
    Touch(AtGate(w, env)).world
  }

  /** No gate in front of the intentions is closed to this tick. */
  ghost predicate GatesOpen(w: World, env: TickInput) {
    && !LockBlocks(w.store.lock, Touch(w).world.now)
    && w.store.policyState.valid && w.store.policyState.policy.enabled
    && !w.store.killSwitch.latched && !w.store.killSwitch.panic
    && SystemReasons(w.store.policyState.policy, w.store.runtime, env.snapshot, AtGate(w, env).now) == []
    && !env.reconcileRequired
  }

  /** The keys a tick past its gates can choose from. */
  ghost function Choice(w: World, env: TickInput): set<string> {
    Waiting(w.store.intentions, Survey(AtExecution(w, env)).world.now)
  }

  lemma SafetyIgnoresCronTime(p: Policy, r: Runtime, s: Snapshot, now: int, at: int)
    ensures SystemReasons(p, r.(lastCronAt := Some(at)), s, now) == SystemReasons(p, r, s, now)
  {
    hide ExchangeReasons, MarketReasons, OrderReasons, When;
  }

  lemma RefusalDoesNotAct(w: World, kind: JournalKind, status: TickStatus)
    requires NoFaults(w.script) && !Acts(status)
    ensures var r := JournalAnd(w, kind, status);
      r.Done? && !Acts(r.value) && NoFaults(r.world.script) && r.value == status
  {
    hide AppendJournal, NoFaults;
    AppendFine(w, kind, None);
  }

  lemma UnsafeDoesNotAct(w: World, p: Policy, critical: bool)
    requires NoFaults(w.script)
    ensures var r := RefuseUnsafe(w, p, critical); (r.Done? ==> !Acts(r.value)) && NoFaults(r.world.script)
  {
    hide AppendJournal, LatchCritical, NoFaults;
    RefuseJournals(w, p, critical);
  }

  /** Same records, no faults ahead, time not before. */
  ghost predicate Quiet(w: World, w': World) {
    w'.store.intentions == w.store.intentions && NoFaults(w'.script) && w.now <= w'.now
  }

  lemma AcquireQuiet(w: World)
    requires Inv(w) && NoFaults(w.script)
    ensures var r := AcquireLock(w, LOCK_TTL_MS);
      && Inv(r.world) && Quiet(w, r.world) && r.Done? && (r.value <==> !LockBlocks(w.store.lock, w.now))
      && r.world.store == w.store.(lock := r.world.store.lock)
  {
    AcquireKeeps(w, LOCK_TTL_MS);
    hide Inv;
  }

  lemma ReleaseQuiet(w: World)
    requires NoFaults(w.script)
    ensures var r := ReleaseLock(w); r.Done? && Quiet(w, r.world)
  {
  }

  /** The state in which the tick body of `w` begins. */
  ghost predicate Begins(w: World, w1: World) {
    Inv(w1) && Quiet(w, w1) && w1.store == w.store.(lock := w1.store.lock)
  }

  lemma StartFine(w: World)
    requires NoFaults(w.script)
    ensures var runtime := w.store.runtime.(lastCronAt := Some(w.now)); var r := WriteRuntime(w, runtime);
      r.Done? && NoFaults(r.world.script) && w.now <= r.world.now && r.world.store == w.store.(runtime := runtime)
  {
  }

  /** The worlds a fault-free tick body passes through before its gates close or open. */
  lemma BodyToGate(w: World, env: TickInput)
    requires Inv(w) && NoFaults(w.script)
    ensures var ps, ks, runtime := w.store.policyState, w.store.killSwitch, w.store.runtime.(lastCronAt := Some(w.now));
      var r1 := WriteRuntime(w, runtime); var w2 := GetRuntimeSnapshot(r1.world, env.snapshot).world;
      && Inv(r1.world) && r1.Done? && NoFaults(r1.world.script)
      && Inv(w2) && Quiet(w, w2)
      && (ps.valid && ps.policy.enabled && !ks.latched && !ks.panic ==>
            TickBody(w, env) == Gated(w2, env, ps.policy, runtime, env.snapshot))
  {
    hide Inv, WriteRuntime, JournalAnd, GetRuntimeSnapshot, Gated, NoFaults, Steady;
    BodyStarts(w);
    StartFine(w);
    var w1 := WriteRuntime(w, w.store.runtime.(lastCronAt := Some(w.now))).world;
    SnapshotKeeps(w1, env.snapshot);
    SnapshotFine(w1, env.snapshot);
  }

  /** The body of a tick whose gates are open turns to the intentions; any other body does not act. */
  lemma BodyActsOnlyIfOpen(w: World, w1: World, env: TickInput)
    requires NoFaults(w.script) && Touch(w).world.store == w.store && Begins(Touch(w).world, w1)
    requires w1 == AcquireLock(Touch(w).world, LOCK_TTL_MS).world && !LockBlocks(w.store.lock, Touch(w).world.now)
    ensures var body, ps, w3 := TickBody(w1, env), w.store.policyState, AtExecution(w, env);
      var runtime := w1.store.runtime.(lastCronAt := Some(w1.now));
      && (GatesOpen(w, env) ==>
            && Inv(w3) && Quiet(w1, w3)
            && body == Execute(w3, env, ps.policy, runtime, env.snapshot, AtGate(w, env).now))
      && (!GatesOpen(w, env) ==> (body.Done? ==> !Acts(body.value)) && NoFaults(body.world.script))
  {
    hide Inv, NoFaults, JournalAnd, RefuseUnsafe, SystemReasons, Execute, IsCritical, Touch, AcquireLock, WriteRuntime,
      GetRuntimeSnapshot, Acts;
    var ps, runtime, w2 := w.store.policyState, w1.store.runtime.(lastCronAt := Some(w1.now)), AtGate(w, env);
    BodyToGate(w1, env);
    var r1 := WriteRuntime(w1, runtime);
    RefusalCases(r1.world);
    TouchKeeps(w2);
    TouchFine(w2);
    SafetyIgnoresCronTime(ps.policy, w.store.runtime, env.snapshot, w2.now, w1.now);
    UnsafeDoesNotAct(w2, ps.policy, IsCritical(SystemReasons(ps.policy, runtime, env.snapshot, w2.now)));
    RefusalCases(Touch(w2).world);
  }

  lemma RefusalCases(w: World)
    requires NoFaults(w.script)
    ensures var r := JournalAnd(w, NoAction, PolicyDisabled); r.Done? && !Acts(r.value) && NoFaults(r.world.script)
    ensures var r := JournalAnd(w, NoAction, PolicyInvalid); r.Done? && !Acts(r.value) && NoFaults(r.world.script)
    ensures var r := JournalAnd(w, Halt, Halted); r.Done? && !Acts(r.value) && NoFaults(r.world.script)
    ensures var r := JournalAnd(w, ReconcileRequired, ReconcileStatus);
      r.Done? && !Acts(r.value) && NoFaults(r.world.script)
  {
    hide JournalAnd, NoFaults;
    RefusalDoesNotAct(w, NoAction, PolicyDisabled);
    RefusalDoesNotAct(w, NoAction, PolicyInvalid);
    RefusalDoesNotAct(w, Halt, Halted);
    RefusalDoesNotAct(w, ReconcileRequired, ReconcileStatus);
  }

  /** Catch and finally of a fault-free tick: a failed body ends as an error, and nothing else changes. */
  lemma TickEnds(w: World, body: Outcome<TickStatus>)
    requires NoFaults(body.world.script)
    ensures var guarded := if body.Done? then body else JournalAnd(body.world, ErrorEntry, CronError);
      var r := ReleaseLock(guarded.world);
      && guarded.Done? && r.Done? && Quiet(body.world, r.world)
      && guarded.value == if body.Done? then body.value else CronError
  {
    hide AppendJournal, ReleaseLock, NoFaults;
    AppendFine(body.world, ErrorEntry, None);
    ReleaseQuiet((if body.Done? then body else JournalAnd(body.world, ErrorEntry, CronError)).world);
  }

  /**
   A fault-free tick acts on a record exactly when its gates are open, some record waits, and the oldest one's
   approval reference is readable; then strictly fewer records wait. With open gates and nothing waiting it
   says so, and with an unreadable oldest record it ends in the error status.
   */
  lemma TickActsIff(w: World, env: TickInput)
    requires Inv(w) && NoFaults(w.script) && SafeId(env.approvalId).Some?
    ensures var r, open := RunMinuteCron(w, env), GatesOpen(w, env);
      && r.Done? && Inv(r.world) && NoFaults(r.world.script)
      && (Acts(r.value) <==> open && Choice(w, env) != {} && HeadReadable(AtExecution(w, env)))
      && (open && Choice(w, env) == {} ==> r.value.NothingToDo?)
      && (open && Choice(w, env) != {} && !HeadReadable(AtExecution(w, env)) ==> r.value.CronError?)
      && (Acts(r.value) ==> |Waiting(r.world.store.intentions, r.world.now)| < |Waiting(w.store.intentions, w.now)|)
      && (open && Choice(w, env) == {} ==> Waiting(r.world.store.intentions, r.world.now) == {})
      && (open ==> w.now <= r.world.now && OnlyReadableGone(w.store.intentions, r.world.store.intentions, r.world.now))
  {
    hide Inv, Touch, AcquireLock, ReleaseLock, TickBody, NoFaults, SafeId, Waiting, JournalAnd, Execute, Survey,
      AtGate, AtExecution, GatesOpen, HeadReadable, OnlyReadableGone, Acts;
    Passive();
    CronKeeps(w, env);
    TouchKeeps(w);
    TouchFine(w);
    var w0 := Touch(w).world;
    AcquireQuiet(w0);
    if LockBlocks(w.store.lock, w0.now) {
      LockedIsClosed(w, env);
    } else {
      var w1 := AcquireLock(w0, LOCK_TTL_MS).world;
      BodyActsOnlyIfOpen(w, w1, env);
      var body := TickBody(w1, env);
      if GatesOpen(w, env) {
        OpenBody(w, w1, env);
      }
      TickEnds(w1, body);
      var w' := ReleaseLock((if body.Done? then body else JournalAnd(body.world, ErrorEntry, CronError)).world).world;
      LaterWaiting(body.world.store.intentions, body.world.now, w'.now);
      if GatesOpen(w, env) {
        NothingGone(w'.store.intentions, w'.now);
        StuckLater(w.store.intentions, body.world.store.intentions, w'.store.intentions, body.world.now, w'.now);
      }
    }
  }

  lemma LockedIsClosed(w: World, env: TickInput)
    requires LockBlocks(w.store.lock, Touch(w).world.now)
    ensures !GatesOpen(w, env)
  {
    hide SystemReasons, AtGate;
  }

  lemma Passive()
    ensures !Acts(Locked) && !Acts(CronError) && !Acts(NothingToDo)
  {
  }

  lemma StuckLater(m: map<string, Intention>, m1: map<string, Intention>, m2: map<string, Intention>, t: int, t': int)
    requires OnlyReadableGone(m, m1, t) && t <= t' && OnlyReadableGone(m1, m2, t')
    ensures OnlyReadableGone(m, m2, t')
  {
    hide ReadableApproval;
    forall k | k in Waiting(m, t') && !ReadableApproval(m[k])
      ensures k in m2 && m2[k] == m[k]
    {
      assert k in Waiting(m, t);
      assert k in Waiting(m1, t');
    }
    forall k | k in Waiting(m2, t')
      ensures k in m && m2[k] == m[k]
    {
      assert k in Waiting(m1, t);
    }
  }

  lemma NothingGone(m: map<string, Intention>, t: int)
    ensures OnlyReadableGone(m, m, t)
  {
    hide ReadableApproval;
  }

  /** What GatedTickProgress says of the body of a tick whose gates are open. */
  lemma OpenBody(w: World, w1: World, env: TickInput)
    requires Inv(w) && GatesOpen(w, env) && SafeId(env.approvalId).Some? && w.now <= w1.now
    requires w1.store.intentions == w.store.intentions
    requires var w3 := AtExecution(w, env); Inv(w3) && Quiet(w1, w3)
    requires TickBody(w1, env) == Execute(AtExecution(w, env), env, w.store.policyState.policy,
                                          w1.store.runtime.(lastCronAt := Some(w1.now)), env.snapshot,
                                            AtGate(w, env).now)
    ensures var body, m := TickBody(w1, env), w.store.intentions;
      && w.now <= body.world.now && NoFaults(body.world.script)
      && OnlyReadableGone(m, body.world.store.intentions, body.world.now)
      && (Choice(w, env) == {} ==>
            && body.Done? && body.value.NothingToDo?
            && Waiting(body.world.store.intentions, body.world.now) == {})
      && (Choice(w, env) != {} ==>
            (body.Done? <==> HeadReadable(AtExecution(w, env))) && (body.Done? ==> Acts(body.value)))
      && (Choice(w, env) != {} && body.Done? ==>
            |Waiting(body.world.store.intentions, body.world.now)| < |Waiting(m, w.now)|)
  {
    hide Inv, TickBody, NoFaults, SafeId, Waiting, Execute, Survey, AtGate, AtExecution, GatesOpen, HeadReadable,
      OnlyReadableGone, Acts;
    var w3, p, runtime := AtExecution(w, env), w.store.policyState.policy,
      w1.store.runtime.(lastCronAt := Some(w1.now));
    GatedTickProgress(w3, env, p, runtime, env.snapshot, AtGate(w, env).now);
    SurveyEffect(w3);
    var at := Survey(w3).world.now;
    LaterWaiting(w.store.intentions, w.now, at);
    StaysEmpty(Survey(w3).world.store.intentions, at, TickBody(w1, env).world.now);
  }

  lemma StaysEmpty(m: map<string, Intention>, t: int, t': int)
    requires t <= t'
    ensures Waiting(m, t) == {} ==> Waiting(m, t') == {}
  {
    forall k | k in Waiting(m, t')
      ensures k in Waiting(m, t)
    {
    }
  }

  // ------------------------------------------------------------------ draining the queue

  ghost function AfterTicks(w: World, ticks: seq<TickInput>): World
    decreases |ticks|
  {
    if ticks == [] then w else AfterTicks(RunMinuteCron(w, ticks[0]).world, ticks[1..])
  }

  /** Every tick finds its gates open; the ids it would give an approval are usable. */
  ghost predicate AllOpen(w: World, ticks: seq<TickInput>)
    decreases |ticks|
  {
    ticks == []
    || (&& SafeId(ticks[0].approvalId).Some? && GatesOpen(w, ticks[0])
        && AllOpen(RunMinuteCron(w, ticks[0]).world, ticks[1..]))
  }

  /** Every tick finds the record it would take readable. */
  ghost predicate AllHeadsReadable(w: World, ticks: seq<TickInput>)
    decreases |ticks|
  {
    ticks == []
    || (HeadReadable(AtExecution(w, ticks[0])) && AllHeadsReadable(RunMinuteCron(w, ticks[0]).world, ticks[1..]))
  }

  /**
   As many ticks past their gates as records wait leave none waiting when nothing new is staged or approved,
   provided the record at the head can be read each time.
   */
  lemma {:induction false} WaitingRecordsDrain(w: World, ticks: seq<TickInput>)
    requires Inv(w) && NoFaults(w.script) && AllOpen(w, ticks) && AllHeadsReadable(w, ticks)
    ensures var w', n := AfterTicks(w, ticks), |Waiting(w.store.intentions, w.now)|;
      && |Waiting(w'.store.intentions, w'.now)| <= (if |ticks| <= n then n - |ticks| else 0)
      && (|ticks| >= n ==> Waiting(w'.store.intentions, w'.now) == {})
    decreases |ticks|
  {
    hide Inv, RunMinuteCron, NoFaults, SafeId, Waiting, Acts, GatesOpen, HeadReadable, Choice;
    if ticks != [] {
      TickActsIff(w, ticks[0]);
      WaitingRecordsDrain(RunMinuteCron(w, ticks[0]).world, ticks[1..]);
    }
  }

  /** No waiting record has a reference that cannot be read. */
  ghost predicate AllReadable(w: World) {
    forall k :: k in Waiting(w.store.intentions, w.now) ==> ReadableApproval(w.store.intentions[k])
  }

  lemma ReadableHead(w: World, env: TickInput)
    requires Inv(w) && NoFaults(w.script) && GatesOpen(w, env) && AllReadable(w)
    ensures HeadReadable(AtExecution(w, env))
  {
    hide Inv, NoFaults, Survey, ReadableApproval, Touch, AtExecution, GatesOpen, NoOlder;
    var w3 := AtExecution(w, env);
    ExecutionFollows(w, env);
    SurveyEffect(w3);
    forall k | Oldest(w3.store.intentions, k, Survey(w3).world.now)
      ensures ReadableApproval(w3.store.intentions[k])
    {
      assert k in Waiting(w.store.intentions, w.now);
    }
  }

  /** The records a tick past its gates finds are those stored before it. */
  lemma ExecutionFollows(w: World, env: TickInput)
    requires Inv(w) && NoFaults(w.script) && GatesOpen(w, env)
    ensures Inv(AtExecution(w, env)) && Quiet(w, AtExecution(w, env))
  {
    hide Inv, Touch, AcquireLock, TickBody, NoFaults, AtExecution, GatesOpen, Execute, AtGate;
    TouchKeeps(w);
    TouchFine(w);
    AcquireQuiet(Touch(w).world);
    OpenMeansFree(w, env);
    BodyActsOnlyIfOpen(w, AcquireLock(Touch(w).world, LOCK_TTL_MS).world, env);
  }

  lemma OpenMeansFree(w: World, env: TickInput)
    requires GatesOpen(w, env)
    ensures !LockBlocks(w.store.lock, Touch(w).world.now)
  {
    hide SystemReasons, AtGate;
  }

  lemma ReadableStays(w: World, w': World)
    requires OnlyReadableGone(w.store.intentions, w'.store.intentions, w'.now) && w.now <= w'.now && AllReadable(w)
    ensures AllReadable(w')
  {
    hide ReadableApproval;
    forall k | k in Waiting(w'.store.intentions, w'.now)
      ensures ReadableApproval(w'.store.intentions[k])
    {
      assert k in Waiting(w.store.intentions, w.now);
    }
  }

  /** Without unreadable records every head is readable. */
  lemma {:induction false} ReadableHeads(w: World, ticks: seq<TickInput>)
    requires Inv(w) && NoFaults(w.script) && AllOpen(w, ticks) && AllReadable(w)
    ensures AllHeadsReadable(w, ticks)
    decreases |ticks|
  {
    hide Inv, RunMinuteCron, NoFaults, SafeId, Acts, GatesOpen, HeadReadable, Choice, OnlyReadableGone, AllReadable,
      Waiting,
      AtExecution;
    if ticks != [] {
      TickActsIff(w, ticks[0]);
      ReadableHead(w, ticks[0]);
      var w1 := RunMinuteCron(w, ticks[0]).world;
      ReadableStays(w, w1);
      ReadableHeads(w1, ticks[1..]);
    }
  }

  lemma {:induction false} OnlyReadableLeave(w: World, ticks: seq<TickInput>)
    requires Inv(w) && NoFaults(w.script) && AllOpen(w, ticks)
    ensures var w' := AfterTicks(w, ticks);
      w.now <= w'.now && OnlyReadableGone(w.store.intentions, w'.store.intentions, w'.now)
    decreases |ticks|
  {
    hide Inv, RunMinuteCron, NoFaults, SafeId, Acts, GatesOpen, HeadReadable, Choice, OnlyReadableGone, Waiting,
      AtExecution;
    if ticks == [] {
      NothingGone(w.store.intentions, w.now);
    } else {
      TickActsIff(w, ticks[0]);
      var w1, w' := RunMinuteCron(w, ticks[0]).world, AfterTicks(w, ticks);
      OnlyReadableLeave(w1, ticks[1..]);
      StuckLater(w.store.intentions, w1.store.intentions, w'.store.intentions, w1.now, w'.now);
    }
  }

  /**
   When nothing new is staged or approved, as many ticks past their gates as records wait empty the queue if every
   waiting record can be read; and an empty queue means that every record that has not expired could be.
   */
  lemma ReadableQueuesDrain(w: World, ticks: seq<TickInput>)
    requires Inv(w) && NoFaults(w.script) && AllOpen(w, ticks) && |ticks| >= |Waiting(w.store.intentions, w.now)|
    ensures var w' := AfterTicks(w, ticks);
      && (AllReadable(w) ==> Waiting(w'.store.intentions, w'.now) == {})
      && (Waiting(w'.store.intentions, w'.now) == {} ==>
            forall k :: k in Waiting(w.store.intentions, w'.now) ==> ReadableApproval(w.store.intentions[k]))
  {
    hide Inv, AfterTicks, NoFaults, AllOpen, AllHeadsReadable, AllReadable, ReadableApproval;
    if AllReadable(w) {
      ReadableHeads(w, ticks);
      WaitingRecordsDrain(w, ticks);
    }
    OnlyReadableLeave(w, ticks);
    var m, w' := w.store.intentions, AfterTicks(w, ticks);
    forall k | k in Waiting(m, w'.now) && !ReadableApproval(m[k])
      ensures k in Waiting(w'.store.intentions, w'.now)
    {
    }
  }
}
