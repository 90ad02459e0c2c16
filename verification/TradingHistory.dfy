/** What only ever grows: the journal, the calls made, the latch; and what a tick does to its lock. */
module TradingHistory {
  import opened Basics
  import opened JsStrings
  import opened TradingTypes
  import opened TradingSafety
  import opened StorageSpec
  import opened OpsSpec

  ghost predicate NoFaults(script: seq<Io>) {
    forall i :: 0 <= i < |script| ==> script[i].fault.Fine?
  }

  /** The operations of a tick body append, latch and record; they never take back, and leave the lock alone. */
  ghost predicate Grows(w: World, w': World) {
    && w.store.journal <= w'.store.journal
    && w.history.placements <= w'.history.placements
    && (w.store.killSwitch.latched ==> w'.store.killSwitch.latched)
    && w'.store.lock == w.store.lock && w'.store.policyState == w.store.policyState
    && w'.history.sawLive == w.history.sawLive && w'.history.sawPaper == w.history.sawPaper
    && w'.history.lost.releases == w.history.lost.releases && w.now <= w'.now
    && w'.history.approved == w.history.approved && w'.history.references == w.history.references
    && w.history.reused <= w'.history.reused
    && (w.history.faulted ==> w'.history.faulted)
    && (NoFaults(w.script) ==> NoFaults(w'.script) && (w'.history.faulted ==> w.history.faulted))
  }

  lemma GrowsTransitive(a: World, b: World, c: World)
    requires Grows(a, b) && Grows(b, c)
    ensures Grows(a, c)
  {
    hide NoFaults;
  }

  lemma ElapseGrows(w: World)
    ensures Grows(w, Elapse(w)) && Grows(w, Touch(w).world)
    ensures NextFault(w) != Fine ==> Elapse(w).history.faulted
    ensures NoFaults(w.script) ==> Touch(w).Done?
  {
  }

  lemma CommitGrows(w: World, store: Store)
    requires w.store.journal <= store.journal && (w.store.killSwitch.latched ==> store.killSwitch.latched)
    requires store.lock == w.store.lock && store.policyState == w.store.policyState
    ensures Grows(w, Commit(w, store).world)
    ensures NoFaults(w.script) ==> Commit(w, store).Done?
    ensures Commit(w, store).Done? ==> Commit(w, store).world.store == store
  {
    ElapseGrows(w);
    hide NoFaults;
  }

  lemma SaveIntentionGrows(w: World, i: Intention)
    ensures Grows(w, SaveIntention(w, i).world)
  {
    GrowsRefl(w);
    if SafeId(i.id).Some? {
      hide Commit, SafeId, Grows, NoFaults;
      CommitGrows(w, w.store.(intentions := w.store.intentions[SafeId(i.id).value := i]));
    }
  }

  lemma SaveApprovalGrows(w: World, a: Approval)
    ensures Grows(w, SaveApproval(w, a).world)
  {
    hide Commit, SafeId, Grows, NoFaults;
    GrowsRefl(w);
    if SafeId(a.id).Some? {
      CommitGrows(w, w.store.(approvals := w.store.approvals[SafeId(a.id).value := a]));
    }
  }

  lemma WriteRuntimeGrows(w: World, r: Runtime)
    ensures Grows(w, WriteRuntime(w, r).world)
  {
    hide Commit;
    CommitGrows(w, w.store.(runtime := r));
  }

  lemma AppendJournalGrows(w: World, kind: JournalKind, id: Option<string>)
    ensures var r := AppendJournal(w, kind, id);
      && Grows(w, r.world)
      && (r.Done? ==> r.world.store.journal == w.store.journal + [JournalEntry(kind, id, w.now)])
  {
    hide Commit, Grows;
    var store := w.store.(journal := w.store.journal + [JournalEntry(kind, id, w.now)]);
    CommitGrows(w, store);
    var r1 := Commit(w, store);
    if r1.Done? {
      var store1 := r1.world.store.(runtime := r1.world.store.runtime.(lastJournalAt := Some(w.now)));
      CommitGrows(r1.world, store1);
      GrowsTransitive(w, r1.world, Commit(r1.world, store1).world);
    }
  }

  lemma SnapshotGrows(w: World, s: Snapshot)
    ensures Grows(w, GetRuntimeSnapshot(w, s).world)
  {
    ElapseGrows(w);
    hide NoFaults;
  }

  lemma LatchGrows(w: World, cause: LatchCause)
    ensures Grows(w, LatchKillSwitch(w, cause).world)
    ensures LatchKillSwitch(w, cause).Done? ==> LatchKillSwitch(w, cause).world.store.killSwitch.latched
  {
    ElapseGrows(w);
    hide NoFaults;
  }

  lemma CancelAllGrows(w: World)
    ensures Grows(w, CancelAllOrders(w))
  {
    ElapseGrows(w);
    hide NoFaults;
  }

  lemma PlaceGrows(w: World, i: Intention, s: Snapshot, approval: Option<Approval>, gateAt: int)
    requires SafeId(i.id).Some?
    ensures Grows(w, PlaceLimitOrder(w, i, s, approval, gateAt).world)
  {
    ElapseGrows(w);
    hide NoFaults, CallOf, SafeId, Take;
  }

  lemma SaveNewApprovalGrows(w: World, a: Approval)
    ensures Grows(w, SaveNewApproval(w, a).world)
  {
    SaveApprovalGrows(w, a);
    hide SaveApproval, SafeId, NoFaults;
  }

  lemma ReadIntentionGrows(w: World, id: string)
    ensures Grows(w, ReadIntention(w, id).world)
  {
    ElapseGrows(w);
    hide SafeId, NoFaults;
  }

  lemma ReadApprovalGrows(w: World, id: Option<string>)
    ensures Grows(w, ReadApproval(w, id).world)
  {
    ElapseGrows(w);
    hide SafeId, NoFaults;
  }

  /** A tick body that ends normally has written at least one journal entry. */
  ghost predicate Journals<T>(w: World, r: Outcome<T>) {
    Grows(w, r.world) && (r.Done? ==> |r.world.store.journal| > |w.store.journal|)
  }

  lemma JournalsAfter<T>(w: World, w1: World, r: Outcome<T>)
    requires Grows(w, w1) && Journals(w1, r)
    ensures Journals(w, r)
  {
    GrowsTransitive(w, w1, r.world);
    hide NoFaults;
  }

  lemma ThenGrows<T>(w: World, r1: Outcome<T>, w2: World)
    requires Journals(w, r1) && Grows(r1.world, w2)
    ensures Journals(w, Done(w2, ())) || r1.Threw?
    ensures Grows(w, w2)
  {
    GrowsTransitive(w, r1.world, w2);
    hide NoFaults;
  }

  lemma AppendJournals(w: World, kind: JournalKind, id: Option<string>)
    ensures Journals(w, AppendJournal(w, kind, id))
  {
    AppendJournalGrows(w, kind, id);
    hide AppendJournal, NoFaults;
  }

  lemma JournalAndJournals(w: World, kind: JournalKind, status: TickStatus)
    ensures Journals(w, JournalAnd(w, kind, status))
  {
    AppendJournals(w, kind, None);
    hide AppendJournal, Grows;
  }

  lemma AppendThenTouch(w: World, kind: JournalKind, id: Option<string>)
    ensures var r := AppendJournal(w, kind, id);
      Journals(w, if r.Done? then Touch(r.world) else r)
  {
    hide AppendJournal, Touch, Grows;
    AppendJournals(w, kind, id);
    var r := AppendJournal(w, kind, id);
    if r.Done? {
      ElapseGrows(r.world);
      ThenGrows(w, r, Touch(r.world).world);
    }
  }

  lemma LatchCriticalJournals(w: World, cause: LatchCause, live: bool)
    ensures Journals(w, LatchCritical(w, cause, live))
  {
    hide LatchKillSwitch, CancelAllOrders, Commit, AppendJournal, Touch, Grows;
    LatchGrows(w, cause);
    var r1 := LatchKillSwitch(w, cause);
    if r1.Done? {
      if live { CancelAllGrows(r1.world); } else { GrowsRefl(r1.world); }
      var w2 := if live then CancelAllOrders(r1.world) else r1.world;
      GrowsTransitive(w, r1.world, w2);
      var store := w2.store.(incidents := w2.store.incidents + [Incident(live, cause, w2.now)]);
      CommitGrows(w2, store);
      var r3 := Commit(w2, store);
      GrowsTransitive(w, w2, r3.world);
      if r3.Done? {
        AppendThenTouch(r3.world, KillSwitchEntry, None);
        var r4 := AppendJournal(r3.world, KillSwitchEntry, None);
        JournalsAfter(w, r3.world, if r4.Done? then Touch(r4.world) else r4);
      }
    }
  }

  lemma GrowsRefl(w: World)
    ensures Grows(w, w)
  {
    hide NoFaults;
  }

  lemma RefuseJournals(w: World, p: Policy, critical: bool)
    ensures Journals(w, RefuseUnsafe(w, p, critical))
  {
    hide LatchCritical, JournalAnd, Grows;
    if critical {
      LatchCriticalJournals(w, UnsafeSystem, p.mode.Live?);
    } else {
      JournalAndJournals(w, Halt, UnsafeStatus);
    }
  }

  lemma RejectJournals(w: World, i: Intention)
    ensures Journals(w, Reject(w, i))
  {
    hide SaveIntention, AppendJournal, Grows;
    var rejected := i.(status := Rejected);
    SaveIntentionGrows(w, rejected);
    var r1 := SaveIntention(w, rejected);
    if r1.Done? {
      AppendJournals(r1.world, IntentionRejected, Some(i.id));
      JournalsAfter(w, r1.world, AppendJournal(r1.world, IntentionRejected, Some(i.id)));
    }
  }

  lemma RequestJournals(w: World, env: TickInput, i: Intention, p: Policy)
    ensures Journals(w, RequestApproval(w, env, i, p))
  {
    hide GetRuntimeSnapshot, SaveNewApproval, SaveIntention, AppendJournal, Touch, NewApproval, Grows;
    SnapshotGrows(w, env.later);
    var r1 := GetRuntimeSnapshot(w, env.later);
    if r1.Done? {
      var a := NewApproval(i, p, r1.value, env.approvalId, r1.world.now);
      SaveNewApprovalGrows(r1.world, a);
      var r2 := SaveNewApproval(r1.world, a);
      GrowsTransitive(w, r1.world, r2.world);
      if r2.Done? {
        var asked := i.(humanApprovalId := Some(env.approvalId), status := ApprovalRequested);
        SaveIntentionGrows(r2.world, asked);
        var r3 := SaveIntention(r2.world, asked);
        GrowsTransitive(w, r2.world, r3.world);
        if r3.Done? {
          AppendThenTouch(r3.world, ApprovalRequestedEntry, Some(i.id));
          var r4 := AppendJournal(r3.world, ApprovalRequestedEntry, Some(i.id));
          JournalsAfter(w, r3.world, if r4.Done? then Touch(r4.world) else r4);
        }
      }
    }
  }

  lemma PaperJournals(w: World, i: Intention, runtime: Runtime)
    ensures Journals(w, ExecutePaper(w, i, runtime))
  {
    hide SaveIntention, WriteRuntime, AppendJournal, Touch, PaperOrderOf, Grows;
    SaveIntentionGrows(w, i.(status := Executed));
    var r1 := SaveIntention(w, i.(status := Executed));
    if r1.Done? {
      var runtime' := runtime.(paperOrders := runtime.paperOrders + [PaperOrderOf(i)]);
      WriteRuntimeGrows(r1.world, runtime');
      var r2 := WriteRuntime(r1.world, runtime');
      GrowsTransitive(w, r1.world, r2.world);
      if r2.Done? {
        AppendThenTouch(r2.world, PaperOrderEntry, Some(i.id));
        var r3 := AppendJournal(r2.world, PaperOrderEntry, Some(i.id));
        JournalsAfter(w, r2.world, if r3.Done? then Touch(r3.world) else r3);
      }
    }
  }

  lemma MarkUsedGrows(w: World, approval: Option<Approval>)
    ensures Grows(w, MarkUsed(w, approval).world)
  {
    hide SaveApproval, Grows;
    GrowsRefl(w);
    if approval.Some? { SaveApprovalGrows(w, approval.value.(usedAt := Some(w.now))); }
  }

  lemma TryLiveJournals(w: World, i: Intention, runtime: Runtime, s: Snapshot, approval: Option<Approval>, gateAt: int)
    requires SafeId(i.id).Some?
    ensures Journals(w, TryLive(w, i, runtime, s, approval, gateAt))
  {
    hide SafeId, PlaceLimitOrder, SaveIntention, WriteRuntime, AppendJournal, Touch, MarkUsed, Grows;
    PlaceGrows(w, i, s, approval, gateAt);
    var r1 := PlaceLimitOrder(w, i, s, approval, gateAt);
    if r1.Done? {
      SaveIntentionGrows(r1.world, i.(status := Executed));
      var r2 := SaveIntention(r1.world, i.(status := Executed));
      GrowsTransitive(w, r1.world, r2.world);
      if r2.Done? {
        var runtime' := runtime.(openOrders := runtime.openOrders + [OpenOrder(r1.value, i.symbol, i.side)]);
        WriteRuntimeGrows(r2.world, runtime');
        var r3 := WriteRuntime(r2.world, runtime');
        GrowsTransitive(w, r2.world, r3.world);
        if r3.Done? {
          AppendThenTouch(r3.world, LiveOrderEntry, Some(i.id));
          var r4 := AppendJournal(r3.world, LiveOrderEntry, Some(i.id));
          var r5 := if r4.Done? then Touch(r4.world) else r4;
          JournalsAfter(w, r3.world, r5);
          if r5.Done? {
            MarkUsedGrows(r5.world, approval);
            ThenGrows(w, r5, MarkUsed(r5.world, approval).world);
          }
        }
      }
    }
  }

  lemma LiveJournals(w: World, i: Intention, runtime: Runtime, s: Snapshot, approval: Option<Approval>, gateAt: int)
    requires SafeId(i.id).Some?
    ensures Journals(w, ExecuteLive(w, i, runtime, s, approval, gateAt))
  {
    hide SafeId, TryLive, LatchCritical, Grows;
    TryLiveJournals(w, i, runtime, s, approval, gateAt);
    var tried := TryLive(w, i, runtime, s, approval, gateAt);
    if tried.Threw? {
      LatchCriticalJournals(tried.world, LiveOrderException, true);
      JournalsAfter(w, tried.world, LatchCritical(tried.world, LiveOrderException, true));
    }
  }

  lemma {:induction false} SweepGrows(w: World, list: seq<Intention>)
    ensures Grows(w, Sweep(w, list).world)
    decreases |list|
  {
    hide ReadIntention, SaveIntention, AppendJournal, Grows;
    GrowsRefl(w);
    if list != [] {
      ReadIntentionGrows(w, list[0].id);
      var r1 := ReadIntention(w, list[0].id);
      if r1.Done? {
        if r1.value.None? || r1.value.value.status != list[0].status {
          SaveIntentionGrows(r1.world, list[0]);
          var r2 := SaveIntention(r1.world, list[0]);
          GrowsTransitive(w, r1.world, r2.world);
          if r2.Done? {
            AppendJournalGrows(r2.world, IntentionRejected, Some(list[0].id));
            var r3 := AppendJournal(r2.world, IntentionRejected, Some(list[0].id));
            GrowsTransitive(w, r2.world, r3.world);
            if r3.Done? {
              SweepGrows(r3.world, list[1..]);
              GrowsTransitive(w, r3.world, Sweep(r3.world, list[1..]).world);
            }
          }
        } else {
          SweepGrows(r1.world, list[1..]);
          GrowsTransitive(w, r1.world, Sweep(r1.world, list[1..]).world);
        }
      }
    }
  }

  lemma ActJournals(w: World, env: TickInput, p: Policy, i: Intention, runtime: Runtime, s: Snapshot, gateAt: int)
    requires SafeId(i.id).Some?
    ensures Journals(w, Act(w, env, p, i, runtime, s, gateAt))
  {
    hide SafeId, ReadApproval, IntentionReasons, RequestApproval, Reject, ExecutePaper, ExecuteLive, Grows;
    ReadApprovalGrows(w, i.humanApprovalId);
    var r1 := ReadApproval(w, i.humanApprovalId);
    if r1.Done? {
      var reasons := IntentionReasons(i, r1.value, p, s, r1.world.now);
      if reasons != [] {
        if i.mode.Live? && ApprovalMissing in reasons {
          RequestJournals(r1.world, env, i, p);
        } else {
          RejectJournals(r1.world, i);
        }
      } else if i.mode.Paper? {
        PaperJournals(r1.world, i, runtime);
      } else {
        LiveJournals(r1.world, i, runtime, s, r1.value, gateAt);
      }
      JournalsAfter(w, r1.world, Act(w, env, p, i, runtime, s, gateAt));
    }
  }

  lemma ListGrows(w: World)
    ensures Grows(w, ListIntentions(w).world)
  {
    ElapseGrows(w);
    hide Grows, Listing;
  }

  lemma ExecuteJournals(w: World, env: TickInput, p: Policy, runtime: Runtime, s: Snapshot, gateAt: int)
    ensures Journals(w, Execute(w, env, p, runtime, s, gateAt))
  {
    hide SafeId, ListIntentions, Sweep, RejectExpired, SelectNext, AppendJournal, Act, Grows;
    ListGrows(w);
    var r1 := ListIntentions(w);
    if r1.Done? {
      var list := RejectExpired(r1.value, r1.world.now);
      SweepGrows(r1.world, list);
      var r2 := Sweep(r1.world, list);
      GrowsTransitive(w, r1.world, r2.world);
      if r2.Done? {
        ListGrows(r2.world);
        var r3 := ListIntentions(r2.world);
        GrowsTransitive(w, r2.world, r3.world);
        if r3.Done? {
          var next := SelectNext(r3.value, r3.world.now);
          if next.None? {
            AppendJournals(r3.world, NoAction, None);
            JournalsAfter(w, r3.world, AppendJournal(r3.world, NoAction, None));
          } else if SafeId(next.value.id).Some? {
            ActJournals(r3.world, env, p, next.value, runtime, s, gateAt);
            JournalsAfter(w, r3.world, Act(r3.world, env, p, next.value, runtime, s, gateAt));
          }
        }
      }
    }
  }

  lemma GatedJournals(w: World, env: TickInput, p: Policy, runtime: Runtime, s: Snapshot)
    ensures Journals(w, Gated(w, env, p, runtime, s))
  {
    hide SystemReasons, RefuseUnsafe, Touch, JournalAnd, Execute, IsCritical, Grows;
    if SystemReasons(p, runtime, s, w.now) != [] {
      RefuseJournals(w, p, IsCritical(SystemReasons(p, runtime, s, w.now)));
    } else {
      ElapseGrows(w);
      var r1 := Touch(w);
      if r1.Done? {
        if env.reconcileRequired {
          JournalAndJournals(r1.world, ReconcileRequired, ReconcileStatus);
        } else {
          ExecuteJournals(r1.world, env, p, runtime, s, w.now);
        }
        JournalsAfter(w, r1.world, Gated(w, env, p, runtime, s));
      }
    }
  }

  lemma TickBodyJournals(w: World, env: TickInput)
    ensures Journals(w, TickBody(w, env))
  {
    hide WriteRuntime, JournalAnd, GetRuntimeSnapshot, Gated, Grows;
    var ps, ks, runtime := w.store.policyState, w.store.killSwitch, w.store.runtime.(lastCronAt := Some(w.now));
    WriteRuntimeGrows(w, runtime);
    var r1 := WriteRuntime(w, runtime);
    if r1.Done? {
      if !ps.valid || !ps.policy.enabled {
        JournalAndJournals(r1.world, NoAction, if ps.valid then PolicyDisabled else PolicyInvalid);
      } else if ks.latched || ks.panic {
        JournalAndJournals(r1.world, Halt, Halted);
      } else {
        SnapshotGrows(r1.world, env.snapshot);
        var r2 := GetRuntimeSnapshot(r1.world, env.snapshot);
        if r2.Done? {
          GatedJournals(r2.world, env, ps.policy, runtime, r2.value);
          JournalsAfter(r1.world, r2.world, Gated(r2.world, env, ps.policy, runtime, r2.value));
        }
      }
      JournalsAfter(w, r1.world, TickBody(w, env));
    }
  }

  lemma GuardedBodyJournals(w: World, env: TickInput)
    ensures Journals(w, GuardedBody(w, env))
  {
    hide TickBody, JournalAnd, Grows;
    TickBodyJournals(w, env);
    var body := TickBody(w, env);
    if body.Threw? {
      JournalAndJournals(body.world, ErrorEntry, CronError);
      JournalsAfter(w, body.world, JournalAnd(body.world, ErrorEntry, CronError));
    }
  }

  // ------------------------------------------------------------------ the lock of one tick

  ghost predicate Free(lock: Option<Lock>) {
    lock == Some(Lock(0))
  }

  /** What a tick that got the lock leaves behind. */
  ghost predicate TailDiscipline(w: World, r: Outcome<TickStatus>) {
    && w.store.journal <= r.world.store.journal && w.history.placements <= r.world.history.placements
    && (r.Done? ==> !r.value.Locked? && |r.world.store.journal| > |w.store.journal| && Free(r.world.store.lock))
    && (r.Threw? ==> Free(r.world.store.lock) || r.world.history.lost.releases > w.history.lost.releases)
  }

  /** The result of a tick against its lock and the journal, for every placement of faults. */
  ghost predicate LockDiscipline(w: World, r: Outcome<TickStatus>) {
    && w.store.journal <= r.world.store.journal && w.history.placements <= r.world.history.placements
    // a refused tick leaves the whole store alone
    && (r.Done? && r.value.Locked? ==> r.world.store == w.store)
    // a tick that ended otherwise has journalled and has released its lock
    && (r.Done? && !r.value.Locked? ==> |r.world.store.journal| > |w.store.journal| && Free(r.world.store.lock))
    // after an exception the lock is free, or the tick never entered, or the write releasing it failed
    && (r.Threw? ==>
          || Free(r.world.store.lock) || r.world.store == w.store.(lock := r.world.store.lock)
          || r.world.history.lost.releases > w.history.lost.releases)
  }

  lemma ReleaseSpec(w: World)
    requires w.store.lock.Some?
    ensures var r := ReleaseLock(w);
      && r.world.store.journal == w.store.journal && r.world.history.placements == w.history.placements
      && (r.Done? ==> Free(r.world.store.lock))
      && (r.Threw? ==> Free(r.world.store.lock) || r.world.history.lost.releases > w.history.lost.releases)
  {
  }

  lemma StatusIsNotLocked(w: World, env: TickInput)
    ensures GuardedBody(w, env).Done? ==> !GuardedBody(w, env).value.Locked?
  {
    hide WriteRuntime, GetRuntimeSnapshot, Gated, AppendJournal, SystemReasons;
    var ps, runtime := w.store.policyState, w.store.runtime.(lastCronAt := Some(w.now));
    var r1 := WriteRuntime(w, runtime);
    if r1.Done? {
      var r2 := GetRuntimeSnapshot(r1.world, env.snapshot);
      if r2.Done? { GatedIsNotLocked(r2.world, env, ps.policy, runtime, r2.value); }
    }
  }

  lemma GatedIsNotLocked(w: World, env: TickInput, p: Policy, runtime: Runtime, s: Snapshot)
    ensures Gated(w, env, p, runtime, s).Done? ==> !Gated(w, env, p, runtime, s).value.Locked?
  {
    hide SystemReasons, Touch, LatchCritical, AppendJournal, IsCritical, ListIntentions, Sweep, RejectExpired,
      SelectNext, SafeId,
      ReadApproval, IntentionReasons, SaveNewApproval, SaveIntention, WriteRuntime, GetRuntimeSnapshot,
        PlaceLimitOrder, MarkUsed,
      NewApproval, PaperOrderOf;
  }

  lemma TailReleases(w: World, env: TickInput)
    requires w.store.lock.Some?
    ensures TailDiscipline(w, LockedTick(w, env))
  {
    hide GuardedBody, ReleaseLock, NoFaults, Free;
    GuardedBodyJournals(w, env);
    StatusIsNotLocked(w, env);
    ReleaseSpec(GuardedBody(w, env).world);
  }

  /** Every tick, whatever fails inside it, keeps the lock discipline. */
  lemma TickReleasesItsLock(w: World, env: TickInput)
    ensures LockDiscipline(w, RunMinuteCron(w, env))
  {
    hide LockedTick, NoFaults, Free;
    var r0 := Touch(w);
    if r0.Done? {
      var r1 := AcquireLock(r0.world, LOCK_TTL_MS);
      if r1.Done? && r1.value { TailReleases(r1.world, env); }
    }
  }
}
