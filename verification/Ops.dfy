/** The protocol as the plugin runs it: awaited calls on the store and the adapter, with its try blocks. */
module Ops {
  import opened Basics
  import opened JsStrings
  import opened TradingTypes
  import opened TradingSafety
  import opened Storage
  import opened OpsSpec
  import Spec = StorageSpec
  import PolicyLoader
  import Invariant = TradingInvariant
  import Runs = TradingRuns

  method StageIntention(storage: TradingStorage, raw: RawIntention) returns (r: Attempt<bool>)
    modifies storage, storage.host
    ensures Agrees(storage.View(), r, OpsSpec.StageIntention(old(storage.View()), raw))
  {
    hide StageReasons, NormalizeIntention, SafeId, Spec.AppendJournal;
    var _ :- storage.Touch();
    var ps, now := storage.policyState, storage.host.now;
    var intention := NormalizeIntention(raw, ps.policy, now);
    if StageReasons(raw, intention, ps, now) != [] {
      var _ :- storage.SaveIntention(intention.(status := Rejected));
      var _ :- storage.AppendJournal(IntentionRejected, Some(intention.id));
      return Returned(false);
    }
    var _ :- SaveStaged(storage, intention);
    var _ :- storage.AppendJournal(IntentionStaged, Some(intention.id));
    return Returned(true);
  }

  /** Saving an accepted record, noted in the history once it reached the store. */
  method SaveStaged(storage: TradingStorage, i: Intention) returns (r: Attempt<()>)
    modifies storage`intentions, storage`history, storage.host
    ensures Agrees(storage.View(), r, OpsSpec.SaveStaged(old(storage.View()), i))
  {
    hide SafeId;
    ghost var before := storage.View();
    r := storage.SaveIntention(i);
    if SafeId(i.id).Some? && !Spec.NextFault(before).ThrowsBefore? {
      storage.history := NoteStaging(storage.history, SafeId(i.id).value, i.humanApprovalId);
    }
  }

  method CancelIntention(storage: TradingStorage, id: string) returns (r: Attempt<bool>)
    modifies storage, storage.host
    ensures Agrees(storage.View(), r, OpsSpec.CancelIntention(old(storage.View()), id))
  {
    hide SafeId;
    var _ :- storage.Touch();
    var intention :- storage.ReadIntention(id);
    if intention.None? { return Returned(false); }
    var _ :- storage.SaveIntention(intention.value.(status := Cancelled));
    return Returned(true);
  }

  method RefreshProjectPolicy(storage: TradingStorage, file: PolicyLoader.PolicyFile) returns (r: Attempt<()>)
    modifies storage, storage.host
    ensures Agrees(storage.View(), r, OpsSpec.RefreshPolicy(old(storage.View()), file))
  {
    hide PolicyLoader.LoadProjectPolicy, Spec.WritePolicyState;
    r := storage.WritePolicyState(PolicyLoader.LoadProjectPolicy(file));
  }

  method LatchCritical(storage: TradingStorage, adapter: TradingAdapter, cause: LatchCause, liveEnabled: bool)
    returns (r: Attempt<()>)
    requires adapter.storage == storage
    modifies storage, storage.host
    ensures Agrees(storage.View(), r, OpsSpec.LatchCritical(old(storage.View()), cause, liveEnabled))
  {
    hide Spec.LatchKillSwitch, Spec.CancelAllOrders, Spec.AppendJournal;
    var _ :- storage.LatchKillSwitch(cause);
    var cancelAttempted := false;
    if liveEnabled {
      cancelAttempted := true;
      var _ := adapter.CancelAllOrders();
    }
    var _ :- storage.AppendIncident(Incident(cancelAttempted, cause, storage.host.now));
    var _ :- storage.AppendJournal(KillSwitchEntry, None);
    r := adapter.NotifyHuman();
  }

  method SaveNewApproval(storage: TradingStorage, a: Approval) returns (r: Attempt<()>)
    modifies storage`approvals, storage`history, storage.host
    ensures Agrees(storage.View(), r, OpsSpec.SaveNewApproval(old(storage.View()), a))
  {
    hide SafeId;
    ghost var before := storage.View().store;
    r := storage.SaveApproval(a);
    storage.history := NoteReuse(storage.history, before, SafeId(a.id));
  }

  method RequestApproval(storage: TradingStorage, adapter: TradingAdapter, env: Spec.TickInput, i: Intention, p: Policy)
    returns (r: Attempt<TickStatus>)
    requires adapter.storage == storage
    modifies storage, storage.host
    ensures Agrees(storage.View(), r, OpsSpec.RequestApproval(old(storage.View()), env, i, p))
  {
    hide Spec.GetRuntimeSnapshot, OpsSpec.SaveNewApproval, Spec.SaveIntention, Spec.AppendJournal, Spec.Touch,
      NewApproval;
    var s :- adapter.GetRuntimeSnapshot(env.later);
    var _ :- SaveNewApproval(storage, NewApproval(i, p, s, env.approvalId, storage.host.now));
    var _ :- storage.SaveIntention(i.(humanApprovalId := Some(env.approvalId), status := ApprovalRequested));
    var _ :- storage.AppendJournal(ApprovalRequestedEntry, Some(i.id));
    var _ :- adapter.NotifyHuman();
    return Returned(RequestedApproval(i.id));
  }

  method Reject(storage: TradingStorage, i: Intention) returns (r: Attempt<TickStatus>)
    modifies storage, storage.host
    ensures Agrees(storage.View(), r, OpsSpec.Reject(old(storage.View()), i))
  {
    hide Spec.SaveIntention, Spec.AppendJournal;
    var _ :- storage.SaveIntention(i.(status := Rejected));
    var _ :- storage.AppendJournal(IntentionRejected, Some(i.id));
    return Returned(RejectedByChecks(i.id));
  }

  method ExecutePaper(storage: TradingStorage, adapter: TradingAdapter, i: Intention, runtime: Runtime)
    returns (r: Attempt<TickStatus>)
    requires adapter.storage == storage
    modifies storage, storage.host
    ensures Agrees(storage.View(), r, OpsSpec.ExecutePaper(old(storage.View()), i, runtime))
  {
    hide Spec.SaveIntention, Spec.WriteRuntime, Spec.AppendJournal, Spec.Touch;
    var _ :- storage.SaveIntention(i.(status := Executed));
    var _ :- storage.WriteRuntime(runtime.(paperOrders := runtime.paperOrders + [PaperOrderOf(i)]));
    var _ :- storage.AppendJournal(PaperOrderEntry, Some(i.id));
    var _ :- adapter.NotifyHuman();
    return Returned(PaperPlaced(i.id));
  }

  /** The inner try block. */
  method TryLive(storage: TradingStorage, adapter: TradingAdapter, i: Intention, runtime: Runtime, s: Snapshot,
                 approval: Option<Approval>,
                 ghost gateAt: int) returns (r: Attempt<TickStatus>)
    requires adapter.storage == storage && SafeId(i.id).Some?
    modifies storage, storage.host
    ensures Agrees(storage.View(), r, OpsSpec.TryLive(old(storage.View()), i, runtime, s, approval, gateAt))
  {
    hide SafeId, Spec.PlaceLimitOrder, Spec.SaveIntention, Spec.WriteRuntime, Spec.AppendJournal, Spec.Touch,
      Spec.SaveApproval;
    var orderId :- adapter.PlaceLimitOrder(i, s, approval, gateAt);
    var _ :- storage.SaveIntention(i.(status := Executed));
    var _ :- storage.WriteRuntime(runtime.(openOrders := runtime.openOrders + [OpenOrder(orderId, i.symbol, i.side)]));
    var _ :- storage.AppendJournal(LiveOrderEntry, Some(i.id));
    var _ :- adapter.NotifyHuman();
    if approval.Some? {
      var _ :- storage.SaveApproval(approval.value.(usedAt := Some(storage.host.now)));
    }
    return Returned(LivePlaced(i.id));
  }

  method ExecuteLive(storage: TradingStorage, adapter: TradingAdapter, i: Intention, runtime: Runtime, s: Snapshot,
                     approval: Option<Approval>,
                     ghost gateAt: int) returns (r: Attempt<TickStatus>)
    requires adapter.storage == storage && SafeId(i.id).Some?
    modifies storage, storage.host
    ensures Agrees(storage.View(), r, OpsSpec.ExecuteLive(old(storage.View()), i, runtime, s, approval, gateAt))
  {
    hide SafeId, OpsSpec.TryLive, OpsSpec.LatchCritical;
    r := TryLive(storage, adapter, i, runtime, s, approval, gateAt);
    if r.Exception? {
      var _ :- LatchCritical(storage, adapter, LiveOrderException, true);
      r := Returned(KillSwitched(i.id));
    }
  }

  /** `for (const expired of rejectExpiredIntentions(...))` */
  method SweepExpired(storage: TradingStorage, list: seq<Intention>) returns (r: Attempt<()>)
    modifies storage, storage.host
    ensures Agrees(storage.View(), r, Sweep(old(storage.View()), list))
  {
    hide Spec.ReadIntention, Spec.SaveIntention, Spec.AppendJournal;
    for n := 0 to |list|
      invariant Sweep(storage.View(), list[n..]) == Sweep(old(storage.View()), list)
    {
      assert list[n..][1..] == list[n + 1..];
      var expired := list[n];
      var stored :- storage.ReadIntention(expired.id);
      if stored.None? || stored.value.status != expired.status {
        var _ :- storage.SaveIntention(expired);
        var _ :- storage.AppendJournal(IntentionRejected, Some(expired.id));
      }
    }
    return Returned(());
  }

  method Act(storage: TradingStorage, adapter: TradingAdapter, env: Spec.TickInput, p: Policy, i: Intention,
             runtime: Runtime, s: Snapshot,
             ghost gateAt: int) returns (r: Attempt<TickStatus>)
    requires adapter.storage == storage && SafeId(i.id).Some?
    modifies storage, storage.host
    ensures Agrees(storage.View(), r, OpsSpec.Act(old(storage.View()), env, p, i, runtime, s, gateAt))
  {
    hide SafeId, Spec.ReadApproval, IntentionReasons, OpsSpec.RequestApproval, OpsSpec.Reject, OpsSpec.ExecutePaper,
      OpsSpec.ExecuteLive;
    var approval :- storage.ReadApproval(i.humanApprovalId);
    var reasons := IntentionReasons(i, approval, p, s, storage.host.now);
    if reasons != [] {
      if i.mode.Live? && ApprovalMissing in reasons {
        r := RequestApproval(storage, adapter, env, i, p);
      } else {
        r := Reject(storage, i);
      }
    } else if i.mode.Paper? {
      r := ExecutePaper(storage, adapter, i, runtime);
    } else {
      r := ExecuteLive(storage, adapter, i, runtime, s, approval, gateAt);
    }
  }

  method Execute(storage: TradingStorage, adapter: TradingAdapter, env: Spec.TickInput, p: Policy, runtime: Runtime,
                 s: Snapshot,
                 ghost gateAt: int) returns (r: Attempt<TickStatus>)
    requires adapter.storage == storage
    modifies storage, storage.host
    ensures Agrees(storage.View(), r, OpsSpec.Execute(old(storage.View()), env, p, runtime, s, gateAt))
  {
    hide SafeId, Spec.ListIntentions, Sweep, RejectExpired, SelectNext, Spec.AppendJournal, OpsSpec.Act;
    var list :- storage.ListIntentions();
    var _ :- SweepExpired(storage, RejectExpired(list, storage.host.now));
    var swept :- storage.ListIntentions();
    var intention := SelectNext(swept, storage.host.now);
    if intention.None? {
      var _ :- storage.AppendJournal(NoAction, None);
      return Returned(NothingToDo);
    }
    if SafeId(intention.value.id).None? { return Exception; }
    r := Act(storage, adapter, env, p, intention.value, runtime, s, gateAt);
  }

  method JournalAnd(storage: TradingStorage, kind: JournalKind, status: TickStatus) returns (r: Attempt<TickStatus>)
    modifies storage, storage.host
    ensures Agrees(storage.View(), r, OpsSpec.JournalAnd(old(storage.View()), kind, status))
  {
    hide Spec.AppendJournal;
    var _ :- storage.AppendJournal(kind, None);
    return Returned(status);
  }

  method Gated(storage: TradingStorage, adapter: TradingAdapter, env: Spec.TickInput, p: Policy, runtime: Runtime,
               s: Snapshot)
    returns (r: Attempt<TickStatus>)
    requires adapter.storage == storage
    modifies storage, storage.host
    ensures Agrees(storage.View(), r, OpsSpec.Gated(old(storage.View()), env, p, runtime, s))
  {
    hide SystemReasons, SafeSystem, Spec.Touch, OpsSpec.JournalAnd, OpsSpec.Execute, OpsSpec.LatchCritical, IsCritical;
    var gateAt := storage.host.now;
    var ok, critical, reasons := ValidateSystemSafety(p, runtime, s, gateAt);
    SystemSafetyMeaning(p, runtime, s, gateAt);
    if !ok {
      if critical {
        var _ :- LatchCritical(storage, adapter, UnsafeSystem, p.mode.Live?);
        return Returned(UnsafeStatus);
      }
      r := JournalAnd(storage, Halt, UnsafeStatus);
      return;
    }
    var required :- adapter.ReconcileOpenOrders(env.reconcileRequired);
    if required {
      r := JournalAnd(storage, ReconcileRequired, ReconcileStatus);
      return;
    }
    r := Execute(storage, adapter, env, p, runtime, s, gateAt);
  }

  /** The outer try block. */
  method TickBody(storage: TradingStorage, adapter: TradingAdapter, env: Spec.TickInput)
    returns (r: Attempt<TickStatus>)
    requires adapter.storage == storage
    modifies storage, storage.host
    ensures Agrees(storage.View(), r, OpsSpec.TickBody(old(storage.View()), env))
  {
    hide Spec.WriteRuntime, OpsSpec.JournalAnd, Spec.GetRuntimeSnapshot, OpsSpec.Gated;
    var policyState := storage.policyState;
    var policy := policyState.policy;
    var runtime := storage.runtime;
    var killSwitch := storage.killSwitch;
    runtime := runtime.(lastCronAt := Some(storage.host.now));
    var _ :- storage.WriteRuntime(runtime);
    if !policyState.valid || !policy.enabled {
      r := JournalAnd(storage, NoAction, if policyState.valid then PolicyDisabled else PolicyInvalid);
      return;
    }
    if killSwitch.latched || killSwitch.panic {
      r := JournalAnd(storage, Halt, Halted);
      return;
    }
    var s :- adapter.GetRuntimeSnapshot(env.snapshot);
    r := Gated(storage, adapter, env, policy, runtime, s);
  }

  /** One cron tick: lock, try, catch, finally. */
  method RunMinuteCron(storage: TradingStorage, adapter: TradingAdapter, env: Spec.TickInput)
    returns (r: Attempt<TickStatus>)
    requires adapter.storage == storage
    modifies storage, storage.host
    ensures Agrees(storage.View(), r, OpsSpec.RunMinuteCron(old(storage.View()), env))
  {
    hide Spec.Touch, Spec.AcquireLock, Spec.ReleaseLock, OpsSpec.TickBody, OpsSpec.JournalAnd;
    var _ :- storage.Touch();
    var acquired :- storage.AcquireLock(LOCK_TTL_MS);
    if !acquired { return Returned(Locked); }
    r := TickBody(storage, adapter, env);
    if r.Exception? {
      r := JournalAnd(storage, ErrorEntry, CronError);
    }
    var released := storage.ReleaseLock();
    if released.Exception? { r := Exception; }
  }

  /** Serial steps on one store; whatever they throw, the store is where the value-level run says. */
  method RunSteps(storage: TradingStorage, adapter: TradingAdapter, steps: seq<Runs.Step>)
    requires adapter.storage == storage
    requires Runs.Initial(storage.View())
    modifies storage, storage.host
    ensures storage.View() == Runs.Run(old(storage.View()), steps)
    ensures Invariant.Inv(storage.View())
  {
    hide OpsSpec.StageIntention, OpsSpec.CancelIntention, OpsSpec.RefreshPolicy, OpsSpec.RunMinuteCron,
      Spec.AppendJournal, Spec.Touch,
      Invariant.Inv, Runs.Initial;
    Runs.Reached(storage.View(), steps);
    for n := 0 to |steps|
      invariant Runs.Run(storage.View(), steps[n..]) == Runs.Run(old(storage.View()), steps)
    {
      assert steps[n..][1..] == steps[n + 1..];
      match steps[n]
      case Stage(raw) => var _ := StageIntention(storage, raw);
      case Cancel(id) => var _ := CancelIntention(storage, id);
      case Refresh(file) => var _ := RefreshProjectPolicy(storage, file);
      case Tick(env) => var _ := RunMinuteCron(storage, adapter, env);
      case Wait(ms) => storage.host.now := storage.host.now + ms;
      case Approve(key) =>
        if key in storage.intentions && storage.intentions[key].status.ApprovalRequested? {
          storage.intentions := storage.intentions[key := storage.intentions[key].(status := Approved)];
          storage.history := storage.history.(approved := storage.history.approved + {key});
        }
      case SwitchedOffTick =>
        var ready := storage.Touch();
        if ready.Returned? { var _ := storage.AppendJournal(NoAction, None); }
    }
  }
}
