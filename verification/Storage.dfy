/** The imperative storage and adapter: objects updated in place, proved to do what StorageSpec says. */
module Storage {
  import opened Basics
  import opened JsStrings
  import opened TradingTypes
  import Spec = StorageSpec

  /** The outcome of an awaited call. */
  datatype Attempt<+T> = Returned(value: T) | Exception {
    predicate IsFailure() { Exception? }
    function PropagateFailure<U>(): Attempt<U> requires Exception? { Exception }
    function Extract(): T requires Returned? { value }
  }

  /** An attempt in the object world agrees with an outcome in the value world. */
  ghost predicate Agrees<T>(w: Spec.World, a: Attempt<T>, o: Spec.Outcome<T>) {
    && w == o.world && (a.Returned? <==> o.Done?)
    && (o.Done? ==> a.value == o.value)
  }

  /** The host: the clock, and what will happen at each I/O. */
  class Host {
    var now: int
    var script: seq<Spec.Io>

    constructor (now: int, script: seq<Spec.Io>)
      ensures this.now == now && this.script == script
    {
      this.now, this.script := now, script;
    }

    method Perform() returns (fault: Spec.Fault)
      modifies this
      ensures fault == if old(script) == [] then Spec.Fine else old(script)[0].fault
      ensures now == old(now) + (if old(script) == [] then 0 else old(script)[0].elapsed)
      ensures script == if old(script) == [] then [] else old(script)[1..]
    {
      fault := Spec.Fine;
      if script != [] {
        fault := script[0].fault;
        now, script := now + script[0].elapsed, script[1..];
      }
    }
  }

  class TradingStorage {
    const host: Host
    var policyState: LoadedPolicy
    var runtime: Runtime
    var killSwitch: KillSwitch
    var intentions: map<string, Intention>
    var approvals: map<string, Approval>
    var journal: seq<JournalEntry>
    var incidents: seq<Incident>
    var lock: Option<Lock>
    ghost var history: Spec.History

    ghost function View(): Spec.World
      reads this, host
    {
      Spec.World(Spec.Store(policyState, runtime, killSwitch, intentions, approvals, journal, incidents, lock),
                 host.now, host.script, history)
    }

    /** An initialised, empty store. */
    constructor (host: Host, initial: LoadedPolicy)
      ensures this.host == host
      ensures View().store == Spec.Store(initial, DEFAULT_RUNTIME, DEFAULT_KILL_SWITCH, map[], map[], [], [], None)
      ensures View().now == host.now && View().script == host.script
      ensures history == Spec.FirstHistory(initial.policy)
    {
      this.host := host;
      policyState, runtime, killSwitch := initial, DEFAULT_RUNTIME, DEFAULT_KILL_SWITCH;
      intentions, approvals, journal, incidents, lock := map[], map[], [], [], None;
      history := Spec.FirstHistory(initial.policy);
    }

    method Perform() returns (fault: Spec.Fault)
      modifies `history, host
      ensures fault == Spec.NextFault(old(View())) && View() == Spec.Elapse(old(View()))
    {
      fault := host.Perform();
      history := history.(faulted := history.faulted || fault != Spec.Fine);
    }

    method Touch() returns (r: Attempt<()>)
      modifies `history, host
      ensures Agrees(View(), r, Spec.Touch(old(View())))
    {
      var fault := Perform();
      r := if fault.Fine? then Returned(()) else Exception;
    }

    method WriteRuntime(next: Runtime) returns (r: Attempt<()>)
      modifies `runtime, `history, host
      ensures Agrees(View(), r, Spec.WriteRuntime(old(View()), next))
    {
      var fault := Perform();
      if !fault.ThrowsBefore? { runtime := next; }
      r := if fault.Fine? then Returned(()) else Exception;
    }

    method WritePolicyState(next: LoadedPolicy) returns (r: Attempt<()>)
      modifies `policyState, `history, host
      ensures Agrees(View(), r, Spec.WritePolicyState(old(View()), next))
    {
      var fault := Perform();
      if !fault.ThrowsBefore? {
        policyState := next;
        history := history.(sawLive := history.sawLive || (next.policy.enabled && next.policy.mode.Live?),
                            sawPaper := history.sawPaper || (next.policy.enabled && next.policy.mode.Paper?));
      }
      r := if fault.Fine? then Returned(()) else Exception;
    }

    method SaveIntention(intention: Intention) returns (r: Attempt<()>)
      modifies `intentions, `history, host
      ensures Agrees(View(), r, Spec.SaveIntention(old(View()), intention))
    {
      hide SafeId;
      var key := SafeId(intention.id);
      if key.None? { return Exception; }
      var fault := Perform();
      if !fault.ThrowsBefore? { intentions := intentions[key.value := intention]; }
      r := if fault.Fine? then Returned(()) else Exception;
    }

    method SaveApproval(approval: Approval) returns (r: Attempt<()>)
      modifies `approvals, `history, host
      ensures Agrees(View(), r, Spec.SaveApproval(old(View()), approval))
    {
      hide SafeId;
      var key := SafeId(approval.id);
      if key.None? { return Exception; }
      var fault := Perform();
      if !fault.ThrowsBefore? { approvals := approvals[key.value := approval]; }
      r := if fault.Fine? then Returned(()) else Exception;
    }

    method ReadIntention(id: string) returns (r: Attempt<Option<Intention>>)
      modifies `history, host
      ensures Agrees(View(), r, Spec.ReadIntention(old(View()), id))
    {
      hide SafeId;
      var key := SafeId(id);
      if key.None? { return Exception; }
      var fault := Perform();
      if !fault.Fine? { return Exception; }
      r := Returned(if key.value in intentions then Some(intentions[key.value]) else None);
    }

    method ReadApproval(id: Option<string>) returns (r: Attempt<Option<Approval>>)
      modifies `history, host
      ensures Agrees(View(), r, Spec.ReadApproval(old(View()), id))
    {
      hide SafeId;
      if id.None? || id.value == "" { return Returned(None); }
      var key := SafeId(id.value);
      if key.None? { return Exception; }
      var fault := Perform();
      if !fault.Fine? { return Exception; }
      r := Returned(if key.value in approvals then Some(approvals[key.value]) else None);
    }

    /** Reads the record files in the order of their sorted names. */
    method ListIntentions() returns (r: Attempt<seq<Intention>>)
      modifies `history, host
      ensures Agrees(View(), r, Spec.ListIntentions(old(View())))
    {
      var fault := Perform();
      if !fault.Fine? { return Exception; }
      var list: seq<Intention> := [];
      var remaining := intentions.Keys;
      while remaining != {}
        invariant remaining <= intentions.Keys && View() == Spec.Elapse(old(View()))
        invariant list + Spec.Listing(intentions, remaining) == Spec.Listing(intentions, intentions.Keys)
        decreases |remaining|
      {
        Spec.FirstKeyExists(remaining);
        var first :| first in remaining && forall o :: o in remaining ==> Spec.PathLeq(first, o);
        Spec.PathAntisymmetric(first, Spec.FirstKey(remaining));
        list := list + [intentions[first]];
        remaining := remaining - {first};
      }
      assert list + [] == list;
      r := Returned(list);
    }

    method AppendJournal(kind: JournalKind, intentionId: Option<string>) returns (r: Attempt<()>)
      modifies `journal, `runtime, `history, host
      ensures Agrees(View(), r, Spec.AppendJournal(old(View()), kind, intentionId))
    {
      var entry := JournalEntry(kind, intentionId, host.now);
      var fault := Perform();
      if !fault.ThrowsBefore? { journal := journal + [entry]; }
      if !fault.Fine? { return Exception; }
      r := WriteRuntime(runtime.(lastJournalAt := Some(entry.timestamp)));
    }

    method AppendIncident(incident: Incident) returns (r: Attempt<()>)
      modifies `incidents, `history, host
      ensures Agrees(View(), r, Spec.AppendIncident(old(View()), incident))
    {
      var fault := Perform();
      if !fault.ThrowsBefore? { incidents := incidents + [incident]; }
      r := if fault.Fine? then Returned(()) else Exception;
    }

    method LatchKillSwitch(cause: LatchCause) returns (r: Attempt<()>)
      modifies `killSwitch, `history, host
      ensures Agrees(View(), r, Spec.LatchKillSwitch(old(View()), cause))
    {
      var current := killSwitch;
      var latchedAt := if current.latchedAt.Some? then current.latchedAt else Some(host.now);
      var fault := Perform();
      if fault.ThrowsBefore? {
        history := Spec.NoteLoss(history, View().store, cause);
      } else {
        killSwitch := current.(latched := true, latchedAt := latchedAt, reason := Some(cause));
      }
      r := if fault.Fine? then Returned(()) else Exception;
    }

    method AcquireLock(ttl: int) returns (r: Attempt<bool>)
      modifies `lock, `history, host
      ensures Agrees(View(), r, Spec.AcquireLock(old(View()), ttl))
    {
      var now := host.now;
      if lock.Some? && lock.value.expiresAt > now { return Returned(false); }
      var fault := Perform();
      if !fault.ThrowsBefore? { lock := Some(Lock(now + ttl)); }
      r := if fault.Fine? then Returned(true) else Exception;
    }

    method ReleaseLock() returns (r: Attempt<()>)
      modifies `lock, `history, host
      ensures Agrees(View(), r, Spec.ReleaseLock(old(View())))
    {
      if lock.None? { return Returned(()); }
      var fault := Perform();
      if fault.ThrowsBefore? { history := Spec.NoteUnreleased(history); } else { lock := Some(Lock(0)); }
      r := if fault.Fine? then Returned(()) else Exception;
    }
  }

  /** The exchange side. What it answers is a parameter; that it was called is recorded. */
  class TradingAdapter {
    const storage: TradingStorage

    constructor (storage: TradingStorage)
      ensures this.storage == storage
    {
      this.storage := storage;
    }

    method GetRuntimeSnapshot(answer: Snapshot) returns (r: Attempt<Snapshot>)
      modifies storage`history, storage.host
      ensures Agrees(storage.View(), r, Spec.GetRuntimeSnapshot(old(storage.View()), answer))
    {
      var _ :- storage.Touch();
      storage.history := storage.history.(
        foreignSnapshot := storage.history.foreignSnapshot || !Spec.OwnOrders(answer, storage.runtime));
      r := Returned(answer);
    }

    method PlaceLimitOrder(i: Intention, ghost s: Snapshot, ghost approval: Option<Approval>, ghost gateAt: int)
      returns (r: Attempt<string>)
      requires SafeId(i.id).Some?
      modifies storage`history, storage.host
      ensures Agrees(storage.View(), r, Spec.PlaceLimitOrder(old(storage.View()), i, s, approval, gateAt))
    {
      hide SafeId, Take, Spec.CallOf;
      ghost var call := Spec.CallOf(storage.View(), i, s, approval, gateAt);
      var fault := storage.Perform();
      storage.history := storage.history.(placements := storage.history.placements + [call]);
      r := if fault.Fine? then Returned(Take("metidos-" + i.id, 60)) else Exception;
    }

    method CancelAllOrders() returns (r: Attempt<()>)
      modifies storage`history, storage.host
      ensures storage.View() == Spec.CancelAllOrders(old(storage.View()))
      ensures r.Returned? <==> Spec.NextFault(old(storage.View())).Fine?
    {
      var fault := storage.Perform();
      storage.history := storage.history.(cancelAlls := storage.history.cancelAlls + 1);
      r := if fault.Fine? then Returned(()) else Exception;
    }

    method NotifyHuman() returns (r: Attempt<()>)
      modifies storage`history, storage.host
      ensures Agrees(storage.View(), r, Spec.Touch(old(storage.View())))
    {
      r := storage.Touch();
    }

    method ReconcileOpenOrders(answer: bool) returns (r: Attempt<bool>)
      modifies storage`history, storage.host
      ensures storage.View() == Spec.Touch(old(storage.View())).world
      ensures (r.Returned? <==> Spec.Touch(old(storage.View())).Done?) && (r.Returned? ==> r.value == answer)
    {
      var _ :- storage.Touch();
      r := Returned(answer);
    }
  }
}
