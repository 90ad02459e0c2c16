/** Any number of ticks, interleaved with atomic acquire and release: when the timed lock excludes, and when not. */
module TimedLock {
  import opened Basics
  import opened TradingTypes
  import opened StorageSpec

  type TickId = nat

  /** `inside` maps every tick in the critical section to the time at which it got the lock. */
  datatype Shared = Shared(lock: Option<Lock>, now: int, inside: map<TickId, int>)

  /** `Abandon` is an exit whose release write failed. */
  datatype Event = Acquire(t: TickId) | Release(t: TickId) | Abandon(t: TickId) | Advance(ms: nat)

  function After(s: Shared, e: Event, ttl: int): Shared {
    match e
    case Acquire(t) =>
      if t in s.inside || LockBlocks(s.lock, s.now) then s
      else s.(lock := Some(Lock(s.now + ttl)), inside := s.inside[t := s.now])
    case Release(t) =>
      if t !in s.inside then s
      else s.(lock := if s.lock.Some? then Some(Lock(0)) else None, inside := s.inside - {t})
    case Abandon(t) => s.(inside := s.inside - {t})
    case Advance(ms) => s.(now := s.now + ms)
  }

  /** The lock operations of the store, when their write succeeds, are these steps. */
  lemma StoreStepsAreEvents(w: World, inside: map<TickId, int>, t: TickId, ttl: int)
    requires NextFault(w).Fine?
    ensures var r, s := AcquireLock(w, ttl), After(Shared(w.store.lock, w.now, inside), Acquire(t), ttl);
      t !in inside ==> r.Done? && r.world.store.lock == s.lock && (r.value <==> t in s.inside)
    ensures var r, s := ReleaseLock(w), After(Shared(w.store.lock, w.now, inside), Release(t), ttl);
      t in inside ==> r.Done? && r.world.store.lock == s.lock && t !in s.inside
  {
  }

  function Reach(s: Shared, events: seq<Event>, ttl: int): Shared
    decreases |events|
  {
    if events == [] then s else Reach(After(s, events[0], ttl), events[1..], ttl)
  }

  /** No tick has been inside for its whole time to live. */
  ghost predicate Timely(s: Shared, ttl: int) {
    forall t :: t in s.inside ==> s.now < s.inside[t] + ttl
  }

  ghost predicate TimelyRun(s: Shared, events: seq<Event>, ttl: int)
    decreases |events|
  {
    Timely(s, ttl) && (events != [] ==> TimelyRun(After(s, events[0], ttl), events[1..], ttl))
  }

  ghost predicate Exclusive(s: Shared) {
    forall t, u :: t in s.inside && u in s.inside ==> t == u
  }

  /** Whoever is inside owns the lock that is stored. */
  ghost predicate Owned(s: Shared, ttl: int) {
    Exclusive(s) && forall t :: t in s.inside ==> s.lock == Some(Lock(s.inside[t] + ttl))
  }

  lemma StepOwned(s: Shared, e: Event, ttl: int)
    requires Owned(s, ttl) && Timely(s, ttl)
    ensures Owned(After(s, e, ttl), ttl)
  {
    assert forall t :: t in s.inside ==> LockBlocks(s.lock, s.now);
  }

  /** While no tick outlives its lock, at most one tick is in the critical section, in every interleaving. */
  lemma MutualExclusion(s: Shared, events: seq<Event>, ttl: int)
    requires s.inside == map[] && TimelyRun(s, events, ttl)
    ensures Exclusive(Reach(s, events, ttl))
  {
    RunOwned(s, events, ttl);
  }

  lemma {:induction false} RunOwned(s: Shared, events: seq<Event>, ttl: int)
    requires Owned(s, ttl) && TimelyRun(s, events, ttl)
    ensures Owned(Reach(s, events, ttl), ttl)
    decreases |events|
  {
    if events != [] {
      StepOwned(s, events[0], ttl);
      RunOwned(After(s, events[0], ttl), events[1..], ttl);
    }
  }

  /** The bound is exact: a second tick gets in precisely when the first has used up its time to live. */
  lemma SecondTickEntersIff(s: Shared, t: TickId, u: TickId, ttl: int)
    requires Owned(s, ttl) && t in s.inside && u !in s.inside
    ensures !Exclusive(After(s, Acquire(u), ttl)) <==> s.now >= s.inside[t] + ttl
  {
    assert u != t;
    if s.now >= s.inside[t] + ttl {
      var s' := After(s, Acquire(u), ttl);
      assert t in s'.inside && u in s'.inside;
    } else {
      assert After(s, Acquire(u), ttl) == s;
    }
  }

  /** An overrunning tick also frees its successor's lock, since release checks only the name: a third tick gets in. */
  lemma OverrunAdmitsAThird(now: int, t: TickId, u: TickId, v: TickId, ttl: nat)
    requires now >= 0 && ttl > 0 && t != u && u != v && t != v
    ensures var s := Shared(None, now, map[]);
      var s' := Reach(s, [Acquire(t), Advance(ttl), Acquire(u), Release(t), Acquire(v)], ttl);
      s'.inside.Keys == {u, v} && Timely(s', ttl)
  {
    var s := Shared(None, now, map[]);
    var s1 := After(s, Acquire(t), ttl);
    var s2 := After(s1, Advance(ttl), ttl);
    var s3 := After(s2, Acquire(u), ttl);
    var s4 := After(s3, Release(t), ttl);
    var s5 := After(s4, Acquire(v), ttl);
    assert s3.inside == map[t := now, u := now + ttl];
    assert s4.inside == map[u := now + ttl] && s4.lock == Some(Lock(0));
    assert s5.inside == map[u := now + ttl, v := now + ttl];
    var es := [Acquire(t), Advance(ttl), Acquire(u), Release(t), Acquire(v)];
    assert es[1..] == [Advance(ttl), Acquire(u), Release(t), Acquire(v)];
    assert es[1..][1..] == [Acquire(u), Release(t), Acquire(v)];
    assert es[1..][1..][1..] == [Release(t), Acquire(v)];
    assert es[1..][1..][1..][1..] == [Acquire(v)];
    assert es[1..][1..][1..][1..][1..] == [];
    assert Reach(s, es, ttl) == Reach(s1, es[1..], ttl) == Reach(s2, es[1..][1..], ttl) == Reach(s3, es[1..][1..][1..],
      ttl)
        == Reach(s4, es[1..][1..][1..][1..], ttl) == Reach(s5, [], ttl) == s5;
  }
}
