/** Locks are given back, in every reachable state: one release per acquired
    lock, and none left once every request has ended. */
module GateReleases {
  import opened JsText
  import opened Receipts
  import opened Gate
  import opened GateInFlight

  ghost predicate Holds(s: State, r: Rid) {
    r in s.requests && InCritical(s, s.requests[r].phase)
  }

  // ----- Releases, without hypotheses -----

  /** Locks are taken in locking mode only; a holder has not released yet, and
      an attempt that is over has released what it acquired, once. */
  ghost predicate LockPhaseOk(s: State, r: Rid)
    requires r in s.requests
  {
    var h, phase := s.history, s.requests[r].phase;
    if InCritical(s, phase) then r in h.acquired && h.releases[r] == 0
    else if phase.Resolved? || (phase.Done? && phase.attempt == Some(r)) then
      h.releases[r] == if r in h.acquired then 1 else 0
    else
      r !in h.acquired && h.releases[r] == 0 && (phase.Acquiring? ==> s.mode.Locking?)
      && !phase.Rechecking? && !IsReleasing(phase)
  }

  ghost predicate ReleaseInv(s: State) {
    && (forall r :: r in s.requests ==> LockPhaseOk(s, r))
    && (forall r :: r !in s.requests ==> r !in s.history.acquired && s.history.releases[r] == 0)
  }

  /** The locking history after a step of r: r's own part is in order, and
      nobody else's part moved. */
  ghost predicate LockStepOk(s: State, r: Rid, c: Change) {
    && LockPhaseOk(Apply(s, r, c), r)
    && (forall q :: q != r ==> (q in c.history.acquired <==> q in s.history.acquired))
    && (forall q :: q != r ==> c.history.releases[q] == s.history.releases[q])
  }

  lemma OpeningLockStep(s: State, e: Event)
    requires Enabled(s, e) && (e.Arrive? || e.VerifyInvalid? || e.VerifyThrows? || e.VerifyValid?)
    requires e.r in s.requests ==> LockPhaseOk(s, e.r)
    requires e.r !in s.requests ==> e.r !in s.history.acquired && s.history.releases[e.r] == 0
    ensures LockStepOk(s, e.r, StepOf(s, e))
  {
  }

  lemma ClosingLockStep(s: State, e: Event)
    requires Enabled(s, e) && (e.LeaderReturns? || e.WaiterReturns?)
    requires LockPhaseOk(s, e.r) && OutcomeOk(s, e.r)
    ensures LockStepOk(s, e.r, StepOf(s, e))
  {
  }

  lemma OutsideLockStep(s: State, e: Event)
    requires Enabled(s, e) && !IsStoreEvent(e) && !e.AcquireReturns? && !InCritical(s, StepOf(s, e).request.phase)
    requires !(e.Arrive? || e.VerifyInvalid? || e.VerifyThrows? || e.VerifyValid? || e.LeaderReturns? || e.WaiterReturns?)
    requires LockPhaseOk(s, e.r) && !InCritical(s, s.requests[e.r].phase)
    ensures LockStepOk(s, e.r, StepOf(s, e))
  {
  }

  lemma AcquireLockStep(s: State, e: Event)
    requires Enabled(s, e) && e.AcquireReturns? && LockPhaseOk(s, e.r)
    ensures LockStepOk(s, e.r, StepOf(s, e))
  {
  }

  lemma ReleaseLockStep(s: State, e: Event)
    requires Enabled(s, e) && (e.ReleaseReturns? || e.ReleaseThrows?) && LockPhaseOk(s, e.r)
    ensures LockStepOk(s, e.r, StepOf(s, e))
  {
  }

  lemma HeldLockStep(s: State, e: Event)
    requires Enabled(s, e) && !IsStoreEvent(e) && e.r in s.requests && LockPhaseOk(s, e.r)
    requires InCritical(s, s.requests[e.r].phase) && !e.ReleaseReturns? && !e.ReleaseThrows?
    ensures LockStepOk(s, e.r, StepOf(s, e))
  {
  }

  lemma EntersByAcquire(s: State, e: Event)
    requires Enabled(s, e) && !IsStoreEvent(e) && !e.AcquireReturns?
    requires e.r in s.requests ==> LockPhaseOk(s, e.r) && !InCritical(s, s.requests[e.r].phase)
    ensures !InCritical(s, StepOf(s, e).request.phase)
  {
  }

  lemma ReleaseStep(s: State, e: Event)
    requires FlightInv(s) && ReleaseInv(s) && Enabled(s, e) && !IsStoreEvent(e)
    ensures LockStepOk(s, e.r, StepOf(s, e))
  {
    assert e.r in s.requests ==> LockPhaseOk(s, e.r) && OutcomeOk(s, e.r);
    if e.Arrive? || e.VerifyInvalid? || e.VerifyThrows? || e.VerifyValid? {
      OpeningLockStep(s, e);
    } else if e.LeaderReturns? || e.WaiterReturns? {
      ClosingLockStep(s, e);
    } else if e.AcquireReturns? {
      AcquireLockStep(s, e);
    } else if e.ReleaseReturns? || e.ReleaseThrows? {
      ReleaseLockStep(s, e);
    } else if e.r in s.requests && InCritical(s, s.requests[e.r].phase) {
      HeldLockStep(s, e);
    } else {
      EntersByAcquire(s, e);
      OutsideLockStep(s, e);
    }
  }

  lemma LockStepKeeps(s: State, r: Rid, c: Change)
    requires ReleaseInv(s) && LockStepOk(s, r, c)
    ensures ReleaseInv(Apply(s, r, c))
  {
    var s' := Apply(s, r, c);
    forall q | q in s'.requests ensures LockPhaseOk(s', q) {
      if q != r { assert LockPhaseOk(s, q); }
    }
  }

  lemma ReleasesKept(s: State, e: Event)
    requires FlightInv(s) && ReleaseInv(s) && Enabled(s, e)
    ensures ReleaseInv(Next(s, e))
  {
    if IsStoreEvent(e) {
      var s' := Next(s, e);
      forall r | r in s'.requests ensures LockPhaseOk(s', r) {
        assert LockPhaseOk(s, r);
      }
    } else {
      ReleaseStep(s, e);
      LockStepKeeps(s, e.r, StepOf(s, e));
    }
  }

  lemma {:induction false} ReleasesAlways(s: State, events: seq<Event>)
    requires FlightInv(s) && ReleaseInv(s) && IsRun(s, events)
    ensures ReleaseInv(After(s, events))
    decreases |events|
  {
    if events != [] {
      FlightKept(s, events[0]);
      ReleasesKept(s, events[0]);
      ReleasesAlways(Next(s, events[0]), events[1..]);
    }
  }

  /** Every path after a successful acquire makes exactly one release call, and
      no other path makes any. */
  lemma OneReleasePerAcquire(s: State, r: Rid)
    requires Reachable(s) && r in s.requests && s.requests[r].phase.Done?
    ensures s.history.releases[r] == if r in s.history.acquired then 1 else 0
  {
    var mode, events :| IsRun(Start(mode), events) && s == After(Start(mode), events);
    FlightAlways(Start(mode), events);
    ReleasesAlways(Start(mode), events);
    assert LockPhaseOk(s, r) && OutcomeOk(s, r);
  }

  // ----- No lock is left behind -----

  /** No acquire of the key fails after taking its lock, and no release of it fails
      before giving it back. */
  predicate CleanLocks(key: Key, s: State, e: Event) {
    (e.AcquireThrows? && e.applied) || (e.ReleaseThrows? && !e.applied) ==> e.r in s.requests ==> s.requests[e.r].key != key
  }

  ghost predicate CleanRun(key: Key, s: State, events: seq<Event>)
    requires IsRun(s, events)
    decreases |events|
  {
    events == [] || (CleanLocks(key, s, events[0]) && CleanRun(key, Next(s, events[0]), events[1..]))
  }

  ghost predicate LockHeld(key: Key, s: State) {
    s.mode.Locking? && (key in s.store.locks ==> exists r :: Holds(s, r) && s.requests[r].key == key)
  }

  lemma CleanStep(key: Key, s: State, e: Event)
    requires s.mode.Locking? && Enabled(s, e) && !IsStoreEvent(e) && CleanLocks(key, s, e)
    ensures var c := StepOf(s, e);
            && (Holds(s, e.r) ==> c.request.key == s.requests[e.r].key)
            && (Holds(s, e.r) && c.request.key == key && !InCritical(s, c.request.phase) ==> key !in c.store.locks)
            && (key in c.store.locks && key !in s.store.locks ==> c.request.key == key && InCritical(s, c.request.phase))
  {
  }

  /** The holder of a lock that is still there after the step. */
  lemma StillHeld(key: Key, s: State, e: Event)
    requires LockHeld(key, s) && Enabled(s, e) && CleanLocks(key, s, e) && key in s.store.locks && key in Next(s, e).store.locks
    ensures exists r :: Holds(Next(s, e), r) && Next(s, e).requests[r].key == key
  {
    var s' := Next(s, e);
    var r :| Holds(s, r) && s.requests[r].key == key;
    if !IsStoreEvent(e) {
      CleanStep(key, s, e);
    }
    assert Holds(s', r) && s'.requests[r].key == key;
  }

  lemma NewlyHeld(key: Key, s: State, e: Event)
    requires s.mode.Locking? && Enabled(s, e) && CleanLocks(key, s, e) && key !in s.store.locks && key in Next(s, e).store.locks
    ensures exists r :: Holds(Next(s, e), r) && Next(s, e).requests[r].key == key
  {
    CleanStep(key, s, e);
    assert Holds(Next(s, e), e.r);
  }

  lemma LockHeldKept(key: Key, s: State, e: Event)
    requires LockHeld(key, s) && Enabled(s, e) && CleanLocks(key, s, e)
    ensures LockHeld(key, Next(s, e))
  {
    if key in Next(s, e).store.locks {
      if key in s.store.locks {
        StillHeld(key, s, e);
      } else {
        NewlyHeld(key, s, e);
      }
    }
  }

  lemma {:induction false} LockHeldAlways(key: Key, s: State, events: seq<Event>)
    requires LockHeld(key, s) && IsRun(s, events) && CleanRun(key, s, events)
    ensures LockHeld(key, After(s, events))
    decreases |events|
  {
    if events != [] {
      LockHeldKept(key, s, events[0]);
      LockHeldAlways(key, Next(s, events[0]), events[1..]);
    }
  }

  /** When every request of a key has ended, its lock is not held. */
  lemma NoLockLeftBehind(key: Key, events: seq<Event>)
    requires IsRun(Start(Locking), events) && CleanRun(key, Start(Locking), events)
    requires var s := After(Start(Locking), events);
             forall r :: r in s.requests && s.requests[r].key == key ==> s.requests[r].phase.Done?
    ensures key !in After(Start(Locking), events).store.locks
  {
    LockHeldAlways(key, Start(Locking), events);
  }

  // ----- Who touches the lock and the entry of a key -----

  predicate Concerns(s: State, r: Rid, key: Key) {
    r in s.requests && s.requests[r].key == key
  }

  /** An acquire that returned leaves the lock taken, by its own request or by the
      one it lost to; an acquire that threw may have taken it. */
  predicate TakesLock(key: Key, s: State, e: Event) {
    match e
    case AcquireReturns(r) => Concerns(s, r, key)
    case AcquireThrows(r, applied) => Concerns(s, r, key) && applied
    case _ => false
  }

  predicate FreesLock(key: Key, s: State, e: Event) {
    match e
    case ReleaseReturns(r) => Concerns(s, r, key)
    case ReleaseThrows(r, applied, _) => Concerns(s, r, key) && applied
    case LockExpires(k) => k == key
    case _ => false
  }

  lemma StepLock(key: Key, s: State, e: Event)
    requires Enabled(s, e) && !IsStoreEvent(e)
    ensures key in StepOf(s, e).store.locks <==> TakesLock(key, s, e) || (key in s.store.locks && !FreesLock(key, s, e))
  {
  }

  /** The lock of a key is there after a step exactly when the step took it, or it
      was there and the step did not free it. */
  lemma LockExactly(key: Key, s: State, e: Event)
    requires Enabled(s, e)
    ensures key in Next(s, e).store.locks <==> TakesLock(key, s, e) || (key in s.store.locks && !FreesLock(key, s, e))
  {
    if !IsStoreEvent(e) {
      StepLock(key, s, e);
    }
  }

  /** The receipt a step puts under the key. */
  function Puts(key: Key, s: State, e: Event): Option<Receipt> {
    match e
    case WriteReturns(r) =>
      if Concerns(s, r, key) && s.requests[r].phase.Writing? then Some(s.requests[r].phase.signed) else None
    case WriteThrows(r, applied, _) =>
      if Concerns(s, r, key) && s.requests[r].phase.Writing? && applied then Some(s.requests[r].phase.signed) else None
    case ForeignWrite(k, receipt) => if k == key then Some(receipt) else None
    case _ => None
  }

  function EntryOf(s: State, key: Key): Option<Receipt> {
    if key in s.store.entries then Some(s.store.entries[key]) else None
  }

  lemma StepEntry(key: Key, s: State, e: Event)
    requires Enabled(s, e) && (e.WriteReturns? || e.WriteThrows?)
    ensures EntryOf(Next(s, e), key) == if Puts(key, s, e).Some? then Puts(key, s, e) else EntryOf(s, key)
  {
  }

  /** The entry of a key is the last receipt put there, until it expires. */
  lemma EntryExactly(key: Key, s: State, e: Event)
    requires Enabled(s, e)
    ensures EntryOf(Next(s, e), key) ==
            if Puts(key, s, e).Some? then Puts(key, s, e) else if e == EntryExpires(key) then None else EntryOf(s, key)
  {
    if e.WriteReturns? || e.WriteThrows? {
      StepEntry(key, s, e);
    }
  }
}
