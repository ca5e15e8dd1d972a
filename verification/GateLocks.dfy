/** Several gates over one locking cache, for one payment: mutual exclusion
    between acquire and release, at most one successful settle, and one receipt,
    each under hypotheses on the lock, the entry and the requests of that payment's
    key and on nothing else. */
module GateLocks {
  import opened Gate
  import opened GateInFlight
  import opened GateReceipts
  import opened GateReleases

  // ----- Hypotheses -----

  /** How far the deployment can be relied on for one key: its lock does not expire
      under its holder; also signing succeeds, the cached entry stays and a failed
      write has taken effect; also nobody but the gates writes the entry. */
  datatype Trust = LocksLast | StoreLasts | OnlyGatesWrite

  predicate IsFor(s: State, r: Rid, key: Key) {
    r in s.requests && s.requests[r].key == key
  }

  /** Events of other keys are free. */
  ghost predicate Keeps(key: Key, trust: Trust, s: State, e: Event) {
    match e
    case LockExpires(k) => k == key ==> forall r :: Holds(s, r) ==> s.requests[r].key != key
    case EntryExpires(k) => k == key ==> trust.LocksLast?
    case ForeignWrite(k, _) => k == key ==> !trust.OnlyGatesWrite?
    case SignThrows(r) => IsFor(s, r, key) ==> trust.LocksLast?
    case WriteThrows(r, applied, _) => IsFor(s, r, key) ==> trust.LocksLast? || applied
    case _ => true
  }

  ghost predicate KeepsRun(key: Key, trust: Trust, s: State, events: seq<Event>)
    requires IsRun(s, events)
    decreases |events|
  {
    events == [] || (Keeps(key, trust, s, events[0]) && KeepsRun(key, trust, Next(s, events[0]), events[1..]))
  }

  // ----- Invariants -----

  predicate Unwritten(phase: Phase) {
    phase.Settling? || phase.Signing? || phase.Writing?
  }

  predicate Settled(phase: Phase) {
    phase.Signing? || phase.Writing?
  }

  /** The holder of the lock is alone. */
  ghost predicate Exclusive(key: Key, s: State) {
    && s.mode.Locking?
    && (forall q, r :: Holds(s, q) && Holds(s, r) && s.requests[q].key == key && s.requests[r].key == key ==> q == r)
    && (forall r :: Holds(s, r) && s.requests[r].key == key ==> key in s.store.locks)
  }

  ghost predicate Unsettled(settles: seq<Settle>, key: Key) {
    forall i :: 0 <= i < |settles| ==> settles[i].key != key
  }

  predicate Covered(s: State, settle: Settle) {
    settle.key in s.store.entries || (IsFor(s, settle.rid, settle.key) && Settled(s.requests[settle.rid].phase))
  }

  /** The settlement is in the cache, or its settler is still before the write; a
      request about to settle is the first; so the key does not settle twice. */
  ghost predicate SettledOnce(key: Key, s: State) {
    && (forall i :: 0 <= i < |s.history.settles| && s.history.settles[i].key == key ==> Covered(s, s.history.settles[i]))
    && (forall r :: IsFor(s, r, key) && s.requests[r].phase.Settling? ==> Unsettled(s.history.settles, key))
    && (forall i, j :: 0 <= i < j < |s.history.settles| ==> s.history.settles[i].key != key || s.history.settles[j].key != key)
  }

  ghost predicate Cached(s: State, key: Key, result: Attempt) {
    result.Ok? ==> key in s.store.entries && s.store.entries[key] == result.receipt
  }

  /** Nothing is cached before the settler has written it, and every receipt in
      circulation for the key is the cached one. */
  ghost predicate OneReceipt(key: Key, s: State) {
    && (forall r :: IsFor(s, r, key) && Unwritten(s.requests[r].phase) ==> key !in s.store.entries)
    && (forall r :: IsFor(s, r, key) && s.requests[r].phase.Releasing? ==> Cached(s, key, s.requests[r].phase.result))
    && (forall r :: r in s.results && IsFor(s, r, key) ==> Cached(s, key, s.results[r]))
  }

  ghost predicate LockInv(key: Key, trust: Trust, s: State) {
    Exclusive(key, s) && (!trust.LocksLast? ==> SettledOnce(key, s)) && (trust.OnlyGatesWrite? ==> OneReceipt(key, s))
  }

  // ----- Preservation, from what a step sees of its own request -----

  /** What the invariants say about one request of the key. */
  ghost predicate OwnPart(trust: Trust, s: State, r: Rid) {
    && s.mode.Locking?
    && (r in s.requests ==>
          var key, phase := s.requests[r].key, s.requests[r].phase;
          && (InCritical(s, phase) ==> key in s.store.locks)
          && (trust.OnlyGatesWrite? && Unwritten(phase) ==> key !in s.store.entries)
          && (trust.OnlyGatesWrite? && phase.Releasing? ==> Cached(s, key, phase.result)))
  }

  /** A lock goes only with its holder, and a request enters the critical part
      only on a free lock. */
  ghost predicate LockMoves(s: State, r: Rid, c: Change) {
    var key := c.request.key;
    && (Holds(s, r) ==> key == s.requests[r].key)
    && (forall k :: k in s.store.locks && k !in c.store.locks ==> Holds(s, r) && k == key && !InCritical(s, c.request.phase))
    && (InCritical(s, c.request.phase) ==> key in c.store.locks && (Holds(s, r) || key !in s.store.locks))
  }

  /** Entries stay; a settlement is logged under the holder's key; a settler
      moves on only once its receipt is cached; and a request turns to settling
      only when it holds the lock and finds nothing cached. */
  ghost predicate SettleMoves(s: State, r: Rid, c: Change) {
    && s.store.entries.Keys <= c.store.entries.Keys
    && (c.history.settles == s.history.settles ||
        (Holds(s, r) && s.requests[r].phase.Settling? && Settled(c.request.phase) && c.request.key == s.requests[r].key &&
         exists txHash :: c.history.settles == s.history.settles + [Settle(r, c.request.key, txHash)]))
    && (r in s.requests && Settled(s.requests[r].phase) ==>
          c.request.key == s.requests[r].key && (Settled(c.request.phase) || c.request.key in c.store.entries))
    && (c.request.phase.Settling? ==>
          Holds(s, r) && !Settled(s.requests[r].phase) && c.request.key == s.requests[r].key && c.request.key !in s.store.entries
          && c.history.settles == s.history.settles)
  }

  /** The writer adds under its own key and overwrites nothing; new results carry
      the cached receipt. */
  ghost predicate ReceiptMoves(s: State, r: Rid, c: Change) {
    && (forall k :: k in s.store.entries ==> k in c.store.entries && c.store.entries[k] == s.store.entries[k])
    && (forall k :: k in c.store.entries && k !in s.store.entries ==> Holds(s, r) && k == c.request.key)
    && (Unwritten(c.request.phase) ==> c.request.key !in c.store.entries)
    && (c.request.phase.Releasing? ==> Cached(Apply(s, r, c), c.request.key, c.request.phase.result))
    && (c.result.Some? ==> Cached(Apply(s, r, c), c.request.key, c.result.value))
    && (c.result.None? && r in s.results ==> r in s.requests && c.request.key == s.requests[r].key)
  }

  ghost predicate Moves(trust: Trust, s: State, r: Rid, c: Change) {
    LockMoves(s, r, c) && (!trust.LocksLast? ==> SettleMoves(s, r, c)) && (trust.OnlyGatesWrite? ==> ReceiptMoves(s, r, c))
  }

  lemma OpeningMoves(trust: Trust, s: State, e: Event)
    requires Enabled(s, e)
    requires e.Arrive? || e.VerifyInvalid? || e.VerifyThrows? || e.VerifyValid?
    requires e.r !in s.results
    ensures Moves(trust, s, e.r, StepOf(s, e))
  {
  }

  lemma ClosingMoves(trust: Trust, s: State, e: Event)
    requires Enabled(s, e)
    requires e.LeaderReturns? || e.WaiterReturns?
    ensures Moves(trust, s, e.r, StepOf(s, e))
  {
  }

  lemma ReadMoves(trust: Trust, s: State, e: Event)
    requires Enabled(s, e)
    requires e.ReadReturns? || e.ReadThrows?
    requires OwnPart(trust, s, e.r) && e.r !in s.results
    ensures Moves(trust, s, e.r, StepOf(s, e))
  {
  }

  lemma RecheckMoves(trust: Trust, s: State, e: Event)
    requires Enabled(s, e)
    requires e.RecheckReturns? || e.RecheckThrows?
    requires OwnPart(trust, s, e.r) && e.r !in s.results
    ensures Moves(trust, s, e.r, StepOf(s, e))
  {
  }

  lemma AcquireMoves(trust: Trust, s: State, e: Event)
    requires Enabled(s, e)
    requires e.AcquireReturns? || e.AcquireThrows?
    requires OwnPart(trust, s, e.r) && e.r !in s.results
    ensures Moves(trust, s, e.r, StepOf(s, e))
  {
  }

  lemma SettleFailureMoves(trust: Trust, s: State, e: Event)
    requires Enabled(s, e)
    requires e.SettleRefuses? || e.SettleThrows?
    requires OwnPart(trust, s, e.r) && e.r !in s.results
    ensures Moves(trust, s, e.r, StepOf(s, e))
  {
  }

  lemma SettleMovesOn(trust: Trust, s: State, e: Event)
    requires Enabled(s, e)
    requires e.SettleReturns? || e.SignReturns?
    requires OwnPart(trust, s, e.r) && e.r !in s.results
    ensures Moves(trust, s, e.r, StepOf(s, e))
  {
  }

  lemma SignFailureMoves(trust: Trust, s: State, e: Event)
    requires Enabled(s, e)
    requires e.SignThrows? && trust.LocksLast?
    requires OwnPart(trust, s, e.r) && e.r !in s.results
    ensures Moves(trust, s, e.r, StepOf(s, e))
  {
  }

  lemma WriteMoves(trust: Trust, s: State, e: Event)
    requires Enabled(s, e)
    requires e.WriteReturns? || (e.WriteThrows? && (e.applied || trust.LocksLast?))
    requires OwnPart(trust, s, e.r) && e.r !in s.results
    ensures Moves(trust, s, e.r, StepOf(s, e))
  {
  }

  lemma ReleaseMoves(trust: Trust, s: State, e: Event)
    requires Enabled(s, e)
    requires e.ReleaseReturns? || e.ReleaseThrows?
    requires OwnPart(trust, s, e.r) && e.r !in s.results
    ensures Moves(trust, s, e.r, StepOf(s, e))
  {
  }

  lemma RunningMoves(trust: Trust, s: State, e: Event)
    requires Enabled(s, e) && !IsStoreEvent(e)
    requires !(e.Arrive? || e.VerifyInvalid? || e.VerifyThrows? || e.VerifyValid? || e.LeaderReturns? || e.WaiterReturns?)
    requires Keeps(s.requests[e.r].key, trust, s, e)
    requires OwnPart(trust, s, e.r) && e.r !in s.results
    ensures Moves(trust, s, e.r, StepOf(s, e))
  {
    if e.ReadReturns? || e.ReadThrows? {
      ReadMoves(trust, s, e);
    } else if e.RecheckReturns? || e.RecheckThrows? {
      RecheckMoves(trust, s, e);
    } else if e.AcquireReturns? || e.AcquireThrows? {
      AcquireMoves(trust, s, e);
    } else if e.SettleRefuses? || e.SettleThrows? {
      SettleFailureMoves(trust, s, e);
    } else if e.SettleReturns? || e.SignReturns? {
      SettleMovesOn(trust, s, e);
    } else if e.SignThrows? {
      SignFailureMoves(trust, s, e);
    } else if e.WriteReturns? || e.WriteThrows? {
      WriteMoves(trust, s, e);
    } else {
      ReleaseMoves(trust, s, e);
    }
  }

  /** A request changes its key only when it enters. */
  lemma SameKey(s: State, e: Event)
    requires Enabled(s, e) && !IsStoreEvent(e)
    ensures e.r in s.requests && !e.VerifyValid? ==> StepOf(s, e).request.key == s.requests[e.r].key
    ensures e.r !in s.requests ==> e.Arrive?
    ensures e.VerifyValid? ==> s.requests[e.r].phase.Verifying?
  {
  }

  lemma EveryStepMoves(trust: Trust, s: State, e: Event)
    requires Enabled(s, e) && !IsStoreEvent(e) && Keeps(StepOf(s, e).request.key, trust, s, e)
    requires PromisesMatch(s) && (IsFor(s, e.r, StepOf(s, e).request.key) ==> OwnPart(trust, s, e.r))
    ensures Moves(trust, s, e.r, StepOf(s, e))
  {
    SameKey(s, e);
    if e.LeaderReturns? || e.WaiterReturns? {
      ClosingMoves(trust, s, e);
    } else {
      NoResultYet(s, e);
      if e.Arrive? || e.VerifyInvalid? || e.VerifyThrows? || e.VerifyValid? {
        OpeningMoves(trust, s, e);
      } else {
        RunningMoves(trust, s, e);
      }
    }
  }

  // ----- A step of a request of the key -----

  lemma ExclusiveKept(key: Key, s: State, r: Rid, c: Change)
    requires Exclusive(key, s) && LockMoves(s, r, c) && c.request.key == key
    ensures Exclusive(key, Apply(s, r, c))
  {
  }

  /** Whoever has settled the key and is not cached holds its lock. */
  lemma FirstToSettle(key: Key, s: State, r: Rid)
    requires Exclusive(key, s) && SettledOnce(key, s)
    requires Holds(s, r) && s.requests[r].key == key && key !in s.store.entries && !Settled(s.requests[r].phase)
    ensures Unsettled(s.history.settles, key)
  {
    forall i | 0 <= i < |s.history.settles| ensures s.history.settles[i].key != key {
      var settle := s.history.settles[i];
      assert settle.key == key ==> Covered(s, settle) && Holds(s, settle.rid);
    }
  }

  lemma SettlesCovered(key: Key, s: State, r: Rid, c: Change)
    requires SettledOnce(key, s) && SettleMoves(s, r, c)
    ensures forall i :: 0 <= i < |c.history.settles| && c.history.settles[i].key == key ==>
              Covered(Apply(s, r, c), c.history.settles[i])
  {
    forall i | 0 <= i < |s.history.settles| ensures c.history.settles[i] == s.history.settles[i] {
    }
  }

  lemma SettlersFirst(key: Key, s: State, r: Rid, c: Change)
    requires Exclusive(key, s) && SettledOnce(key, s) && SettleMoves(s, r, c) && c.request.key == key
    ensures forall q :: IsFor(Apply(s, r, c), q, key) && Apply(s, r, c).requests[q].phase.Settling? ==>
              Unsettled(c.history.settles, key)
  {
    var s' := Apply(s, r, c);
    forall q | IsFor(s', q, key) && s'.requests[q].phase.Settling? ensures Unsettled(c.history.settles, key) {
      if q == r {
        FirstToSettle(key, s, r);
      } else {
        assert Holds(s, q) && Unsettled(s.history.settles, key);
      }
    }
  }

  lemma SettledOnceKept(key: Key, s: State, r: Rid, c: Change)
    requires Exclusive(key, s) && SettledOnce(key, s) && SettleMoves(s, r, c) && c.request.key == key
    ensures SettledOnce(key, Apply(s, r, c))
  {
    SettlesCovered(key, s, r, c);
    SettlersFirst(key, s, r, c);
    forall i | 0 <= i < |s.history.settles| ensures c.history.settles[i] == s.history.settles[i] {
    }
  }

  lemma OneReceiptKept(key: Key, s: State, r: Rid, c: Change)
    requires Exclusive(key, s) && OneReceipt(key, s) && ReceiptMoves(s, r, c) && LockMoves(s, r, c) && c.request.key == key
    ensures OneReceipt(key, Apply(s, r, c))
  {
    var s' := Apply(s, r, c);
    forall q | IsFor(s', q, key) && Unwritten(s'.requests[q].phase) ensures key !in s'.store.entries {
      if q != r {
        assert Holds(s, q);
      }
    }
  }

  lemma MovesKeepLocks(key: Key, trust: Trust, s: State, r: Rid, c: Change)
    requires LockInv(key, trust, s) && Moves(trust, s, r, c) && c.request.key == key
    ensures LockInv(key, trust, Apply(s, r, c))
  {
    ExclusiveKept(key, s, r, c);
    if !trust.LocksLast? {
      SettledOnceKept(key, s, r, c);
    }
    if trust.OnlyGatesWrite? {
      OneReceiptKept(key, s, r, c);
    }
  }

  lemma OwnPartOf(key: Key, trust: Trust, s: State, r: Rid)
    requires LockInv(key, trust, s) && IsFor(s, r, key)
    ensures OwnPart(trust, s, r)
  {
    assert InCritical(s, s.requests[r].phase) ==> Holds(s, r);
  }

  lemma OwnStepMoves(key: Key, trust: Trust, s: State, e: Event)
    requires PromisesMatch(s) && LockInv(key, trust, s) && Enabled(s, e) && !IsStoreEvent(e) && Keeps(key, trust, s, e)
    requires StepOf(s, e).request.key == key
    ensures Moves(trust, s, e.r, StepOf(s, e))
  {
    if IsFor(s, e.r, key) {
      OwnPartOf(key, trust, s, e.r);
    }
    EveryStepMoves(trust, s, e);
  }

  lemma OwnStepKeeps(key: Key, trust: Trust, s: State, e: Event)
    requires PromisesMatch(s) && LockInv(key, trust, s) && Enabled(s, e) && !IsStoreEvent(e) && Keeps(key, trust, s, e)
    requires StepOf(s, e).request.key == key
    ensures LockInv(key, trust, Next(s, e))
  {
    OwnStepMoves(key, trust, s, e);
    MovesKeepLocks(key, trust, s, e.r, StepOf(s, e));
  }

  // ----- A step of a request of another key -----

  /** The lock, the entry and the settlements of the key stay as they are, and the
      request has no part in them. */
  ghost predicate Elsewhere(key: Key, s: State, r: Rid, c: Change) {
    && c.request.key != key
    && (IsFor(s, r, key) ==> s.requests[r].phase.Verifying?)
    && (key in c.store.locks <==> key in s.store.locks)
    && (key in c.store.entries <==> key in s.store.entries)
    && (key in s.store.entries ==> c.store.entries[key] == s.store.entries[key])
    && (c.history.settles == s.history.settles ||
        exists settle: Settle :: settle.key != key && c.history.settles == s.history.settles + [settle])
  }

  lemma LookingElsewhere(key: Key, s: State, e: Event)
    requires Enabled(s, e)
    requires e.ReadReturns? || e.ReadThrows? || e.AcquireReturns? || e.AcquireThrows? || e.RecheckReturns? || e.RecheckThrows?
    requires StepOf(s, e).request.key != key
    ensures Elsewhere(key, s, e.r, StepOf(s, e))
  {
  }

  lemma SettlingElsewhere(key: Key, s: State, e: Event)
    requires Enabled(s, e)
    requires e.SettleReturns? || e.SettleRefuses? || e.SettleThrows? || e.SignReturns? || e.SignThrows?
    requires StepOf(s, e).request.key != key
    ensures Elsewhere(key, s, e.r, StepOf(s, e))
  {
    if e.SettleReturns? {
      var settle := Settle(e.r, s.requests[e.r].key, e.txHash);
      assert StepOf(s, e).history.settles == s.history.settles + [settle];
    }
  }

  lemma ConcludingElsewhere(key: Key, s: State, e: Event)
    requires Enabled(s, e)
    requires e.WriteReturns? || e.WriteThrows? || e.ReleaseReturns? || e.ReleaseThrows?
    requires StepOf(s, e).request.key != key
    ensures Elsewhere(key, s, e.r, StepOf(s, e))
  {
  }

  lemma OpeningElsewhere(key: Key, s: State, e: Event)
    requires Enabled(s, e)
    requires e.Arrive? || e.VerifyInvalid? || e.VerifyThrows? || e.VerifyValid? || e.LeaderReturns? || e.WaiterReturns?
    requires StepOf(s, e).request.key != key
    ensures Elsewhere(key, s, e.r, StepOf(s, e))
  {
  }

  lemma IsElsewhere(key: Key, s: State, e: Event)
    requires Enabled(s, e) && !IsStoreEvent(e) && StepOf(s, e).request.key != key
    ensures Elsewhere(key, s, e.r, StepOf(s, e))
  {
    if e.ReadReturns? || e.ReadThrows? || e.AcquireReturns? || e.AcquireThrows? || e.RecheckReturns? || e.RecheckThrows? {
      LookingElsewhere(key, s, e);
    } else if e.SettleReturns? || e.SettleRefuses? || e.SettleThrows? || e.SignReturns? || e.SignThrows? {
      SettlingElsewhere(key, s, e);
    } else if e.WriteReturns? || e.WriteThrows? || e.ReleaseReturns? || e.ReleaseThrows? {
      ConcludingElsewhere(key, s, e);
    } else {
      OpeningElsewhere(key, s, e);
    }
  }

  lemma ElsewhereExclusive(key: Key, s: State, r: Rid, c: Change)
    requires Exclusive(key, s) && Elsewhere(key, s, r, c)
    ensures Exclusive(key, Apply(s, r, c))
  {
  }

  lemma ElsewhereSettled(key: Key, s: State, r: Rid, c: Change)
    requires SettledOnce(key, s) && Elsewhere(key, s, r, c)
    ensures SettledOnce(key, Apply(s, r, c))
  {
    forall i | 0 <= i < |s.history.settles| ensures c.history.settles[i] == s.history.settles[i] {
    }
    forall i | 0 <= i < |c.history.settles| && c.history.settles[i].key == key ensures i < |s.history.settles| {
    }
  }

  lemma ElsewhereReceipt(key: Key, s: State, r: Rid, c: Change)
    requires OneReceipt(key, s) && Elsewhere(key, s, r, c)
    ensures OneReceipt(key, Apply(s, r, c))
  {
  }

  lemma OtherStepKeeps(key: Key, trust: Trust, s: State, e: Event)
    requires LockInv(key, trust, s) && Enabled(s, e) && !IsStoreEvent(e) && StepOf(s, e).request.key != key
    ensures LockInv(key, trust, Next(s, e))
  {
    IsElsewhere(key, s, e);
    ElsewhereExclusive(key, s, e.r, StepOf(s, e));
    if !trust.LocksLast? {
      ElsewhereSettled(key, s, e.r, StepOf(s, e));
    }
    if trust.OnlyGatesWrite? {
      ElsewhereReceipt(key, s, e.r, StepOf(s, e));
    }
  }

  // ----- Runs -----

  lemma StoreEventKeepsLocks(key: Key, trust: Trust, s: State, e: Event)
    requires LockInv(key, trust, s) && IsStoreEvent(e) && Keeps(key, trust, s, e)
    ensures LockInv(key, trust, s.(store := StoreAfter(s.store, e)))
  {
    var s' := s.(store := StoreAfter(s.store, e));
    assert forall r :: Holds(s', r) <==> Holds(s, r);
  }

  lemma LocksKept(key: Key, trust: Trust, s: State, e: Event)
    requires FlightInv(s) && LockInv(key, trust, s) && Enabled(s, e) && Keeps(key, trust, s, e)
    ensures LockInv(key, trust, Next(s, e))
  {
    if IsStoreEvent(e) {
      StoreEventKeepsLocks(key, trust, s, e);
    } else if StepOf(s, e).request.key == key {
      OwnStepKeeps(key, trust, s, e);
    } else {
      OtherStepKeeps(key, trust, s, e);
    }
  }

  lemma {:induction false} LocksAlways(key: Key, trust: Trust, s: State, events: seq<Event>)
    requires FlightInv(s) && LockInv(key, trust, s) && IsRun(s, events) && KeepsRun(key, trust, s, events)
    ensures FlightInv(After(s, events)) && LockInv(key, trust, After(s, events))
    decreases |events|
  {
    if events != [] {
      FlightKept(s, events[0]);
      LocksKept(key, trust, s, events[0]);
      LocksAlways(key, trust, Next(s, events[0]), events[1..]);
    }
  }

  // ----- Main results -----

  /** The states a locking deployment reaches that can be relied on for the key. */
  ghost predicate ReachableUnder(key: Key, trust: Trust, s: State) {
    exists events :: IsRun(Start(Locking), events) && KeepsRun(key, trust, Start(Locking), events) && s == After(Start(Locking), events)
  }

  lemma ReachableInvariants(key: Key, trust: Trust, s: State)
    requires ReachableUnder(key, trust, s)
    ensures FlightInv(s) && LockInv(key, trust, s) && Reachable(s)
  {
    var events :| IsRun(Start(Locking), events) && KeepsRun(key, trust, Start(Locking), events) && s == After(Start(Locking), events);
    LocksAlways(key, trust, Start(Locking), events);
  }

  /** While the lock of a key does not expire under its holder, a request is alone
      on the key between acquire and release, whatever else fails, so deleting the
      lock without an owner check deletes the request's own lock. */
  lemma MutualExclusion(key: Key, s: State, q: Rid, r: Rid)
    requires ReachableUnder(key, LocksLast, s) && Holds(s, q) && Holds(s, r)
    requires s.requests[q].key == key && s.requests[r].key == key
    ensures q == r && key in s.store.locks
  {
    ReachableInvariants(key, LocksLast, s);
  }

  /** Across any number of gates, at most one settle call for the key reports
      success, whatever the interleaving, whoever else writes the store, and
      whatever happens to other payments. */
  lemma AtMostOneSettlement(key: Key, s: State, i: nat, j: nat)
    requires ReachableUnder(key, StoreLasts, s) && i < |s.history.settles| && j < |s.history.settles|
    requires s.history.settles[i].key == key && s.history.settles[j].key == key
    ensures i == j
  {
    ReachableInvariants(key, StoreLasts, s);
  }

  /** The receipt of a paid request is the one cached under its key. */
  lemma PaidIsCached(key: Key, s: State, r: Rid)
    requires ReachableUnder(key, OnlyGatesWrite, s) && IsFor(s, r, key)
    requires s.requests[r].phase.Done? && s.requests[r].phase.outcome.Paid?
    ensures key in s.store.entries && s.store.entries[key] == s.requests[r].phase.outcome.receipt
  {
    ReachableInvariants(key, OnlyGatesWrite, s);
    assert OutcomeOk(s, r);
    var l := s.requests[r].phase.attempt.value;
    assert IsFor(s, l, key) && Cached(s, key, s.results[l]);
  }

  /** One payment unlocks one purchase: all requests paid under one key carry
      the same receipt, and were all asking for the same offer. */
  lemma OnePaymentOnePurchase(key: Key, s: State, q: Rid, r: Rid)
    requires ReachableUnder(key, OnlyGatesWrite, s) && IsFor(s, q, key) && IsFor(s, r, key)
    requires s.requests[q].phase.Done? && s.requests[q].phase.outcome.Paid?
    requires s.requests[r].phase.Done? && s.requests[r].phase.outcome.Paid?
    ensures s.requests[q].phase.outcome.receipt == s.requests[r].phase.outcome.receipt
    ensures s.requests[q].offer == s.requests[r].offer
  {
    ReachableInvariants(key, OnlyGatesWrite, s);
    PaidIsCached(key, s, q);
    PaidIsCached(key, s, r);
    PaidReceiptAgrees(s, q);
    PaidReceiptAgrees(s, r);
  }
}
