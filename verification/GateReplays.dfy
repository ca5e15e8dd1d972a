/** What the cache and the in-flight map are for inside one gate: a repeated
    payment is answered from the cache and is not settled again, with or without
    a lock. */
module GateReplays {
  import opened JsText
  import opened Receipts
  import opened Gate
  import opened GateInFlight
  import opened GateReceipts
  import opened GateLocks
  import opened GateReports

  // ----- One gate, any cache -----

  /** The payments of the key come to this gate only, its entry does not expire,
      its writes take effect and its receipts can be signed. */
  ghost predicate KeepsGate(key: Key, gate: GateId, s: State, e: Event)
    requires Enabled(s, e)
  {
    match e
    case VerifyValid(r, _, _) => IsFor(Next(s, e), r, key) ==> s.requests[r].gate == gate
    case EntryExpires(k) => k != key
    case SignThrows(r) => !IsFor(s, r, key)
    case WriteThrows(r, applied, _) => IsFor(s, r, key) ==> applied
    case _ => true
  }

  ghost predicate KeepsGateRun(key: Key, gate: GateId, s: State, events: seq<Event>)
    requires IsRun(s, events)
    decreases |events|
  {
    events == [] || (KeepsGate(key, gate, s, events[0]) && KeepsGateRun(key, gate, Next(s, events[0]), events[1..]))
  }

  /** The running attempts of the key are in the gate. */
  ghost predicate InGate(key: Key, gate: GateId, s: State) {
    forall r :: IsFor(s, r, key) && Leading(s.requests[r].phase) ==> s.requests[r].gate == gate
  }

  ghost predicate GateInv(key: Key, gate: GateId, s: State) {
    !s.mode.NoCache? && InGate(key, gate, s) && SettledOnce(key, s)
  }

  lemma Alone(key: Key, gate: GateId, s: State, q: Rid, r: Rid)
    requires SlotsMatch(s) && InGate(key, gate, s)
    requires IsFor(s, q, key) && Leading(s.requests[q].phase) && IsFor(s, r, key) && Leading(s.requests[r].phase)
    ensures q == r
  {
    assert s.inFlight[Slot(s.requests[q])] == q && s.inFlight[Slot(s.requests[r])] == r;
  }

  /** Entries stay, a settler moves on only once its receipt is cached, and a
      request turns to settling only when it finds nothing cached. */
  ghost predicate CacheMoves(s: State, r: Rid, c: Change) {
    var key := c.request.key;
    && s.store.entries.Keys <= c.store.entries.Keys
    && (c.history.settles == s.history.settles ||
        (IsFor(s, r, key) && s.requests[r].phase.Settling? && Settled(c.request.phase) &&
         exists txHash :: c.history.settles == s.history.settles + [Settle(r, key, txHash)]))
    && (r in s.requests && Settled(s.requests[r].phase) ==>
          s.requests[r].key == key && (Settled(c.request.phase) || key in c.store.entries))
    && (c.request.phase.Settling? ==>
          IsFor(s, r, key) && Leading(s.requests[r].phase) && !Settled(s.requests[r].phase) && key !in s.store.entries
          && c.history.settles == s.history.settles)
  }

  lemma OpeningCacheMoves(s: State, e: Event)
    requires Enabled(s, e)
    requires e.Arrive? || e.VerifyInvalid? || e.VerifyThrows? || e.VerifyValid? || e.LeaderReturns? || e.WaiterReturns?
    ensures CacheMoves(s, e.r, StepOf(s, e))
  {
  }

  lemma LookingCacheMoves(s: State, e: Event)
    requires Enabled(s, e) && !s.mode.NoCache?
    requires e.ReadReturns? || e.ReadThrows? || e.AcquireReturns? || e.AcquireThrows? || e.RecheckReturns? || e.RecheckThrows?
    ensures CacheMoves(s, e.r, StepOf(s, e))
  {
  }

  lemma SettlingCacheMoves(s: State, e: Event)
    requires Enabled(s, e) && !s.mode.NoCache?
    requires e.SettleReturns? || e.SettleRefuses? || e.SettleThrows? || e.SignReturns?
    ensures CacheMoves(s, e.r, StepOf(s, e))
  {
    if e.SettleReturns? {
      assert StepOf(s, e).history.settles == s.history.settles + [Settle(e.r, s.requests[e.r].key, e.txHash)];
    }
  }

  lemma WriteCacheMoves(s: State, e: Event)
    requires Enabled(s, e) && !s.mode.NoCache?
    requires e.WriteReturns? || (e.WriteThrows? && e.applied)
    ensures CacheMoves(s, e.r, StepOf(s, e))
  {
  }

  lemma ReleaseCacheMoves(s: State, e: Event)
    requires Enabled(s, e) && !s.mode.NoCache?
    requires e.ReleaseReturns? || e.ReleaseThrows?
    ensures CacheMoves(s, e.r, StepOf(s, e))
  {
  }

  lemma StepCacheMoves(key: Key, gate: GateId, s: State, e: Event)
    requires Enabled(s, e) && !s.mode.NoCache? && !IsStoreEvent(e) && KeepsGate(key, gate, s, e)
    requires StepOf(s, e).request.key == key
    ensures CacheMoves(s, e.r, StepOf(s, e))
  {
    SameKey(s, e);
    if e.Arrive? || e.VerifyInvalid? || e.VerifyThrows? || e.VerifyValid? || e.LeaderReturns? || e.WaiterReturns? {
      OpeningCacheMoves(s, e);
    } else if e.SettleReturns? || e.SettleRefuses? || e.SettleThrows? || e.SignReturns? {
      SettlingCacheMoves(s, e);
    } else if e.WriteReturns? || e.WriteThrows? {
      WriteCacheMoves(s, e);
    } else if e.ReleaseReturns? || e.ReleaseThrows? {
      ReleaseCacheMoves(s, e);
    } else {
      LookingCacheMoves(s, e);
    }
  }

  /** A request that is about to settle an uncached key is the first. */
  lemma FirstInGate(key: Key, gate: GateId, s: State, r: Rid)
    requires SlotsMatch(s) && InGate(key, gate, s) && SettledOnce(key, s)
    requires IsFor(s, r, key) && Leading(s.requests[r].phase) && !Settled(s.requests[r].phase) && key !in s.store.entries
    ensures Unsettled(s.history.settles, key)
  {
    forall i | 0 <= i < |s.history.settles| ensures s.history.settles[i].key != key {
      var settle := s.history.settles[i];
      if settle.key == key {
        assert Covered(s, settle);
        Alone(key, gate, s, settle.rid, r);
      }
    }
  }

  lemma CoveredInGate(key: Key, s: State, r: Rid, c: Change)
    requires SettledOnce(key, s) && CacheMoves(s, r, c) && c.request.key == key
    ensures forall i :: 0 <= i < |c.history.settles| && c.history.settles[i].key == key ==>
              Covered(Apply(s, r, c), c.history.settles[i])
  {
    forall i | 0 <= i < |s.history.settles| ensures c.history.settles[i] == s.history.settles[i] {
    }
  }

  lemma SettlersInGate(key: Key, gate: GateId, s: State, r: Rid, c: Change)
    requires SlotsMatch(s) && InGate(key, gate, s) && SettledOnce(key, s) && CacheMoves(s, r, c) && c.request.key == key
    ensures forall q :: IsFor(Apply(s, r, c), q, key) && Apply(s, r, c).requests[q].phase.Settling? ==>
              Unsettled(c.history.settles, key)
  {
    var s' := Apply(s, r, c);
    forall q | IsFor(s', q, key) && s'.requests[q].phase.Settling? ensures Unsettled(c.history.settles, key) {
      if q == r {
        FirstInGate(key, gate, s, r);
      } else if c.history.settles != s.history.settles {
        Alone(key, gate, s, q, r);
      }
    }
  }

  lemma GateStepSettles(key: Key, gate: GateId, s: State, r: Rid, c: Change)
    requires SlotsMatch(s) && InGate(key, gate, s) && SettledOnce(key, s) && CacheMoves(s, r, c) && c.request.key == key
    ensures SettledOnce(key, Apply(s, r, c))
  {
    CoveredInGate(key, s, r, c);
    SettlersInGate(key, gate, s, r, c);
    forall i | 0 <= i < |s.history.settles| ensures c.history.settles[i] == s.history.settles[i] {
    }
  }

  lemma OneStepInGate(key: Key, gate: GateId, s: State, e: Event)
    requires InGate(key, gate, s) && Enabled(s, e) && KeepsGate(key, gate, s, e)
    ensures InGate(key, gate, Next(s, e))
  {
    if !IsStoreEvent(e) {
      SameKey(s, e);
      if Leading(StepOf(s, e).request.phase) {
        LeadingStep(s, e);
      }
    }
  }

  /** A step that leads to a running attempt goes on with one or enters. */
  lemma LeadingStep(s: State, e: Event)
    requires Enabled(s, e) && !IsStoreEvent(e) && Leading(StepOf(s, e).request.phase)
    ensures e.r in s.requests && StepOf(s, e).request.gate == s.requests[e.r].gate
    ensures e.VerifyValid? || Leading(s.requests[e.r].phase)
  {
  }

  lemma GateKept(key: Key, gate: GateId, s: State, e: Event)
    requires FlightInv(s) && GateInv(key, gate, s) && Enabled(s, e) && KeepsGate(key, gate, s, e)
    ensures GateInv(key, gate, Next(s, e))
  {
    OneStepInGate(key, gate, s, e);
    if !IsStoreEvent(e) {
      if StepOf(s, e).request.key == key {
        StepCacheMoves(key, gate, s, e);
        GateStepSettles(key, gate, s, e.r, StepOf(s, e));
      } else {
        IsElsewhere(key, s, e);
        ElsewhereSettled(key, s, e.r, StepOf(s, e));
      }
    }
  }

  lemma {:induction false} GateAlways(key: Key, gate: GateId, s: State, events: seq<Event>)
    requires FlightInv(s) && GateInv(key, gate, s) && IsRun(s, events) && KeepsGateRun(key, gate, s, events)
    ensures GateInv(key, gate, After(s, events))
    decreases |events|
  {
    if events != [] {
      FlightKept(s, events[0]);
      GateKept(key, gate, s, events[0]);
      GateAlways(key, gate, Next(s, events[0]), events[1..]);
    }
  }

  /** In one gate a payment settles at most once, over a cache with a lock or
      without one, whoever else writes its entry, however its lock expires and
      whatever happens to other payments. */
  lemma OneGateSettlesOnce(key: Key, gate: GateId, mode: CacheMode, events: seq<Event>, i: nat, j: nat)
    requires !mode.NoCache? && IsRun(Start(mode), events) && KeepsGateRun(key, gate, Start(mode), events)
    requires var settles := After(Start(mode), events).history.settles;
             && i < |settles| && j < |settles| && settles[i].key == key && settles[j].key == key
    ensures i == j
  {
    GateAlways(key, gate, Start(mode), events);
  }

  // ----- Results that are known before the settlement -----

  /** The promise of the request has settled with this result, without a charge, and
      stays as it is. */
  ghost predicate Answered(s: State, r: Rid, result: Attempt) {
    && r in s.requests && r in s.results && s.results[r] == result && NotCharged(s.history, r)
    && (s.requests[r].phase.Resolved? || s.requests[r].phase == Done(Promised(result, s.requests[r].offer), Some(r)))
  }

  /** What a request for this offer gets from the result of its own attempt. */
  function Promised(result: Attempt, offer: Offer): Outcome {
    match result
    case Ok(receipt, replayed, cacheError) =>
      if Agrees(receipt, offer) then Paid(receipt, replayed, cacheError) else Rejected(409, DifferentOffer)
    case Refused(status, reason) => Rejected(status, reason)
    case Threw(error) => Failed(error)
  }

  lemma AnsweredEnds(s: State, r: Rid, result: Attempt)
    requires Answered(s, r, result) && s.requests[r].phase.Resolved?
    ensures Answered(Next(s, LeaderReturns(r)), r, result)
  {
    if result.Ok? {
      BindingsCompareFields(result.receipt, s.requests[r].offer);
    }
  }

  lemma AnsweredStays(s: State, e: Event, r: Rid, result: Attempt)
    requires Answered(s, r, result) && Enabled(s, e)
    ensures Answered(Next(s, e), r, result)
    ensures r in s.requests && Next(s, e).requests[r].offer == s.requests[r].offer
  {
    if !IsStoreEvent(e) {
      if e.r == r {
        OnlyLeaves(s, e, r);
        AnsweredEnds(s, r, result);
      } else {
        StepGrows(s, e);
        GrowsElsewhere(s.history, StepOf(s, e).history, e.r, r);
      }
    }
  }

  lemma OnlyLeaves(s: State, e: Event, r: Rid)
    requires r in s.requests && (s.requests[r].phase.Resolved? || s.requests[r].phase.Done?)
    requires Enabled(s, e) && !IsStoreEvent(e) && e.r == r
    ensures e == LeaderReturns(r) && s.requests[r].phase.Resolved?
  {
  }

  lemma {:induction false} AnsweredAlways(s: State, events: seq<Event>, r: Rid, result: Attempt)
    requires Answered(s, r, result) && IsRun(s, events)
    ensures Answered(After(s, events), r, result)
    ensures After(s, events).requests[r].offer == s.requests[r].offer
    decreases |events|
  {
    if events != [] {
      AnsweredStays(s, events[0], r, result);
      AnsweredAlways(Next(s, events[0]), events[1..], r, result);
    }
  }

  lemma ReadFinds(s: State, r: Rid)
    requires Reachable(s) && Enabled(s, ReadReturns(r)) && !s.mode.NoCache? && s.requests[r].key in s.store.entries
    ensures Answered(Next(s, ReadReturns(r)), r, Ok(s.store.entries[s.requests[r].key], true, None))
    ensures Next(s, ReadReturns(r)).requests[r].offer == s.requests[r].offer
  {
    ReachableReceipts(s);
  }

  /** In every cached mode, a request whose first lookup answers while its payment
      is cached never settles, takes the cached receipt for its own offer and is
      turned away for any other. */
  lemma CachedNeverSettles(s: State, r: Rid, events: seq<Event>)
    requires Reachable(s) && Enabled(s, ReadReturns(r)) && !s.mode.NoCache? && s.requests[r].key in s.store.entries
    requires IsRun(Next(s, ReadReturns(r)), events)
    ensures var t := After(Next(s, ReadReturns(r)), events);
            var receipt, request := s.store.entries[s.requests[r].key], s.requests[r];
            && NotCharged(t.history, r) && r in t.requests
            && (t.requests[r].phase.Done? ==>
                  t.requests[r].phase.outcome ==
                    if Agrees(receipt, request.offer) then Paid(receipt, true, None) else Rejected(409, DifferentOffer))
  {
    ReadFinds(s, r);
    AnsweredAlways(Next(s, ReadReturns(r)), events, r, Ok(s.store.entries[s.requests[r].key], true, None));
  }

  lemma AcquireLoses(s: State, r: Rid)
    requires Reachable(s) && Enabled(s, AcquireReturns(r)) && s.requests[r].key in s.store.locks
    ensures Answered(Next(s, AcquireReturns(r)), r, Refused(409, InProgress))
  {
    ReachableReceipts(s);
  }

  /** A request that finds the lock taken never settles and is told that a settlement
      is in progress, whatever the cache holds by then. */
  lemma LockedOutIsTurnedAway(s: State, r: Rid, events: seq<Event>)
    requires Reachable(s) && Enabled(s, AcquireReturns(r)) && s.requests[r].key in s.store.locks
    requires IsRun(Next(s, AcquireReturns(r)), events)
    ensures var t := After(Next(s, AcquireReturns(r)), events);
            && NotCharged(t.history, r) && r in t.requests
            && (t.requests[r].phase.Done? ==> t.requests[r].phase.outcome == Rejected(409, InProgress))
  {
    AcquireLoses(s, r);
    AnsweredAlways(Next(s, AcquireReturns(r)), events, r, Refused(409, InProgress));
  }

  // ----- The second lookup, lock held -----

  /** The request that found this receipt under the lock, before and after its
      release. */
  ghost predicate Found(s: State, past: seq<Event>, r: Rid, receipt: Receipt) {
    && r in s.requests && NotCharged(s.history, r)
    && match s.requests[r].phase
       case Releasing(result) => result == Ok(receipt, true, None) && r !in s.results && !ReleaseFails(past, r)
       case Resolved => r in s.results && s.results[r] == FoundResult(past, r, receipt)
       case Done(outcome, attempt) => outcome == FoundOutcome(past, r, receipt, s.requests[r].offer) && attempt == Some(r)
       case _ => false
  }

  ghost function FoundResult(past: seq<Event>, r: Rid, receipt: Receipt): Attempt {
    if ReleaseFails(past, r) then Threw(ReleaseError) else Ok(receipt, true, None)
  }

  ghost function FoundOutcome(past: seq<Event>, r: Rid, receipt: Receipt, offer: Offer): Outcome {
    if ReleaseFails(past, r) then Failed(ReleaseError) else Promised(Ok(receipt, true, None), offer)
  }

  lemma FoundStep(s: State, past: seq<Event>, e: Event, r: Rid, receipt: Receipt)
    requires Found(s, past, r, receipt) && Enabled(s, e) && !IsStoreEvent(e) && e.r == r
    ensures Found(Next(s, e), past + [e], r, receipt) && Next(s, e).requests[r].offer == s.requests[r].offer
  {
    BindingsCompareFields(receipt, s.requests[r].offer);
    assert e in past + [e];
    assert ReleaseFails(past + [e], r) <==> ReleaseFails(past, r) || e.ReleaseThrows?;
  }

  lemma FoundStays(s: State, past: seq<Event>, e: Event, r: Rid, receipt: Receipt)
    requires Found(s, past, r, receipt) && Enabled(s, e)
    ensures Found(Next(s, e), past + [e], r, receipt) && Next(s, e).requests[r].offer == s.requests[r].offer
  {
    if !IsStoreEvent(e) && e.r == r {
      FoundStep(s, past, e, r, receipt);
    } else {
      AsideKeeps(past, e, r);
      if !IsStoreEvent(e) {
        StepGrows(s, e);
        GrowsElsewhere(s.history, StepOf(s, e).history, e.r, r);
      }
    }
  }

  lemma {:induction false} FoundAlways(s: State, past: seq<Event>, events: seq<Event>, r: Rid, receipt: Receipt)
    requires Found(s, past, r, receipt) && IsRun(s, events)
    ensures Found(After(s, events), past + events, r, receipt)
    ensures After(s, events).requests[r].offer == s.requests[r].offer
    decreases |events|
  {
    if events == [] {
      assert past + events == past;
    } else {
      FoundStays(s, past, events[0], r, receipt);
      FoundAlways(Next(s, events[0]), past + [events[0]], events[1..], r, receipt);
      assert past + [events[0]] + events[1..] == past + events;
    }
  }

  lemma RecheckFinds(s: State, r: Rid)
    requires Reachable(s) && Enabled(s, RecheckReturns(r)) && s.mode.Locking? && s.requests[r].key in s.store.entries
    ensures Found(Next(s, RecheckReturns(r)), [], r, s.store.entries[s.requests[r].key])
  {
    ReachableReceipts(s);
  }

  /** The lookup under the lock, where the payment has been settled elsewhere in
      the meantime: the request never settles, and it gets the cached receipt, or
      the mismatch, or the error of its release when that is what fails. */
  lemma SettledElsewhereNeverSettles(s: State, r: Rid, events: seq<Event>)
    requires Reachable(s) && Enabled(s, RecheckReturns(r)) && s.mode.Locking? && s.requests[r].key in s.store.entries
    requires IsRun(Next(s, RecheckReturns(r)), events)
    ensures var t := After(Next(s, RecheckReturns(r)), events);
            var receipt, request := s.store.entries[s.requests[r].key], s.requests[r];
            && NotCharged(t.history, r) && r in t.requests
            && (t.requests[r].phase.Done? ==>
                  t.requests[r].phase.outcome ==
                    if ReleaseFails(events, r) then Failed(ReleaseError)
                    else if Agrees(receipt, request.offer) then Paid(receipt, true, None)
                    else Rejected(409, DifferentOffer))
  {
    RecheckFinds(s, r);
    FoundAlways(Next(s, RecheckReturns(r)), [], events, r, s.store.entries[s.requests[r].key]);
    assert [] + events == events;
  }

  // ----- Without a cache -----

  predicate Uncached(phase: Phase) {
    !phase.Acquiring? && !phase.Rechecking? && !phase.Writing? && !IsReleasing(phase)
  }

  ghost predicate UncachedInv(s: State) {
    && s.mode.NoCache?
    && (forall r :: r in s.requests ==> Uncached(s.requests[r].phase))
    && (forall r :: r in s.results && s.results[r].Ok? ==> !s.results[r].replayed)
  }

  lemma UncachedStep(s: State, e: Event)
    requires s.mode.NoCache? && Enabled(s, e) && !IsStoreEvent(e)
    requires e.r in s.requests ==> Uncached(s.requests[e.r].phase)
    ensures var c := StepOf(s, e);
            && Uncached(c.request.phase) && c.store == s.store
            && (c.result.Some? && c.result.value.Ok? ==> !c.result.value.replayed)
  {
  }

  lemma {:induction false} UncachedAlways(s: State, events: seq<Event>)
    requires UncachedInv(s) && IsRun(s, events)
    ensures UncachedInv(After(s, events))
    decreases |events|
  {
    if events != [] {
      if !IsStoreEvent(events[0]) {
        UncachedStep(s, events[0]);
      }
      UncachedAlways(Next(s, events[0]), events[1..]);
    }
  }

  /** A gate without a cache leaves the store alone. */
  lemma WithoutCacheNoStore(events: seq<Event>, e: Event)
    requires IsRun(Start(NoCache), events) && Enabled(After(Start(NoCache), events), e) && !IsStoreEvent(e)
    ensures Next(After(Start(NoCache), events), e).store == After(Start(NoCache), events).store
  {
    UncachedAlways(Start(NoCache), events);
    UncachedStep(After(Start(NoCache), events), e);
  }

  /** It accepts only payments that were settled for the request or for the one it
      waited for. */
  lemma WithoutCacheSettles(events: seq<Event>, r: Rid)
    requires IsRun(Start(NoCache), events) && r in After(Start(NoCache), events).requests
    requires var phase := After(Start(NoCache), events).requests[r].phase; phase.Done? && phase.outcome.Paid?
    ensures var s := After(Start(NoCache), events);
            s.requests[r].phase.attempt.Some? && !NotCharged(s.history, s.requests[r].phase.attempt.value)
  {
    var s := After(Start(NoCache), events);
    UncachedAlways(Start(NoCache), events);
    FlightAlways(Start(NoCache), events);
    ReceiptsAlways(Start(NoCache), events);
    assert OutcomeOk(s, r);
    ChargedOnce(s, s.requests[r].phase.attempt.value);
  }

  lemma ChargedOnce(s: State, l: Rid)
    requires ReceiptInv(s) && l in s.results && s.results[l].Ok? && !s.results[l].replayed
    ensures !NotCharged(s.history, l)
  {
    assert Charged(s.history, l, s.results[l].receipt.txHash);
  }
}
