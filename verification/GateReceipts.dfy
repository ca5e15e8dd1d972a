/** What a payment buys, in every reachable state and without any hypothesis on
    the store: the receipts that are handed out, and who ends without one. */
module GateReceipts {
  import opened JsText
  import opened Receipts
  import opened Gate
  import opened GateInFlight

  /** Request r has a successful settle call with this transaction. */
  ghost predicate Charged(h: History, r: Rid, txHash: Text) {
    exists i :: 0 <= i < |h.settles| && h.settles[i].rid == r && h.settles[i].txHash == txHash
  }

  ghost predicate NotCharged(h: History, r: Rid) {
    forall i :: 0 <= i < |h.settles| ==> h.settles[i].rid != r
  }

  /** A result of request r: a fresh receipt is for its own settlement and its
      own offer; an error after a settlement is a signing or callback failure. */
  ghost predicate ResultOk(h: History, r: Rid, offer: Offer, result: Attempt) {
    match result
    case Ok(receipt, replayed, cacheError) =>
      if replayed then NotCharged(h, r) && cacheError.None?
      else Charged(h, r, receipt.txHash) && Agrees(receipt, offer)
    case Refused(status, reason) => NotCharged(h, r) && !reason.DifferentOffer?
    case Threw(_) => NotCharged(h, r) || r in h.mishaps
  }

  ghost predicate PhaseOk(h: History, r: Rid, offer: Offer, phase: Phase) {
    match phase
    case Signing(txHash) => Charged(h, r, txHash)
    case Writing(signed) => Charged(h, r, signed.txHash) && Agrees(signed, offer)
    case Releasing(result) => ResultOk(h, r, offer, result)
    case ReleasingAfterThrow(_) => NotCharged(h, r) || r in h.mishaps
    case Resolved => true
    case Done(_, attempt) => attempt == Some(r) || NotCharged(h, r)
    case _ => NotCharged(h, r)
  }

  ghost predicate ReceiptInv(s: State) {
    && (forall r :: r in s.requests ==> PhaseOk(s.history, r, s.requests[r].offer, s.requests[r].phase))
    && (forall r :: r in s.results ==> r in s.requests && ResultOk(s.history, r, s.requests[r].offer, s.results[r]))
    && (forall r :: r !in s.requests ==> NotCharged(s.history, r))
    && (forall i, j :: 0 <= i < j < |s.history.settles| ==> s.history.settles[i].rid != s.history.settles[j].rid)
  }

  // ----- Preservation -----

  /** The history grows by at most one settlement of r and a mark on r. */
  ghost predicate Grows(h: History, h': History, r: Rid) {
    && |h.settles| <= |h'.settles| <= |h.settles| + 1
    && (forall i :: 0 <= i < |h.settles| ==> h'.settles[i] == h.settles[i])
    && (|h'.settles| > |h.settles| ==> h'.settles[|h.settles|].rid == r)
    && h.mishaps <= h'.mishaps <= h.mishaps + {r}
  }

  lemma GrowsElsewhere(h: History, h': History, r: Rid, q: Rid)
    requires Grows(h, h', r) && q != r
    ensures NotCharged(h', q) <==> NotCharged(h, q)
    ensures forall t :: Charged(h', q, t) <==> Charged(h, q, t)
    ensures q in h'.mishaps <==> q in h.mishaps
  {
    forall t ensures Charged(h', q, t) <==> Charged(h, q, t) {
      if Charged(h, q, t) {
        var i :| 0 <= i < |h.settles| && h.settles[i].rid == q && h.settles[i].txHash == t;
        assert h'.settles[i] == h.settles[i];
      }
    }
    if NotCharged(h', q) {
      forall i | 0 <= i < |h.settles| ensures h.settles[i].rid != q {
        assert h'.settles[i] == h.settles[i];
      }
    }
  }

  lemma StepGrows(s: State, e: Event)
    requires Enabled(s, e) && !IsStoreEvent(e)
    ensures Grows(s.history, StepOf(s, e).history, e.r)
  {
    if e.SettleReturns? {
      var settle := Settle(e.r, s.requests[e.r].key, e.txHash);
      assert StepOf(s, e).history.settles == s.history.settles + [settle];
    }
  }

  /** The acting request's new phase and result are in order. */
  ghost predicate StepOk(s: State, r: Rid, c: Change) {
    && PhaseOk(c.history, r, c.request.offer, c.request.phase)
    && (c.result.Some? ==> ResultOk(c.history, r, c.request.offer, c.result.value))
    && (c.result.None? && r in s.results ==> ResultOk(c.history, r, c.request.offer, s.results[r]))
    && (|c.history.settles| > |s.history.settles| ==> NotCharged(s.history, r))
  }

  /** What the invariants say about a request whose attempt is running. */
  ghost predicate RunningOk(s: State, r: Rid) {
    && r in s.requests && r !in s.results
    && PhaseOk(s.history, r, s.requests[r].offer, s.requests[r].phase)
  }

  lemma LookupOk(s: State, e: Event)
    requires Enabled(s, e)
    requires e.ReadReturns? || e.ReadThrows? || e.RecheckReturns? || e.RecheckThrows?
    requires RunningOk(s, e.r)
    ensures StepOk(s, e.r, StepOf(s, e))
  {
  }

  lemma AcquireOk(s: State, e: Event)
    requires Enabled(s, e)
    requires e.AcquireReturns? || e.AcquireThrows?
    requires RunningOk(s, e.r)
    ensures StepOk(s, e.r, StepOf(s, e))
  {
  }

  lemma SettleOk(s: State, e: Event)
    requires Enabled(s, e)
    requires e.SettleReturns? || e.SettleRefuses? || e.SettleThrows?
    requires RunningOk(s, e.r)
    ensures StepOk(s, e.r, StepOf(s, e))
  {
    if e.SettleReturns? {
      var h := StepOf(s, e).history;
      var n := |s.history.settles|;
      assert h.settles[n] == Settle(e.r, s.requests[e.r].key, e.txHash);
    }
  }

  lemma SignOk(s: State, e: Event)
    requires Enabled(s, e)
    requires e.SignReturns? || e.SignThrows?
    requires RunningOk(s, e.r)
    ensures StepOk(s, e.r, StepOf(s, e))
  {
  }

  lemma WriteOk(s: State, e: Event)
    requires Enabled(s, e) && e.WriteReturns?
    requires RunningOk(s, e.r)
    ensures StepOk(s, e.r, StepOf(s, e))
  {
  }

  lemma ThrowingWriteOk(s: State, e: Event)
    requires Enabled(s, e) && e.WriteThrows? && e.callbackThrows
    requires RunningOk(s, e.r)
    ensures StepOk(s, e.r, StepOf(s, e))
  {
  }

  lemma ReportedWriteOk(s: State, e: Event)
    requires Enabled(s, e) && e.WriteThrows? && !e.callbackThrows
    requires RunningOk(s, e.r)
    ensures StepOk(s, e.r, StepOf(s, e))
  {
  }

  lemma WriteFailureOk(s: State, e: Event)
    requires Enabled(s, e) && e.WriteThrows?
    requires RunningOk(s, e.r)
    ensures StepOk(s, e.r, StepOf(s, e))
  {
    if e.callbackThrows {
      ThrowingWriteOk(s, e);
    } else {
      ReportedWriteOk(s, e);
    }
  }

  lemma ReleaseOk(s: State, e: Event)
    requires Enabled(s, e)
    requires e.ReleaseReturns? || e.ReleaseThrows?
    requires RunningOk(s, e.r)
    ensures StepOk(s, e.r, StepOf(s, e))
  {
  }

  lemma RunStepOk(s: State, e: Event)
    requires Enabled(s, e) && !IsStoreEvent(e)
    requires !(e.Arrive? || e.VerifyInvalid? || e.VerifyThrows? || e.VerifyValid?)
    requires !(e.LeaderReturns? || e.WaiterReturns?)
    requires RunningOk(s, e.r)
    ensures StepOk(s, e.r, StepOf(s, e))
  {
    if e.ReadReturns? || e.ReadThrows? || e.RecheckReturns? || e.RecheckThrows? {
      LookupOk(s, e);
    } else if e.AcquireReturns? || e.AcquireThrows? {
      AcquireOk(s, e);
    } else if e.SettleReturns? || e.SettleRefuses? || e.SettleThrows? {
      SettleOk(s, e);
    } else if e.SignReturns? || e.SignThrows? {
      SignOk(s, e);
    } else if e.WriteReturns? {
      WriteOk(s, e);
    } else if e.WriteThrows? {
      WriteFailureOk(s, e);
    } else {
      ReleaseOk(s, e);
    }
  }

  lemma OpeningOk(s: State, e: Event)
    requires FlightInv(s) && ReceiptInv(s) && Enabled(s, e)
    requires e.Arrive? || e.VerifyInvalid? || e.VerifyThrows? || e.VerifyValid?
    ensures StepOk(s, e.r, StepOf(s, e))
  {
  }

  lemma ClosingOk(s: State, e: Event)
    requires FlightInv(s) && ReceiptInv(s) && Enabled(s, e)
    requires e.LeaderReturns? || e.WaiterReturns?
    ensures StepOk(s, e.r, StepOf(s, e))
  {
  }

  lemma StepIsOk(s: State, e: Event)
    requires FlightInv(s) && ReceiptInv(s) && Enabled(s, e) && !IsStoreEvent(e)
    ensures StepOk(s, e.r, StepOf(s, e))
  {
    if e.Arrive? || e.VerifyInvalid? || e.VerifyThrows? || e.VerifyValid? {
      OpeningOk(s, e);
    } else if e.LeaderReturns? || e.WaiterReturns? {
      ClosingOk(s, e);
    } else {
      RunStepOk(s, e);
    }
  }

  lemma StepKeepsReceipts(s: State, r: Rid, c: Change)
    requires ReceiptInv(s) && Grows(s.history, c.history, r) && StepOk(s, r, c)
    requires r in s.results ==> r in s.requests
    ensures ReceiptInv(Apply(s, r, c))
  {
    var s' := Apply(s, r, c);
    forall q | q != r
      ensures NotCharged(c.history, q) <==> NotCharged(s.history, q)
      ensures forall t :: Charged(c.history, q, t) <==> Charged(s.history, q, t)
      ensures q in c.history.mishaps <==> q in s.history.mishaps
    {
      GrowsElsewhere(s.history, c.history, r, q);
    }
    forall q | q in s'.requests ensures PhaseOk(s'.history, q, s'.requests[q].offer, s'.requests[q].phase) {
    }
    forall q | q in s'.results ensures q in s'.requests && ResultOk(s'.history, q, s'.requests[q].offer, s'.results[q]) {
    }
  }

  lemma ReceiptsKept(s: State, e: Event)
    requires FlightInv(s) && ReceiptInv(s) && Enabled(s, e)
    ensures ReceiptInv(Next(s, e))
  {
    if !IsStoreEvent(e) {
      StepGrows(s, e);
      StepIsOk(s, e);
      StepKeepsReceipts(s, e.r, StepOf(s, e));
    }
  }

  lemma {:induction false} ReceiptsAlways(s: State, events: seq<Event>)
    requires FlightInv(s) && ReceiptInv(s) && IsRun(s, events)
    ensures ReceiptInv(After(s, events))
    decreases |events|
  {
    if events != [] {
      FlightKept(s, events[0]);
      ReceiptsKept(s, events[0]);
      ReceiptsAlways(Next(s, events[0]), events[1..]);
    }
  }

  lemma ReachableReceipts(s: State)
    requires Reachable(s)
    ensures FlightInv(s) && ReceiptInv(s)
  {
    var mode, events :| IsRun(Start(mode), events) && s == After(Start(mode), events);
    FlightAlways(Start(mode), events);
    ReceiptsAlways(Start(mode), events);
  }

  // ----- Mishaps -----

  /** A request whose signing failed or whose onCacheError threw is on its way to
      a failure. */
  ghost predicate Failing(s: State, r: Rid) {
    && r in s.requests
    && (s.requests[r].phase.ReleasingAfterThrow? ||
        ((s.requests[r].phase.Resolved? || (s.requests[r].phase.Done? && s.requests[r].phase.attempt == Some(r)))
         && r in s.results && s.results[r].Threw?))
  }

  ghost predicate MishapInv(s: State) {
    forall r :: r in s.history.mishaps ==> Failing(s, r)
  }

  lemma MarkingFails(s: State, e: Event)
    requires Enabled(s, e) && (e.SignThrows? || e.WriteThrows? || e.ReleaseThrows?)
    ensures e.r in StepOf(s, e).history.mishaps && e.r !in s.history.mishaps ==> Failing(Apply(s, e.r, StepOf(s, e)), e.r)
  {
  }

  lemma OnlyMarking(s: State, e: Event)
    requires Enabled(s, e) && !IsStoreEvent(e) && !(e.SignThrows? || e.WriteThrows? || e.ReleaseThrows?)
    ensures StepOf(s, e).history.mishaps == s.history.mishaps
  {
  }

  lemma FailingGoesOn(s: State, e: Event)
    requires Enabled(s, e) && !IsStoreEvent(e) && Failing(s, e.r)
    ensures Failing(Apply(s, e.r, StepOf(s, e)), e.r)
  {
  }

  lemma MishapsKept(s: State, e: Event)
    requires MishapInv(s) && Enabled(s, e)
    ensures MishapInv(Next(s, e))
  {
    var s' := Next(s, e);
    if !IsStoreEvent(e) {
      StepGrows(s, e);
      if e.SignThrows? || e.WriteThrows? || e.ReleaseThrows? {
        MarkingFails(s, e);
      } else {
        OnlyMarking(s, e);
      }
      if e.r in s.history.mishaps {
        FailingGoesOn(s, e);
      }
    }
    forall q | q in s'.history.mishaps ensures Failing(s', q) {
      if IsStoreEvent(e) || q != e.r {
        assert Failing(s, q);
      }
    }
  }

  lemma {:induction false} MishapsAlways(s: State, events: seq<Event>)
    requires MishapInv(s) && IsRun(s, events)
    ensures MishapInv(After(s, events))
    decreases |events|
  {
    if events != [] {
      MishapsKept(s, events[0]);
      MishapsAlways(Next(s, events[0]), events[1..]);
    }
  }

  /** Signing that fails, or an onCacheError that throws, always costs the request
      its receipt. */
  lemma MishapFails(s: State, r: Rid)
    requires Reachable(s) && r in s.history.mishaps
    ensures r in s.requests
    ensures s.requests[r].phase.Done? ==> s.requests[r].phase.outcome.Failed?
  {
    var mode, events :| IsRun(Start(mode), events) && s == After(Start(mode), events);
    MishapsAlways(Start(mode), events);
    FlightAlways(Start(mode), events);
    assert Failing(s, r) && OutcomeOk(s, r);
  }

  // ----- Main results -----

  /** Every receipt handed out was issued for the offer being served: same
      model, network, resource, amount, asset and payee. */
  lemma PaidReceiptAgrees(s: State, r: Rid)
    requires Reachable(s) && r in s.requests
    requires s.requests[r].phase.Done? && s.requests[r].phase.outcome.Paid?
    ensures Agrees(s.requests[r].phase.outcome.receipt, s.requests[r].offer)
  {
    ReachableFlight(s);
    assert OutcomeOk(s, r);
    BindingsCompareFields(s.requests[r].phase.outcome.receipt, s.requests[r].offer);
  }

  /** A request whose settle call reported success and that has ended holds the
      receipt of that very settlement exactly when its signing did not fail and
      its onCacheError did not throw, however the cache writes and lock releases
      went; otherwise it has failed. */
  lemma SettledPayerGetsReceipt(s: State, i: nat)
    requires Reachable(s) && i < |s.history.settles|
    ensures s.history.settles[i].rid in s.requests
    ensures var settle := s.history.settles[i];
            var request := s.requests[settle.rid];
            request.phase.Done? ==>
              (settle.rid !in s.history.mishaps <==>
                 request.phase.outcome.Paid? && !request.phase.outcome.replayed
                 && request.phase.outcome.receipt.txHash == settle.txHash
                 && Agrees(request.phase.outcome.receipt, request.offer))
              && (settle.rid in s.history.mishaps <==> request.phase.outcome.Failed?)
  {
    ReachableReceipts(s);
    var settle := s.history.settles[i];
    assert !NotCharged(s.history, settle.rid);
    if s.requests[settle.rid].phase.Done? {
      if settle.rid in s.history.mishaps {
        MishapFails(s, settle.rid);
      } else {
        SettledIsPaid(s, i);
      }
    }
  }

  lemma SettledIsPaid(s: State, i: nat)
    requires FlightInv(s) && ReceiptInv(s) && i < |s.history.settles|
    requires var r := s.history.settles[i].rid; r in s.requests && r !in s.history.mishaps && s.requests[r].phase.Done?
    ensures var settle := s.history.settles[i];
            var request := s.requests[settle.rid];
            && request.phase.outcome.Paid? && !request.phase.outcome.replayed
            && request.phase.outcome.receipt.txHash == settle.txHash
            && Agrees(request.phase.outcome.receipt, request.offer)
  {
    var settle := s.history.settles[i];
    var request := s.requests[settle.rid];
    assert !NotCharged(s.history, settle.rid);
    assert OutcomeOk(s, settle.rid);
    var result := s.results[settle.rid];
    assert ResultOk(s.history, settle.rid, request.offer, result);
    BindingsCompareFields(result.receipt, request.offer);
  }

  /** Without a mishap the error is a thrown one: the request that settled is
      never told that its payment was for a different offer. */
  lemma FreshNeverMismatched(s: State, i: nat)
    requires Reachable(s) && i < |s.history.settles|
    requires s.history.settles[i].rid in s.requests && s.requests[s.history.settles[i].rid].phase.Done?
    ensures s.requests[s.history.settles[i].rid].phase.outcome != OFFER_MISMATCH
  {
    ReachableReceipts(s);
    var settle := s.history.settles[i];
    assert !NotCharged(s.history, settle.rid);
    assert OutcomeOk(s, settle.rid);
    var result := s.results[settle.rid];
    assert ResultOk(s.history, settle.rid, s.requests[settle.rid].offer, result);
    if result.Ok? {
      BindingsCompareFields(result.receipt, s.requests[settle.rid].offer);
    }
  }

  /** Only the request that settled reports a cache error. */
  lemma CacheErrorOnlyAfterSettling(s: State, r: Rid)
    requires Reachable(s) && r in s.requests && s.requests[r].phase.Done?
    requires s.requests[r].phase.outcome.Paid? && s.requests[r].phase.outcome.cacheError.Some?
    ensures Charged(s.history, r, s.requests[r].phase.outcome.receipt.txHash)
    ensures !s.requests[r].phase.outcome.replayed
  {
    ReachableReceipts(s);
    assert OutcomeOk(s, r);
    assert ResultOk(s.history, r, s.requests[r].offer, s.results[r]);
  }
}
