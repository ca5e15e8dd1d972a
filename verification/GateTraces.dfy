/** What the events of a run say about the requests in it: which payments share a
    key, where a receipt comes from, and what every rejection and failure reports. */
module GateTraces {
  import opened JsText
  import opened Receipts
  import opened Gate
  import opened GateInFlight

  // ----- Keys -----

  /** The request came to this gate with this offer. */
  predicate CameWith(s: State, r: Rid, gate: GateId, offer: Offer) {
    r in s.requests && s.requests[r].gate == gate && s.requests[r].offer == offer
  }

  /** The request was verified with this payer and nonce. */
  predicate VerifiedAs(s: State, r: Rid, payer: Text, nonce: Text) {
    && r in s.requests && !s.requests[r].phase.Verifying? && s.requests[r].payer == payer
    && s.requests[r].key == s.requests[r].offer.model + [COLON] + nonce
  }

  lemma RequestKept(s: State, e: Event, r: Rid)
    requires Enabled(s, e) && r in s.requests
    ensures CameWith(Next(s, e), r, s.requests[r].gate, s.requests[r].offer)
    ensures !s.requests[r].phase.Verifying? ==>
              !Next(s, e).requests[r].phase.Verifying? && Next(s, e).requests[r].payer == s.requests[r].payer &&
              Next(s, e).requests[r].key == s.requests[r].key
  {
    if !IsStoreEvent(e) && e.r == r {
      StepKeepsRequest(s, e);
    }
  }

  lemma StepKeepsRequest(s: State, e: Event)
    requires Enabled(s, e) && !IsStoreEvent(e) && e.r in s.requests
    ensures var c := StepOf(s, e);
            && c.request.gate == s.requests[e.r].gate && c.request.offer == s.requests[e.r].offer
            && !c.request.phase.Verifying?
            && (!s.requests[e.r].phase.Verifying? ==> c.request.payer == s.requests[e.r].payer && c.request.key == s.requests[e.r].key)
  {
  }

  lemma {:induction false} CameWithKept(s: State, events: seq<Event>, r: Rid, gate: GateId, offer: Offer)
    requires CameWith(s, r, gate, offer) && IsRun(s, events)
    ensures CameWith(After(s, events), r, gate, offer)
    decreases |events|
  {
    if events != [] {
      RequestKept(s, events[0], r);
      CameWithKept(Next(s, events[0]), events[1..], r, gate, offer);
    }
  }

  lemma {:induction false} VerifiedKept(s: State, events: seq<Event>, r: Rid, payer: Text, nonce: Text)
    requires VerifiedAs(s, r, payer, nonce) && IsRun(s, events)
    ensures VerifiedAs(After(s, events), r, payer, nonce)
    decreases |events|
  {
    if events != [] {
      RequestKept(s, events[0], r);
      VerifiedKept(Next(s, events[0]), events[1..], r, payer, nonce);
    }
  }

  lemma Verifying(s: State, r: Rid, payer: Text, nonce: Text)
    requires Enabled(s, VerifyValid(r, payer, nonce))
    ensures VerifiedAs(Next(s, VerifyValid(r, payer, nonce)), r, payer, nonce)
  {
  }

  lemma Arriving(s: State, r: Rid, gate: GateId, offer: Offer)
    requires Enabled(s, Arrive(r, gate, offer))
    ensures CameWith(Next(s, Arrive(r, gate, offer)), r, gate, offer)
  {
  }

  lemma {:induction false} ArrivedWith(s: State, events: seq<Event>, r: Rid, gate: GateId, offer: Offer)
    requires IsRun(s, events) && Arrive(r, gate, offer) in events
    ensures CameWith(After(s, events), r, gate, offer)
    decreases |events|
  {
    if events[0] == Arrive(r, gate, offer) {
      Arriving(s, r, gate, offer);
      CameWithKept(Next(s, events[0]), events[1..], r, gate, offer);
    } else {
      ArrivedWith(Next(s, events[0]), events[1..], r, gate, offer);
    }
  }

  lemma {:induction false} VerifiedWith(s: State, events: seq<Event>, r: Rid, payer: Text, nonce: Text)
    requires IsRun(s, events) && VerifyValid(r, payer, nonce) in events
    ensures VerifiedAs(After(s, events), r, payer, nonce)
    decreases |events|
  {
    if events[0] == VerifyValid(r, payer, nonce) {
      Verifying(s, r, payer, nonce);
      VerifiedKept(Next(s, events[0]), events[1..], r, payer, nonce);
    } else {
      VerifiedWith(Next(s, events[0]), events[1..], r, payer, nonce);
    }
  }

  /** The request of this run that asked for `offer` and was verified with `nonce`. */
  ghost predicate Payment(events: seq<Event>, r: Rid, offer: Offer, nonce: Text) {
    && (exists gate :: Arrive(r, gate, offer) in events)
    && (exists payer :: VerifyValid(r, payer, nonce) in events)
  }

  lemma PaymentKey(s: State, events: seq<Event>, r: Rid, offer: Offer, nonce: Text)
    requires IsRun(s, events) && Payment(events, r, offer, nonce)
    ensures r in After(s, events).requests && After(s, events).requests[r].offer == offer
    ensures After(s, events).requests[r].key == offer.model + [COLON] + nonce
  {
    var gate :| Arrive(r, gate, offer) in events;
    var payer :| VerifyValid(r, payer, nonce) in events;
    ArrivedWith(s, events, r, gate, offer);
    VerifiedWith(s, events, r, payer, nonce);
  }

  /** Two verified payments share a key, and with it an attempt, a cache entry and a
      lock, exactly when their models and their nonces are equal. */
  lemma KeysTellPaymentsApart(mode: CacheMode, events: seq<Event>, q: Rid, r: Rid, asked: Offer, offer: Offer, m: Text, n: Text)
    requires IsRun(Start(mode), events) && Payment(events, q, asked, m) && Payment(events, r, offer, n)
    requires COLON !in asked.model && COLON !in offer.model
    ensures var s := After(Start(mode), events);
            && q in s.requests && r in s.requests
            && (s.requests[q].key == s.requests[r].key <==> asked.model == offer.model && m == n)
  {
    PaymentKey(Start(mode), events, q, asked, m);
    PaymentKey(Start(mode), events, r, offer, n);
    if asked.model + [COLON] + m == offer.model + [COLON] + n {
      SplitAtColon(asked.model, m, offer.model, n);
    }
  }

  // ----- Where receipts come from -----

  /** The receipt of a payment made for this offer and nonce: q asked for the offer,
      was verified with the nonce, settled, and had the receipt signed. */
  ghost predicate IssuedTo(events: seq<Event>, q: Rid, offer: Offer, nonce: Text, receipt: Receipt) {
    && (exists gate :: Arrive(q, gate, offer) in events)
    && VerifyValid(q, receipt.payer, nonce) in events
    && SettleReturns(q, receipt.txHash) in events
    && SignReturns(q, receipt.id, receipt.issuedAt, receipt.signature) in events
    && Agrees(receipt, offer)
  }

  ghost predicate Earned(events: seq<Event>, key: Key, receipt: Receipt) {
    exists q, offer, nonce :: IssuedTo(events, q, offer, nonce, receipt) && key == offer.model + [COLON] + nonce
  }

  /** Nobody but the gates has written the entry. */
  ghost predicate OwnEntry(events: seq<Event>, key: Key) {
    forall receipt :: ForeignWrite(key, receipt) !in events
  }

  lemma EarnedStays(events: seq<Event>, e: Event, key: Key, receipt: Receipt)
    requires Earned(events, key, receipt)
    ensures Earned(events + [e], key, receipt)
  {
    var q, offer, nonce :| IssuedTo(events, q, offer, nonce, receipt) && key == offer.model + [COLON] + nonce;
    var gate :| Arrive(q, gate, offer) in events;
    assert Arrive(q, gate, offer) in events + [e];
    assert IssuedTo(events + [e], q, offer, nonce, receipt);
  }

  lemma OwnEntryBefore(events: seq<Event>, e: Event, key: Key)
    requires OwnEntry(events + [e], key)
    ensures OwnEntry(events, key)
    ensures e.ForeignWrite? ==> e.key != key
  {
    forall receipt ensures ForeignWrite(key, receipt) !in events {
      assert ForeignWrite(key, receipt) !in events + [e];
    }
    assert e in events + [e];
  }

  /** What the past says about a request. */
  ghost predicate Remembered(past: seq<Event>, r: Rid, request: Request) {
    && Arrive(r, request.gate, request.offer) in past
    && (Leading(request.phase) ==>
          exists nonce :: VerifyValid(r, request.payer, nonce) in past && request.key == request.offer.model + [COLON] + nonce)
    && match request.phase
       case Signing(txHash) => SettleReturns(r, txHash) in past
       case Writing(signed) => Earned(past, request.key, signed)
       case Releasing(result) => ResultEarned(past, request.key, result)
       case _ => true
  }

  ghost predicate ResultEarned(past: seq<Event>, key: Key, result: Attempt) {
    result.Ok? && OwnEntry(past, key) ==> Earned(past, key, result.receipt)
  }

  ghost predicate Traced(past: seq<Event>, s: State) {
    && (forall r :: r in s.requests ==> Remembered(past, r, s.requests[r]))
    && (forall r :: r in s.results ==> r in s.requests && ResultEarned(past, s.requests[r].key, s.results[r]))
    && (forall key :: key in s.store.entries && OwnEntry(past, key) ==> Earned(past, key, s.store.entries[key]))
  }

  lemma RememberedStays(past: seq<Event>, e: Event, r: Rid, request: Request)
    requires Remembered(past, r, request)
    ensures Remembered(past + [e], r, request)
  {
    if Leading(request.phase) {
      var nonce :| VerifyValid(r, request.payer, nonce) in past && request.key == request.offer.model + [COLON] + nonce;
      assert VerifyValid(r, request.payer, nonce) in past + [e];
    }
    if request.phase.Writing? {
      EarnedStays(past, e, request.key, request.phase.signed);
    }
    if request.phase.Releasing? {
      ResultEarnedStays(past, e, request.key, request.phase.result);
    }
  }

  lemma ResultEarnedStays(past: seq<Event>, e: Event, key: Key, result: Attempt)
    requires ResultEarned(past, key, result)
    ensures ResultEarned(past + [e], key, result)
  {
    if result.Ok? && OwnEntry(past + [e], key) {
      OwnEntryBefore(past, e, key);
      EarnedStays(past, e, key, result.receipt);
    }
  }

  /** What a step adds is remembered. */
  ghost predicate StepRemembered(past: seq<Event>, s: State, r: Rid, c: Change) {
    && Remembered(past, r, c.request)
    && (c.result.Some? ==> ResultEarned(past, c.request.key, c.result.value))
    && (c.result.None? && r in s.results ==> r in s.requests && c.request.key == s.requests[r].key)
    && (c.store.entries == s.store.entries ||
        exists receipt :: c.store.entries == s.store.entries[c.request.key := receipt] && Earned(past, c.request.key, receipt))
  }

  /** What is known of the acting request once its event is part of the past. */
  ghost predicate Known(past: seq<Event>, s: State, e: Event)
    requires Enabled(s, e)
  {
    && e in past
    && (!IsStoreEvent(e) && e.r in s.requests ==> Remembered(past, e.r, s.requests[e.r]))
    && (forall key :: key in s.store.entries && OwnEntry(past, key) ==> Earned(past, key, s.store.entries[key]))
  }

  lemma OpeningRemembered(past: seq<Event>, s: State, e: Event)
    requires Enabled(s, e) && Known(past, s, e) && PromisesMatch(s)
    requires e.Arrive? || e.VerifyInvalid? || e.VerifyThrows? || e.VerifyValid?
    ensures StepRemembered(past, s, e.r, StepOf(s, e))
  {
  }

  lemma ClosingRemembered(past: seq<Event>, s: State, e: Event)
    requires Enabled(s, e) && Known(past, s, e)
    requires e.LeaderReturns? || e.WaiterReturns?
    ensures StepRemembered(past, s, e.r, StepOf(s, e))
  {
  }

  lemma LookingRemembered(past: seq<Event>, s: State, e: Event)
    requires Enabled(s, e) && Known(past, s, e)
    requires e.ReadReturns? || e.ReadThrows? || e.AcquireReturns? || e.AcquireThrows? || e.RecheckReturns? || e.RecheckThrows?
    ensures StepRemembered(past, s, e.r, StepOf(s, e))
  {
  }

  lemma SettlingRemembered(past: seq<Event>, s: State, e: Event)
    requires Enabled(s, e) && Known(past, s, e) && e.SettleReturns?
    ensures StepRemembered(past, s, e.r, StepOf(s, e))
  {
  }

  lemma SettleFailureRemembered(past: seq<Event>, s: State, e: Event)
    requires Enabled(s, e) && Known(past, s, e)
    requires e.SettleRefuses? || e.SettleThrows? || e.SignThrows?
    ensures StepRemembered(past, s, e.r, StepOf(s, e))
  {
  }

  /** The signed receipt is for the settlement, the offer and the payer at hand. */
  lemma SigningRemembered(past: seq<Event>, s: State, e: Event)
    requires Enabled(s, e) && Known(past, s, e) && e.SignReturns?
    ensures StepRemembered(past, s, e.r, StepOf(s, e))
  {
    var request := s.requests[e.r];
    var receipt := Issue(request, request.phase.txHash, e.id, e.issuedAt, e.signature);
    var nonce :| VerifyValid(e.r, request.payer, nonce) in past && request.key == request.offer.model + [COLON] + nonce;
    assert IssuedTo(past, e.r, request.offer, nonce, receipt);
    assert Earned(past, request.key, receipt);
  }

  lemma WritingRemembered(past: seq<Event>, s: State, e: Event)
    requires Enabled(s, e) && Known(past, s, e) && e.WriteReturns?
    ensures StepRemembered(past, s, e.r, StepOf(s, e))
  {
  }

  lemma WriteFailureRemembered(past: seq<Event>, s: State, e: Event)
    requires Enabled(s, e) && Known(past, s, e) && e.WriteThrows?
    ensures StepRemembered(past, s, e.r, StepOf(s, e))
  {
  }

  lemma ReleasingRemembered(past: seq<Event>, s: State, e: Event)
    requires Enabled(s, e) && Known(past, s, e)
    requires e.ReleaseReturns? || e.ReleaseThrows?
    ensures StepRemembered(past, s, e.r, StepOf(s, e))
  {
  }

  lemma StepIsRemembered(past: seq<Event>, s: State, e: Event)
    requires Enabled(s, e) && !IsStoreEvent(e) && Known(past, s, e) && PromisesMatch(s)
    ensures StepRemembered(past, s, e.r, StepOf(s, e))
  {
    if e.Arrive? || e.VerifyInvalid? || e.VerifyThrows? || e.VerifyValid? {
      OpeningRemembered(past, s, e);
    } else if e.LeaderReturns? || e.WaiterReturns? {
      ClosingRemembered(past, s, e);
    } else if e.SettleReturns? {
      SettlingRemembered(past, s, e);
    } else if e.SettleRefuses? || e.SettleThrows? || e.SignThrows? {
      SettleFailureRemembered(past, s, e);
    } else if e.SignReturns? {
      SigningRemembered(past, s, e);
    } else if e.WriteReturns? {
      WritingRemembered(past, s, e);
    } else if e.WriteThrows? {
      WriteFailureRemembered(past, s, e);
    } else if e.ReleaseReturns? || e.ReleaseThrows? {
      ReleasingRemembered(past, s, e);
    } else {
      LookingRemembered(past, s, e);
    }
  }

  /** The past grows and nothing is forgotten. */
  lemma TracedStays(past: seq<Event>, e: Event, s: State)
    requires Traced(past, s)
    ensures Traced(past + [e], s)
  {
    forall r | r in s.requests ensures Remembered(past + [e], r, s.requests[r]) {
      RememberedStays(past, e, r, s.requests[r]);
    }
    forall r | r in s.results ensures ResultEarned(past + [e], s.requests[r].key, s.results[r]) {
      ResultEarnedStays(past, e, s.requests[r].key, s.results[r]);
    }
    forall key | key in s.store.entries && OwnEntry(past + [e], key) ensures Earned(past + [e], key, s.store.entries[key]) {
      OwnEntryBefore(past, e, key);
      EarnedStays(past, e, key, s.store.entries[key]);
    }
  }

  lemma StoreEventTraced(past: seq<Event>, s: State, e: Event)
    requires Traced(past, s) && IsStoreEvent(e) && e in past
    ensures Traced(past, s.(store := StoreAfter(s.store, e)))
  {
  }

  lemma StepTraced(past: seq<Event>, s: State, r: Rid, c: Change)
    requires Traced(past, s) && StepRemembered(past, s, r, c)
    ensures Traced(past, Apply(s, r, c))
  {
  }

  lemma TracedKept(past: seq<Event>, s: State, e: Event)
    requires Traced(past, s) && PromisesMatch(s) && Enabled(s, e)
    ensures Traced(past + [e], Next(s, e))
  {
    TracedStays(past, e, s);
    assert e in past + [e];
    if IsStoreEvent(e) {
      StoreEventTraced(past + [e], s, e);
    } else {
      StepIsRemembered(past + [e], s, e);
      StepTraced(past + [e], s, e.r, StepOf(s, e));
    }
  }

  lemma {:induction false} TracedAlways(past: seq<Event>, s: State, events: seq<Event>)
    requires Traced(past, s) && FlightInv(s) && IsRun(s, events)
    ensures Traced(past + events, After(s, events))
    decreases |events|
  {
    if events == [] {
      assert past + events == past;
    } else {
      TracedKept(past, s, events[0]);
      FlightKept(s, events[0]);
      TracedAlways(past + [events[0]], Next(s, events[0]), events[1..]);
      assert past + [events[0]] + events[1..] == past + events;
    }
  }

  predicate PaidWith(s: State, r: Rid, receipt: Receipt) {
    r in s.requests && s.requests[r].phase.Done? && s.requests[r].phase.outcome.Paid? && s.requests[r].phase.outcome.receipt == receipt
  }

  lemma ResultTraced(past: seq<Event>, s: State, r: Rid)
    requires Traced(past, s) && FlightInv(s) && r in s.requests
    requires s.requests[r].phase.Done? && s.requests[r].phase.outcome.Paid? && OwnEntry(past, s.requests[r].key)
    ensures Earned(past, s.requests[r].key, s.requests[r].phase.outcome.receipt)
  {
    assert OutcomeOk(s, r);
    var l := s.requests[r].phase.attempt.value;
    assert ResultEarned(past, s.requests[l].key, s.results[l]);
  }

  /** While nobody but the gates writes its entry, a payment that is accepted gets
      a receipt issued for that payment: the same nonce and model were verified,
      for the payer the receipt names, settled in the transaction the receipt names,
      and signed for an offer with the receipt's terms. */
  lemma PaidReceiptIsEarned(mode: CacheMode, events: seq<Event>, r: Rid, offer: Offer, nonce: Text, receipt: Receipt)
    returns (q: Rid, asked: Offer)
    requires IsRun(Start(mode), events) && Payment(events, r, offer, nonce)
    requires PaidWith(After(Start(mode), events), r, receipt)
    requires OwnEntry(events, After(Start(mode), events).requests[r].key)
    requires forall q, gate, asked :: Arrive(q, gate, asked) in events ==> COLON !in asked.model
    ensures asked.model == offer.model && IssuedTo(events, q, asked, nonce, receipt)
  {
    var s := After(Start(mode), events);
    TracedAlways([], Start(mode), events);
    FlightAlways(Start(mode), events);
    assert [] + events == events;
    PaymentKey(Start(mode), events, r, offer, nonce);
    ResultTraced(events, s, r);
    var m;
    q, asked, m :| IssuedTo(events, q, asked, m, receipt) && s.requests[r].key == asked.model + [COLON] + m;
    SplitAtColon(asked.model, m, offer.model, nonce);
    assert IssuedTo(events, q, asked, nonce, receipt);
  }
}
