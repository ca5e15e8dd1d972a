/** What a request is told: every rejection, failure, replay mark and cache error
    is read off the answers that it, or the attempt it joined, was given. */
module GateReports {
  import opened JsText
  import opened Receipts
  import opened Gate
  import opened GateInFlight

  // ----- Answers a request was given -----

  ghost predicate SettledBy(past: seq<Event>, r: Rid) {
    exists e :: e in past && e.SettleReturns? && e.r == r
  }

  ghost predicate WriteFails(past: seq<Event>, r: Rid) {
    exists e :: e in past && e.WriteThrows? && e.r == r
  }

  ghost predicate ReleaseFails(past: seq<Event>, r: Rid) {
    exists e :: e in past && e.ReleaseThrows? && e.r == r
  }

  /** onCacheError threw over a failed write. */
  ghost predicate WriteCallbackThrows(past: seq<Event>, r: Rid) {
    exists e :: e in past && e.WriteThrows? && e.callbackThrows && e.r == r
  }

  /** onCacheError threw over a failed release. */
  ghost predicate ReleaseCallbackThrows(past: seq<Event>, r: Rid) {
    exists e :: e in past && e.ReleaseThrows? && e.callbackThrows && e.r == r
  }

  ghost predicate CallbackThrows(past: seq<Event>, r: Rid) {
    WriteCallbackThrows(past, r) || ReleaseCallbackThrows(past, r)
  }

  /** Another call made for the request threw. */
  ghost predicate Broken(past: seq<Event>, r: Rid) {
    exists e :: e in past && IsThrow(e) && e.r == r
  }

  predicate IsThrow(e: Event) {
    e.VerifyThrows? || e.ReadThrows? || e.AcquireThrows? || e.RecheckThrows? || e.SettleThrows? || e.SignThrows?
  }

  ghost predicate RefusedBy(past: seq<Event>, r: Rid) {
    exists e :: e in past && e.SettleRefuses? && e.r == r
  }

  /** The request has looked again under the lock. */
  ghost predicate LooksAgain(past: seq<Event>, r: Rid) {
    exists e :: e in past && e.RecheckReturns? && e.r == r
  }

  /** The answer that an error thrown before the release comes from. */
  ghost predicate Cause(past: seq<Event>, r: Rid, error: Error) {
    match error
    case VerifyError => VerifyThrows(r) in past
    case ReadError => ReadThrows(r) in past || RecheckThrows(r) in past
    case AcquireError => AcquireThrows(r, true) in past || AcquireThrows(r, false) in past
    case SettleError => SettleThrows(r) in past
    case SignError => SignThrows(r) in past
    case CallbackError => WriteCallbackThrows(past, r)
    case ReleaseError => false
    case AggregateError(_) => false
  }

  /** An error stands alone exactly when the release did not fail, and together with
      the release failure otherwise; a release failure stands alone only where
      nothing was settled and nothing else was thrown, and after a settlement it
      costs the receipt only through its callback. */
  ghost predicate Explained(past: seq<Event>, r: Rid, error: Error) {
    if !ReleaseFails(past, r) then Cause(past, r, error)
    else match error
      case AggregateError(original) => Cause(past, r, original)
      case ReleaseError => !SettledBy(past, r) && !Broken(past, r)
      case CallbackError => SettledBy(past, r) && ReleaseCallbackThrows(past, r) && !WriteCallbackThrows(past, r) && !Broken(past, r)
      case _ => false
  }

  /** The cache error on a receipt is the first thing that went wrong after the
      settlement. */
  ghost function Reported(past: seq<Event>, r: Rid): Option<CacheError> {
    if WriteFails(past, r) then Some(WriteFailed)
    else if ReleaseFails(past, r) then Some(ReleaseFailed)
    else None
  }

  ghost predicate Told(past: seq<Event>, r: Rid, result: Attempt) {
    match result
    case Ok(_, replayed, cacheError) =>
      && (replayed <==> !SettledBy(past, r)) && cacheError == Reported(past, r)
      && !Broken(past, r) && !RefusedBy(past, r) && !CallbackThrows(past, r)
    case Refused(status, Stated(text)) =>
      && status == 502 && SettleRefuses(r, text) in past
      && !SettledBy(past, r) && !Broken(past, r) && !ReleaseFails(past, r) && !CallbackThrows(past, r)
    case Refused(status, InProgress) =>
      && status == 409 && AcquireReturns(r) in past && !LooksAgain(past, r) && !SettledBy(past, r)
      && !RefusedBy(past, r) && !Broken(past, r) && !CallbackThrows(past, r)
    case Refused(_, DifferentOffer) => false
    case Threw(error) => Explained(past, r, error)
  }

  ghost predicate Unharmed(past: seq<Event>, r: Rid) {
    !WriteFails(past, r) && !ReleaseFails(past, r) && !CallbackThrows(past, r) && !Broken(past, r) && !RefusedBy(past, r)
  }

  /** What the past holds for a request in this phase. */
  ghost predicate Noted(past: seq<Event>, r: Rid, phase: Phase) {
    match phase
    case Signing(_) => Unharmed(past, r) && SettledBy(past, r)
    case Writing(_) => Unharmed(past, r) && SettledBy(past, r)
    case Releasing(result) => !ReleaseFails(past, r) && !result.Threw? && Told(past, r, result)
    case ReleasingAfterThrow(error) =>
      !ReleaseFails(past, r) && Cause(past, r, error)
    case Resolved => true
    case Done(outcome, None) =>
      (outcome == Failed(VerifyError) && VerifyThrows(r) in past) ||
      (outcome.Rejected? && outcome.status == 402 && outcome.reason.Stated? && VerifyInvalid(r, outcome.reason.text) in past)
    case Done(_, Some(l)) => l != r ==> !SettledBy(past, r)
    case Settling => Unharmed(past, r) && !SettledBy(past, r)
    case _ => Fresh(past, r)
  }

  ghost predicate Fresh(past: seq<Event>, r: Rid) {
    Unharmed(past, r) && !SettledBy(past, r) && !LooksAgain(past, r)
  }

  ghost predicate ReportInv(past: seq<Event>, s: State) {
    && (forall r :: r in s.requests ==> Noted(past, r, s.requests[r].phase))
    && (forall r :: r in s.results ==> Told(past, r, s.results[r]))
    && (forall r :: r !in s.requests ==> Fresh(past, r))
  }

  // ----- Events of somebody else -----

  /** The event is not among the answers that count for the request. */
  predicate Aside(e: Event, r: Rid) {
    IsStoreEvent(e) || e.r != r || !(e.RecheckReturns? || e.SettleReturns? || e.SettleRefuses? || e.WriteThrows? || e.ReleaseThrows? || IsThrow(e))
  }

  lemma AsideKeeps(past: seq<Event>, e: Event, r: Rid)
    requires Aside(e, r)
    ensures SettledBy(past + [e], r) <==> SettledBy(past, r)
    ensures WriteFails(past + [e], r) <==> WriteFails(past, r)
    ensures ReleaseFails(past + [e], r) <==> ReleaseFails(past, r)
    ensures WriteCallbackThrows(past + [e], r) <==> WriteCallbackThrows(past, r)
    ensures ReleaseCallbackThrows(past + [e], r) <==> ReleaseCallbackThrows(past, r)
    ensures Broken(past + [e], r) <==> Broken(past, r)
    ensures RefusedBy(past + [e], r) <==> RefusedBy(past, r)
    ensures LooksAgain(past + [e], r) <==> LooksAgain(past, r)
  {
    PastGrows(past, e, r);
  }

  /** The request's own answer joins the others. */
  lemma AnswerJoins(past: seq<Event>, e: Event, r: Rid)
    requires !IsStoreEvent(e) && e.r == r
    ensures SettledBy(past + [e], r) <==> SettledBy(past, r) || e.SettleReturns?
    ensures WriteFails(past + [e], r) <==> WriteFails(past, r) || e.WriteThrows?
    ensures ReleaseFails(past + [e], r) <==> ReleaseFails(past, r) || e.ReleaseThrows?
    ensures WriteCallbackThrows(past + [e], r) <==> WriteCallbackThrows(past, r) || (e.WriteThrows? && e.callbackThrows)
    ensures ReleaseCallbackThrows(past + [e], r) <==> ReleaseCallbackThrows(past, r) || (e.ReleaseThrows? && e.callbackThrows)
    ensures Broken(past + [e], r) <==> Broken(past, r) || IsThrow(e)
    ensures RefusedBy(past + [e], r) <==> RefusedBy(past, r) || e.SettleRefuses?
    ensures LooksAgain(past + [e], r) <==> LooksAgain(past, r) || e.RecheckReturns?
  {
    PastGrows(past, e, r);
    assert e in past + [e];
  }

  lemma PastGrows(past: seq<Event>, e: Event, r: Rid)
    ensures SettledBy(past, r) ==> SettledBy(past + [e], r)
    ensures WriteFails(past, r) ==> WriteFails(past + [e], r)
    ensures ReleaseFails(past, r) ==> ReleaseFails(past + [e], r)
    ensures WriteCallbackThrows(past, r) ==> WriteCallbackThrows(past + [e], r)
    ensures ReleaseCallbackThrows(past, r) ==> ReleaseCallbackThrows(past + [e], r)
    ensures Broken(past, r) ==> Broken(past + [e], r)
    ensures RefusedBy(past, r) ==> RefusedBy(past + [e], r)
    ensures LooksAgain(past, r) ==> LooksAgain(past + [e], r)
  {
    assert forall f :: f in past ==> f in past + [e];
  }

  lemma NotedStays(past: seq<Event>, e: Event, r: Rid, phase: Phase)
    requires Aside(e, r) && Noted(past, r, phase)
    ensures Noted(past + [e], r, phase)
  {
    AsideKeeps(past, e, r);
  }

  lemma ToldStays(past: seq<Event>, e: Event, r: Rid, result: Attempt)
    requires Aside(e, r) && Told(past, r, result)
    ensures Told(past + [e], r, result)
  {
    AsideKeeps(past, e, r);
  }

  // ----- A step of the request itself -----

  ghost predicate StepNoted(past: seq<Event>, s: State, r: Rid, c: Change) {
    && Noted(past, r, c.request.phase)
    && (c.result.Some? ==> Told(past, r, c.result.value))
    && (c.result.None? && r in s.results ==> Told(past, r, s.results[r]))
  }

  /** What is known of the acting request before its step. */
  ghost predicate Ready(past: seq<Event>, s: State, r: Rid) {
    && (r in s.requests ==> Noted(past, r, s.requests[r].phase))
    && (r !in s.requests ==> Fresh(past, r))
  }

  lemma OpeningNoted(past: seq<Event>, s: State, e: Event)
    requires Enabled(s, e) && (e.Arrive? || e.VerifyInvalid? || e.VerifyThrows? || e.VerifyValid?)
    requires Ready(past, s, e.r) && e.r !in s.results
    ensures StepNoted(past + [e], s, e.r, StepOf(s, e))
  {
    AnswerJoins(past, e, e.r);
  }

  lemma ClosingNoted(past: seq<Event>, s: State, e: Event)
    requires Enabled(s, e) && (e.LeaderReturns? || e.WaiterReturns?)
    requires Ready(past, s, e.r) && (e.r in s.results ==> Told(past, e.r, s.results[e.r]))
    ensures StepNoted(past + [e], s, e.r, StepOf(s, e))
  {
    AnswerJoins(past, e, e.r);
    if e.r in s.results {
      ToldStays(past, e, e.r, s.results[e.r]);
    }
  }

  lemma LookingNoted(past: seq<Event>, s: State, e: Event)
    requires Enabled(s, e) && (e.ReadReturns? || e.ReadThrows? || e.RecheckReturns? || e.RecheckThrows?)
    requires Ready(past, s, e.r) && e.r !in s.results
    ensures StepNoted(past + [e], s, e.r, StepOf(s, e))
  {
    AnswerJoins(past, e, e.r);
  }

  lemma AcquiringNoted(past: seq<Event>, s: State, e: Event)
    requires Enabled(s, e) && (e.AcquireReturns? || e.AcquireThrows?)
    requires Ready(past, s, e.r) && e.r !in s.results
    ensures StepNoted(past + [e], s, e.r, StepOf(s, e))
  {
    AnswerJoins(past, e, e.r);
  }

  lemma SettlingNoted(past: seq<Event>, s: State, e: Event)
    requires Enabled(s, e) && e.SettleReturns?
    requires Ready(past, s, e.r) && e.r !in s.results
    ensures StepNoted(past + [e], s, e.r, StepOf(s, e))
  {
    AnswerJoins(past, e, e.r);
  }

  lemma SettleFailureNoted(past: seq<Event>, s: State, e: Event)
    requires Enabled(s, e) && (e.SettleRefuses? || e.SettleThrows?)
    requires Ready(past, s, e.r) && e.r !in s.results
    ensures StepNoted(past + [e], s, e.r, StepOf(s, e))
  {
    AnswerJoins(past, e, e.r);
  }

  lemma SigningNoted(past: seq<Event>, s: State, e: Event)
    requires Enabled(s, e) && (e.SignReturns? || e.SignThrows?)
    requires Ready(past, s, e.r) && e.r !in s.results
    ensures StepNoted(past + [e], s, e.r, StepOf(s, e))
  {
    AnswerJoins(past, e, e.r);
  }

  lemma WritingNoted(past: seq<Event>, s: State, e: Event)
    requires Enabled(s, e) && e.WriteReturns?
    requires Ready(past, s, e.r) && e.r !in s.results
    ensures StepNoted(past + [e], s, e.r, StepOf(s, e))
  {
    AnswerJoins(past, e, e.r);
  }

  lemma WriteFailureNoted(past: seq<Event>, s: State, e: Event)
    requires Enabled(s, e) && e.WriteThrows?
    requires Ready(past, s, e.r) && e.r !in s.results
    ensures StepNoted(past + [e], s, e.r, StepOf(s, e))
  {
    AnswerJoins(past, e, e.r);
  }

  lemma ReleasingNoted(past: seq<Event>, s: State, e: Event)
    requires Enabled(s, e) && e.ReleaseReturns?
    requires Ready(past, s, e.r) && e.r !in s.results
    ensures StepNoted(past + [e], s, e.r, StepOf(s, e))
  {
    AnswerJoins(past, e, e.r);
  }

  lemma ReleaseFailureNoted(past: seq<Event>, s: State, e: Event)
    requires Enabled(s, e) && e.ReleaseThrows?
    requires Ready(past, s, e.r) && e.r !in s.results
    ensures StepNoted(past + [e], s, e.r, StepOf(s, e))
  {
    AnswerJoins(past, e, e.r);
  }

  lemma SettlementNoted(past: seq<Event>, s: State, e: Event)
    requires Enabled(s, e) && !IsStoreEvent(e)
    requires e.SettleReturns? || e.SettleRefuses? || e.SettleThrows? || e.SignReturns? || e.SignThrows? || e.WriteReturns? || e.WriteThrows?
    requires Ready(past, s, e.r) && e.r !in s.results
    ensures StepNoted(past + [e], s, e.r, StepOf(s, e))
  {
    if e.SettleReturns? {
      SettlingNoted(past, s, e);
    } else if e.SettleRefuses? || e.SettleThrows? {
      SettleFailureNoted(past, s, e);
    } else if e.SignReturns? || e.SignThrows? {
      SigningNoted(past, s, e);
    } else if e.WriteReturns? {
      WritingNoted(past, s, e);
    } else {
      WriteFailureNoted(past, s, e);
    }
  }

  lemma StepIsNoted(past: seq<Event>, s: State, e: Event)
    requires FlightInv(s) && ReportInv(past, s) && Enabled(s, e) && !IsStoreEvent(e)
    ensures StepNoted(past + [e], s, e.r, StepOf(s, e))
  {
    if e.LeaderReturns? || e.WaiterReturns? {
      ClosingNoted(past, s, e);
    } else {
      NoResultYet(s, e);
      if e.Arrive? || e.VerifyInvalid? || e.VerifyThrows? || e.VerifyValid? {
        OpeningNoted(past, s, e);
      } else if e.AcquireReturns? || e.AcquireThrows? {
        AcquiringNoted(past, s, e);
      } else if e.ReleaseReturns? {
        ReleasingNoted(past, s, e);
      } else if e.ReleaseThrows? {
        ReleaseFailureNoted(past, s, e);
      } else if e.ReadReturns? || e.ReadThrows? || e.RecheckReturns? || e.RecheckThrows? {
        LookingNoted(past, s, e);
      } else {
        SettlementNoted(past, s, e);
      }
    }
  }

  lemma OthersNoted(past: seq<Event>, s: State, e: Event, r: Rid)
    requires ReportInv(past, s) && (IsStoreEvent(e) || e.r != r)
    ensures r in s.requests ==> Noted(past + [e], r, s.requests[r].phase)
    ensures r in s.results ==> Told(past + [e], r, s.results[r])
    ensures r !in s.requests ==> Fresh(past + [e], r)
  {
    AsideKeeps(past, e, r);
    if r in s.requests {
      NotedStays(past, e, r, s.requests[r].phase);
    }
    if r in s.results {
      ToldStays(past, e, r, s.results[r]);
    }
  }

  lemma ReportsKept(past: seq<Event>, s: State, e: Event)
    requires FlightInv(s) && ReportInv(past, s) && Enabled(s, e)
    ensures ReportInv(past + [e], Next(s, e))
  {
    var s' := Next(s, e);
    if !IsStoreEvent(e) {
      StepIsNoted(past, s, e);
    }
    forall r
      ensures r in s'.requests ==> Noted(past + [e], r, s'.requests[r].phase)
      ensures r in s'.results ==> Told(past + [e], r, s'.results[r])
      ensures r !in s'.requests ==> Fresh(past + [e], r)
    {
      if IsStoreEvent(e) || e.r != r {
        OthersNoted(past, s, e, r);
      }
    }
  }

  lemma {:induction false} ReportsAlways(past: seq<Event>, s: State, events: seq<Event>)
    requires FlightInv(s) && ReportInv(past, s) && IsRun(s, events)
    ensures ReportInv(past + events, After(s, events)) && FlightInv(After(s, events))
    decreases |events|
  {
    if events == [] {
      assert past + events == past;
    } else {
      ReportsKept(past, s, events[0]);
      FlightKept(s, events[0]);
      ReportsAlways(past + [events[0]], Next(s, events[0]), events[1..]);
      assert past + [events[0]] + events[1..] == past + events;
    }
  }

  // ----- Main results -----

  /** The outcome of a request that was turned away or failed in its verification. */
  ghost predicate FromVerification(events: seq<Event>, r: Rid, outcome: Outcome) {
    match outcome
    case Paid(_, _, _) => false
    case Rejected(status, reason) => status == 402 && reason.Stated? && VerifyInvalid(r, reason.text) in events
    case Failed(error) => error == VerifyError && VerifyThrows(r) in events
  }

  /** The outcome of request r, asking for this offer, from the answers given to the
      attempt l that it made itself or joined, and from its result. A payment counts
      as replayed exactly when the request did not settle it itself; the receipt in
      hand decides between acceptance and the mismatch; a refused settlement keeps
      its reason; a cache error is reported to the settling request only; and an
      error names the call that threw it. */
  ghost predicate FromAttempt(events: seq<Event>, r: Rid, l: Rid, offer: Offer, result: Attempt, outcome: Outcome) {
    && (Broken(events, l) || CallbackThrows(events, l) ==> outcome.Failed?)
    && (RefusedBy(events, l) ==> outcome.Failed? || (outcome.Rejected? && outcome.reason.Stated?))
    && match outcome
    case Paid(receipt, replayed, cacheError) =>
      && result.Ok? && receipt == result.receipt && Agrees(receipt, offer)
      && (replayed <==> !SettledBy(events, r))
      && cacheError == (if l == r then Reported(events, r) else None)
    case Rejected(status, reason) => RejectionFrom(events, l, offer, result, status, reason)
    case Failed(error) => Explained(events, l, error)
  }

  ghost predicate RejectionFrom(events: seq<Event>, l: Rid, offer: Offer, result: Attempt, status: int, reason: Reason) {
    match reason
    case Stated(text) => status == 502 && SettleRefuses(l, text) in events && !ReleaseFails(events, l)
    case InProgress => status == 409 && AcquireReturns(l) in events && !LooksAgain(events, l) && !SettledBy(events, l)
    case DifferentOffer => status == 409 && result.Ok? && !Agrees(result.receipt, offer)
  }

  /** A request that ends without an attempt was turned away, or failed, in its own
      verification. */
  lemma EndsInVerification(mode: CacheMode, events: seq<Event>, r: Rid)
    requires IsRun(Start(mode), events) && r in After(Start(mode), events).requests
    requires var phase := After(Start(mode), events).requests[r].phase; phase.Done? && phase.attempt.None?
    ensures FromVerification(events, r, After(Start(mode), events).requests[r].phase.outcome)
  {
    ReportsAlways([], Start(mode), events);
    assert [] + events == events;
    assert Noted(events, r, After(Start(mode), events).requests[r].phase);
  }

  lemma ReadAgainstOffer(past: seq<Event>, s: State, r: Rid, l: Rid)
    requires r in s.requests && OutcomeOk(s, r)
    requires s.requests[r].phase.Done? && s.requests[r].phase.attempt == Some(l) && l in s.results
    requires Told(past, l, s.results[l]) && Noted(past, r, s.requests[r].phase)
    ensures FromAttempt(past, r, l, s.requests[r].offer, s.results[l], s.requests[r].phase.outcome)
  {
    if s.results[l].Ok? {
      BindingsCompareFields(s.results[l].receipt, s.requests[r].offer);
    }
  }

  /** Every other outcome is what happened to the request's attempt. */
  lemma OutcomeIsWhatHappened(mode: CacheMode, events: seq<Event>, r: Rid, l: Rid)
    requires IsRun(Start(mode), events) && r in After(Start(mode), events).requests
    requires var phase := After(Start(mode), events).requests[r].phase; phase.Done? && phase.attempt == Some(l)
    ensures l in After(Start(mode), events).results
    ensures var s := After(Start(mode), events);
            FromAttempt(events, r, l, s.requests[r].offer, s.results[l], s.requests[r].phase.outcome)
  {
    var s := After(Start(mode), events);
    ReportsAlways([], Start(mode), events);
    assert [] + events == events;
    assert OutcomeOk(s, r);
    ReadAgainstOffer(events, s, r, l);
  }
}
