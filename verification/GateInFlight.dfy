/** What holds in every reachable state of a gate, whatever fails and whatever
    expires: one attempt per key, waiters that share the leader's result, and
    progress. */
module GateInFlight {
  import opened JsText
  import opened Gate

  /** The attempt of this request is running: inserted and not yet past the
      `finally`. */
  predicate Leading(phase: Phase) {
    !phase.Verifying? && !phase.Waiting? && !phase.Done?
  }

  /** The request holds the lock it acquired. */
  predicate InCritical(s: State, phase: Phase) {
    && s.mode.Locking?
    && (phase.Rechecking? || phase.Settling? || phase.Signing? || phase.Writing? || IsReleasing(phase))
  }

  function Slot(request: Request): (GateId, Key) {
    (request.gate, request.key)
  }

  /** The in-flight map and the running attempts are the same thing. */
  ghost predicate SlotsMatch(s: State) {
    && (forall slot :: slot in s.inFlight ==>
          s.inFlight[slot] in s.requests && Slot(s.requests[s.inFlight[slot]]) == slot && Leading(s.requests[s.inFlight[slot]].phase))
    && (forall r :: r in s.requests && Leading(s.requests[r].phase) ==>
          Slot(s.requests[r]) in s.inFlight && s.inFlight[Slot(s.requests[r])] == r)
  }

  /** A promise has settled exactly for the attempts that are over. */
  ghost predicate PromisesMatch(s: State) {
    && (forall r :: r in s.results ==> r in s.requests)
    && (forall r :: r in s.requests ==>
          (r in s.results <==> s.requests[r].phase.Resolved? ||
                               (s.requests[r].phase.Done? && s.requests[r].phase.attempt == Some(r))))
  }

  /** l is the attempt a waiter on this slot joined. */
  ghost predicate Joined(s: State, l: Rid, slot: (GateId, Key)) {
    && l in s.requests && Slot(s.requests[l]) == slot
    && (Leading(s.requests[l].phase) || (s.requests[l].phase.Done? && s.requests[l].phase.attempt == Some(l)))
  }

  /** A request waits for an attempt on its own slot, and ends with that
      attempt's result, read against its own offer. */
  ghost predicate OutcomeOk(s: State, r: Rid)
    requires r in s.requests
  {
    match s.requests[r].phase
    case Waiting(l) => l != r && Joined(s, l, Slot(s.requests[r]))
    case Done(outcome, Some(l)) =>
      && Joined(s, l, Slot(s.requests[r])) && l in s.results
      && outcome == ToOutcome(s.results[l], s.requests[r].offer, l != r)
    case Done(outcome, None) => !outcome.Paid?
    case _ => true
  }

  ghost predicate OutcomesMatch(s: State) {
    forall r :: r in s.requests ==> OutcomeOk(s, r)
  }

  ghost predicate FlightInv(s: State) {
    SlotsMatch(s) && PromisesMatch(s) && OutcomesMatch(s)
  }

  // ----- The shapes of a step -----

  /** The request keeps its identity. */
  ghost predicate SameRequest(s: State, r: Rid, c: Change) {
    && r in s.requests
    && c.request.gate == s.requests[r].gate && c.request.key == s.requests[r].key
    && c.request.offer == s.requests[r].offer && c.request.payer == s.requests[r].payer
  }

  /** An attempt goes on, or settles its promise. */
  ghost predicate Runs(s: State, r: Rid, c: Change) {
    && SameRequest(s, r, c) && c.inFlight == s.inFlight
    && Leading(s.requests[r].phase) && !s.requests[r].phase.Resolved? && Leading(c.request.phase)
    && (c.result.Some? <==> c.request.phase.Resolved?)
  }

  /** A request arrives, fails verification, joins an attempt or starts one. */
  ghost predicate Opens(s: State, r: Rid, c: Change) {
    && c.result.None?
    && (r in s.requests ==> s.requests[r].phase.Verifying?)
    && match c.request.phase
       case Verifying => r !in s.requests && c.inFlight == s.inFlight
       case Done(outcome, attempt) => r in s.requests && attempt.None? && !outcome.Paid? && c.inFlight == s.inFlight
       case Waiting(l) =>
         r in s.requests && Slot(c.request) in s.inFlight && l == s.inFlight[Slot(c.request)] && c.inFlight == s.inFlight
       case Reading => r in s.requests && Slot(c.request) !in s.inFlight && c.inFlight == s.inFlight[Slot(c.request) := r]
       case _ => false
  }

  /** A leader or a waiter takes the result of its attempt. */
  ghost predicate Closes(s: State, r: Rid, c: Change) {
    && SameRequest(s, r, c) && c.result.None? && c.request.phase.Done?
    && match c.request.phase.attempt
       case None => false
       case Some(l) =>
         && l in s.results && c.request.phase.outcome == ToOutcome(s.results[l], s.requests[r].offer, l != r)
         && (if l == r then s.requests[r].phase.Resolved? && c.inFlight == s.inFlight - {Slot(s.requests[r])}
             else s.requests[r].phase == Waiting(l) && c.inFlight == s.inFlight)
  }

  lemma OpeningShape(s: State, e: Event)
    requires FlightInv(s) && Enabled(s, e)
    requires e.Arrive? || e.VerifyInvalid? || e.VerifyThrows? || e.VerifyValid?
    ensures Opens(s, e.r, StepOf(s, e))
  {
  }

  lemma ClosingShape(s: State, e: Event)
    requires FlightInv(s) && Enabled(s, e)
    requires e.LeaderReturns? || e.WaiterReturns?
    ensures Closes(s, e.r, StepOf(s, e))
  {
    assert OutcomeOk(s, e.r);
  }

  lemma LookingShape(s: State, e: Event)
    requires Enabled(s, e)
    requires e.ReadReturns? || e.ReadThrows? || e.AcquireReturns? || e.AcquireThrows? || e.RecheckReturns? || e.RecheckThrows?
    ensures Runs(s, e.r, StepOf(s, e))
  {
  }

  lemma SettlingShape(s: State, e: Event)
    requires Enabled(s, e)
    requires e.SettleReturns? || e.SettleRefuses? || e.SettleThrows? || e.SignReturns? || e.SignThrows?
    ensures Runs(s, e.r, StepOf(s, e))
  {
  }

  lemma ConcludingShape(s: State, e: Event)
    requires Enabled(s, e)
    requires e.WriteReturns? || e.WriteThrows? || e.ReleaseReturns? || e.ReleaseThrows?
    ensures Runs(s, e.r, StepOf(s, e))
  {
  }

  lemma RunningShape(s: State, e: Event)
    requires Enabled(s, e) && !IsStoreEvent(e)
    requires !(e.Arrive? || e.VerifyInvalid? || e.VerifyThrows? || e.VerifyValid?)
    requires !(e.LeaderReturns? || e.WaiterReturns?)
    ensures Runs(s, e.r, StepOf(s, e))
  {
    if e.ReadReturns? || e.ReadThrows? || e.AcquireReturns? || e.AcquireThrows? || e.RecheckReturns? || e.RecheckThrows? {
      LookingShape(s, e);
    } else if e.SettleReturns? || e.SettleRefuses? || e.SettleThrows? || e.SignReturns? || e.SignThrows? {
      SettlingShape(s, e);
    } else {
      ConcludingShape(s, e);
    }
  }

  // ----- Every shape keeps the invariant -----

  lemma OpensKeepsSlots(s: State, r: Rid, c: Change)
    requires FlightInv(s) && Opens(s, r, c)
    ensures SlotsMatch(Apply(s, r, c)) && PromisesMatch(Apply(s, r, c))
  {
  }

  lemma OpensKeeps(s: State, r: Rid, c: Change)
    requires FlightInv(s) && Opens(s, r, c)
    ensures FlightInv(Apply(s, r, c))
  {
    var s' := Apply(s, r, c);
    OpensKeepsSlots(s, r, c);
    forall q | q in s'.requests ensures OutcomeOk(s', q) {
      if q != r { assert OutcomeOk(s, q); }
    }
  }

  lemma RunsKeeps(s: State, r: Rid, c: Change)
    requires FlightInv(s) && Runs(s, r, c)
    ensures FlightInv(Apply(s, r, c))
  {
    var s' := Apply(s, r, c);
    assert SlotsMatch(s') && PromisesMatch(s');
    forall q | q in s'.requests ensures OutcomeOk(s', q) {
      if q != r { assert OutcomeOk(s, q); }
    }
  }

  lemma ClosesKeepsSlots(s: State, r: Rid, c: Change)
    requires SlotsMatch(s) && Closes(s, r, c)
    ensures SlotsMatch(Apply(s, r, c))
  {
  }

  lemma ClosesKeepsPromises(s: State, r: Rid, c: Change)
    requires PromisesMatch(s) && Closes(s, r, c)
    ensures PromisesMatch(Apply(s, r, c))
  {
  }

  lemma ClosesKeeps(s: State, r: Rid, c: Change)
    requires FlightInv(s) && Closes(s, r, c)
    ensures FlightInv(Apply(s, r, c))
  {
    var s' := Apply(s, r, c);
    ClosesKeepsSlots(s, r, c);
    ClosesKeepsPromises(s, r, c);
    assert OutcomeOk(s, r);
    forall q | q in s'.requests ensures OutcomeOk(s', q) {
      if q != r { assert OutcomeOk(s, q); }
    }
  }

  lemma FlightKept(s: State, e: Event)
    requires FlightInv(s) && Enabled(s, e)
    ensures FlightInv(Next(s, e))
  {
    if IsStoreEvent(e) {
      StoreEventKeeps(s, e);
    } else {
      var c := StepOf(s, e);
      if e.Arrive? || e.VerifyInvalid? || e.VerifyThrows? || e.VerifyValid? {
        OpeningShape(s, e);
        OpensKeeps(s, e.r, c);
      } else if e.LeaderReturns? || e.WaiterReturns? {
        ClosingShape(s, e);
        ClosesKeeps(s, e.r, c);
      } else {
        RunningShape(s, e);
        RunsKeeps(s, e.r, c);
      }
    }
  }

  lemma StoreEventKeeps(s: State, e: Event)
    requires FlightInv(s) && IsStoreEvent(e)
    ensures FlightInv(s.(store := StoreAfter(s.store, e)))
  {
    var s' := s.(store := StoreAfter(s.store, e));
    assert SlotsMatch(s') && PromisesMatch(s');
    forall q | q in s'.requests ensures OutcomeOk(s', q) {
      assert OutcomeOk(s, q);
    }
  }

  lemma {:induction false} FlightAlways(s: State, events: seq<Event>)
    requires FlightInv(s) && IsRun(s, events)
    ensures FlightInv(After(s, events))
    decreases |events|
  {
    if events != [] {
      FlightKept(s, events[0]);
      FlightAlways(Next(s, events[0]), events[1..]);
    }
  }

  /** An attempt that can still step has not settled its promise. */
  lemma NoResultYet(s: State, e: Event)
    requires PromisesMatch(s) && Enabled(s, e) && !IsStoreEvent(e) && !e.LeaderReturns? && !e.WaiterReturns?
    ensures e.r !in s.results
  {
    StillRunning(s, e);
  }

  lemma StillRunning(s: State, e: Event)
    requires Enabled(s, e) && !IsStoreEvent(e) && !e.LeaderReturns? && !e.WaiterReturns?
    ensures e.r in s.requests ==> !s.requests[e.r].phase.Resolved? && !s.requests[e.r].phase.Done?
  {
  }

  // ----- Main results for the in-flight map -----

  /** The states some run of the deployment reaches. */
  ghost predicate Reachable(s: State) {
    exists mode, events :: IsRun(Start(mode), events) && s == After(Start(mode), events)
  }

  lemma ReachableFlight(s: State)
    requires Reachable(s)
    ensures FlightInv(s)
  {
    var mode, events :| IsRun(Start(mode), events) && s == After(Start(mode), events);
    FlightAlways(Start(mode), events);
  }

  /** In one gate, at most one attempt per key is running. */
  lemma OneAttemptPerKey(s: State, q: Rid, r: Rid)
    requires Reachable(s) && q in s.requests && r in s.requests
    requires Leading(s.requests[q].phase) && Leading(s.requests[r].phase)
    requires s.requests[q].gate == s.requests[r].gate && s.requests[q].key == s.requests[r].key
    ensures q == r
  {
    ReachableFlight(s);
    assert s.inFlight[Slot(s.requests[q])] == q && s.inFlight[Slot(s.requests[r])] == r;
  }

  /** The in-flight entry of a slot exists exactly while its leader runs, from the
      insertion to the `finally`. */
  lemma EntryExactlyWhileLeading(s: State, r: Rid, slot: (GateId, Key))
    requires Reachable(s)
    ensures (slot in s.inFlight && s.inFlight[slot] == r) <==>
            (r in s.requests && Slot(s.requests[r]) == slot && Leading(s.requests[r].phase))
  {
    ReachableFlight(s);
  }

  /** What a leader deletes is its own entry, and nobody else's goes with it. */
  lemma LeaderDeletesOwnEntry(s: State, r: Rid)
    requires Reachable(s) && Enabled(s, LeaderReturns(r))
    ensures var slot, s' := Slot(s.requests[r]), Next(s, LeaderReturns(r));
            && slot in s.inFlight && s.inFlight[slot] == r && slot !in s'.inFlight
            && forall q :: q in s.inFlight && q != slot ==> q in s'.inFlight && s'.inFlight[q] == s.inFlight[q]
  {
    ReachableFlight(s);
    assert Leading(s.requests[r].phase);
  }

  /** A request that did not settle its own attempt ends with the result of an
      attempt of the same gate and key, and never reports its cache error. */
  lemma WaiterSharesResult(s: State, r: Rid, l: Rid)
    requires Reachable(s) && r in s.requests && l != r
    requires s.requests[r].phase.Done? && s.requests[r].phase.attempt == Some(l)
    ensures l in s.requests && l in s.results && Slot(s.requests[l]) == Slot(s.requests[r])
    ensures s.requests[r].phase.outcome == ToOutcome(s.results[l], s.requests[r].offer, true)
    ensures s.requests[r].phase.outcome.Paid? ==> s.requests[r].phase.outcome.cacheError.None?
  {
    ReachableFlight(s);
    assert OutcomeOk(s, r);
  }

  /** When every request has ended, the in-flight maps are empty. */
  lemma InFlightEmptiesOut(s: State)
    requires Reachable(s)
    requires forall r :: r in s.requests ==> s.requests[r].phase.Done?
    ensures s.inFlight == map[]
  {
    ReachableFlight(s);
    if slot :| slot in s.inFlight {
      assert false;
    }
    assert s.inFlight.Keys == {};
  }

  // ----- Progress -----

  function Rank(phase: Phase): nat {
    match phase
    case Verifying => 9
    case Reading => 8
    case Acquiring => 7
    case Rechecking => 6
    case Settling => 5
    case Signing(_) => 4
    case Writing(_) => 3
    case Releasing(_) => 2
    case ReleasingAfterThrow(_) => 2
    case Resolved => 1
    case Waiting(_) => 1
    case Done(_, _) => 0
  }

  /** How many more steps a request can take. */
  function Budget(s: State, r: Rid): nat {
    if r in s.requests then Rank(s.requests[r].phase) else 10
  }

  function StepsOf(events: seq<Event>, r: Rid): nat {
    if events == [] then 0
    else (if !IsStoreEvent(events[0]) && events[0].r == r then 1 else 0) + StepsOf(events[1..], r)
  }

  lemma SettlingSpendsBudget(s: State, e: Event)
    requires Enabled(s, e)
    requires e.SettleReturns? || e.SettleRefuses? || e.SettleThrows? || e.SignReturns? || e.SignThrows? || e.WriteReturns? || e.WriteThrows?
    ensures Rank(StepOf(s, e).request.phase) < Budget(s, e.r)
  {
  }

  lemma StepSpendsBudget(s: State, e: Event)
    requires Enabled(s, e) && !IsStoreEvent(e)
    ensures Rank(StepOf(s, e).request.phase) < Budget(s, e.r)
  {
    if e.SettleReturns? || e.SettleRefuses? || e.SettleThrows? || e.SignReturns? || e.SignThrows? || e.WriteReturns? || e.WriteThrows? {
      SettlingSpendsBudget(s, e);
    }
  }

  lemma {:induction false} BoundedSteps(s: State, events: seq<Event>, r: Rid)
    requires IsRun(s, events)
    ensures StepsOf(events, r) + Budget(After(s, events), r) <= Budget(s, r)
    decreases |events|
  {
    if events != [] {
      if !IsStoreEvent(events[0]) {
        StepSpendsBudget(s, events[0]);
      }
      BoundedSteps(Next(s, events[0]), events[1..], r);
    }
  }

  /** No run keeps a request busy for more than ten steps. */
  lemma TenSteps(mode: CacheMode, events: seq<Event>, r: Rid)
    requires IsRun(Start(mode), events)
    ensures StepsOf(events, r) <= 10
  {
    BoundedSteps(Start(mode), events, r);
  }

  /** A step that the request in this phase can take as soon as the call it
      waits for answers. */
  function Answer(r: Rid, phase: Phase): Event {
    match phase
    case Verifying => VerifyThrows(r)
    case Waiting(_) => WaiterReturns(r)
    case Reading => ReadReturns(r)
    case Acquiring => AcquireReturns(r)
    case Rechecking => RecheckReturns(r)
    case Settling => SettleThrows(r)
    case Signing(_) => SignThrows(r)
    case Writing(_) => WriteReturns(r)
    case Releasing(_) => ReleaseReturns(r)
    case ReleasingAfterThrow(_) => ReleaseReturns(r)
    case Resolved => LeaderReturns(r)
    case Done(_, _) => LeaderReturns(r)
  }

  lemma AnswerEnabled(s: State, r: Rid)
    requires PromisesMatch(s) && r in s.requests
    requires !s.requests[r].phase.Done? && !s.requests[r].phase.Waiting?
    ensures Enabled(s, Answer(r, s.requests[r].phase))
  {
  }

  /** No request is ever stuck: it can step, or it waits for an attempt that
      can. */
  lemma NeverStuck(s: State, r: Rid) returns (e: Event)
    requires Reachable(s) && r in s.requests && !s.requests[r].phase.Done?
    ensures Enabled(s, e) && !IsStoreEvent(e)
    ensures e.r == r || s.requests[r].phase == Waiting(e.r)
  {
    ReachableFlight(s);
    assert OutcomeOk(s, r);
    if !s.requests[r].phase.Waiting? {
      AnswerEnabled(s, r);
      e := Answer(r, s.requests[r].phase);
    } else if s.requests[r].phase.leader in s.results {
      e := WaiterReturns(r);
    } else {
      var l := s.requests[r].phase.leader;
      AnswerEnabled(s, l);
      e := Answer(l, s.requests[l].phase);
    }
  }
}
