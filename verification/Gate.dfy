/** packages/server/src/gate.ts as a transition system. The code between two
    awaits is one atomic step; any number of requests run in any number of
    gates over one shared store, and an adversary picks the interleaving and
    the result of every awaited call. */
module Gate {
  import opened JsText
  import opened Receipts

  type Rid = nat       // one request
  type GateId = nat    // one process, with its own in-flight map
  type Key = Text      // `<model>:<nonce>`

  /** No cache; a cache without acquire and release; a cache with both. */
  datatype CacheMode = NoCache | Plain | Locking

  datatype CacheError = WriteFailed | ReleaseFailed

  datatype Error =
    | VerifyError | ReadError | AcquireError | SettleError | SignError | CallbackError | ReleaseError
    | AggregateError(original: Error)

  /** A handler's own words, or one of the gate's two conflict reasons. */
  datatype Reason = Stated(text: Text) | DifferentOffer | InProgress

  /** The result of one settlement attempt, or what it threw. */
  datatype Attempt =
    | Ok(receipt: Receipt, replayed: bool, cacheError: Option<CacheError>)
    | Refused(status: int, reason: Reason)
    | Threw(error: Error)

  datatype Outcome =
    | Paid(receipt: Receipt, replayed: bool, cacheError: Option<CacheError>)
    | Rejected(status: int, reason: Reason)
    | Failed(error: Error)

  const OFFER_MISMATCH: Outcome := Rejected(409, DifferentOffer)
  const SETTLEMENT_IN_PROGRESS: Attempt := Refused(409, InProgress)

  /** What a request is waiting for. `Done` names the attempt it took its
      outcome from, if any. */
  datatype Phase =
    | Verifying
    | Waiting(leader: Rid)
    | Reading
    | Acquiring
    | Rechecking
    | Settling
    | Signing(txHash: Text)
    | Writing(signed: Receipt)
    | Releasing(result: Attempt)
    | ReleasingAfterThrow(error: Error)
    | Resolved
    | Done(outcome: Outcome, attempt: Option<Rid>)

  datatype Request = Request(gate: GateId, offer: Offer, key: Key, payer: Text, phase: Phase)

  /** The shared store: cached receipts and settlement locks. */
  datatype Store = Store(entries: map<Key, Receipt>, locks: set<Key>)

  datatype Settle = Settle(rid: Rid, key: Key, txHash: Text)

  /** What happened so far; read by the theorems only. */
  datatype History = History(
    settles: seq<Settle>,        // every settle call that reported success
    acquired: set<Rid>,          // requests that were given the lock
    releases: multiset<Rid>,     // release calls, by request
    mishaps: set<Rid>            // requests whose signing failed or whose onCacheError threw
  )

  datatype State = State(
    mode: CacheMode,
    requests: map<Rid, Request>,
    results: map<Rid, Attempt>,          // attempt promises that have settled
    inFlight: map<(GateId, Key), Rid>,   // every gate's in-flight map
    store: Store,
    history: History
  )

  function Start(mode: CacheMode): State {
    State(mode, map[], map[], map[], Store(map[], {}), History([], {}, multiset{}, {}))
  }

  datatype Event =
    | Arrive(r: Rid, gate: GateId, offer: Offer)
    | VerifyInvalid(r: Rid, reason: Text)
    | VerifyThrows(r: Rid)
    | VerifyValid(r: Rid, payer: Text, nonce: Text)
    | ReadReturns(r: Rid)
    | ReadThrows(r: Rid)
    | AcquireReturns(r: Rid)
    | AcquireThrows(r: Rid, applied: bool)
    | RecheckReturns(r: Rid)
    | RecheckThrows(r: Rid)
    | SettleReturns(r: Rid, txHash: Text)
    | SettleRefuses(r: Rid, reason: Text)
    | SettleThrows(r: Rid)
    | SignReturns(r: Rid, id: Text, issuedAt: Text, signature: Text)
    | SignThrows(r: Rid)
    | WriteReturns(r: Rid)
    | WriteThrows(r: Rid, applied: bool, callbackThrows: bool)
    | ReleaseReturns(r: Rid)
    | ReleaseThrows(r: Rid, applied: bool, callbackThrows: bool)
    | LeaderReturns(r: Rid)
    | WaiterReturns(r: Rid)
    | LockExpires(key: Key)
    | EntryExpires(key: Key)
    | ForeignWrite(key: Key, receipt: Receipt)

  predicate IsReleasing(phase: Phase) {
    phase.Releasing? || phase.ReleasingAfterThrow?
  }

  predicate Enabled(s: State, e: Event) {
    match e
    case Arrive(r, _, _) => r !in s.requests
    case VerifyInvalid(r, _) => r in s.requests && s.requests[r].phase.Verifying?
    case VerifyThrows(r) => r in s.requests && s.requests[r].phase.Verifying?
    case VerifyValid(r, _, _) => r in s.requests && s.requests[r].phase.Verifying?
    case ReadReturns(r) => r in s.requests && s.requests[r].phase.Reading?
    case ReadThrows(r) => r in s.requests && s.requests[r].phase.Reading? && !s.mode.NoCache?
    case AcquireReturns(r) => r in s.requests && s.requests[r].phase.Acquiring?
    case AcquireThrows(r, _) => r in s.requests && s.requests[r].phase.Acquiring?
    case RecheckReturns(r) => r in s.requests && s.requests[r].phase.Rechecking?
    case RecheckThrows(r) => r in s.requests && s.requests[r].phase.Rechecking?
    case SettleReturns(r, _) => r in s.requests && s.requests[r].phase.Settling?
    case SettleRefuses(r, _) => r in s.requests && s.requests[r].phase.Settling?
    case SettleThrows(r) => r in s.requests && s.requests[r].phase.Settling?
    case SignReturns(r, _, _, _) => r in s.requests && s.requests[r].phase.Signing?
    case SignThrows(r) => r in s.requests && s.requests[r].phase.Signing?
    case WriteReturns(r) => r in s.requests && s.requests[r].phase.Writing?
    case WriteThrows(r, _, _) => r in s.requests && s.requests[r].phase.Writing?
    case ReleaseReturns(r) => r in s.requests && IsReleasing(s.requests[r].phase)
    case ReleaseThrows(r, _, _) => r in s.requests && IsReleasing(s.requests[r].phase)
    case LeaderReturns(r) => r in s.requests && s.requests[r].phase.Resolved? && r in s.results
    case WaiterReturns(r) => r in s.requests && s.requests[r].phase.Waiting? && s.requests[r].phase.leader in s.results
    case LockExpires(_) => true
    case EntryExpires(_) => true
    case ForeignWrite(_, _) => true
  }

  // ----- gate.ts, piece by piece -----

  /** toOutcome. */
  function ToOutcome(result: Attempt, offer: Offer, waited: bool): Outcome {
    match result
    case Threw(error) => Failed(error)
    case Refused(status, reason) => Rejected(status, reason)
    case Ok(receipt, replayed, cacheError) =>
      if ReceiptBinding(receipt) != OfferBinding(offer) then OFFER_MISMATCH
      else Paid(receipt, waited || replayed, if waited then None else cacheError)
  }

  /** What one step of a request changes: its own record, its own promise and
      the shared parts. */
  datatype Change = Change(request: Request, result: Option<Attempt>, inFlight: map<(GateId, Key), Rid>,
                           store: Store, history: History)

  /** The request moves on and nothing else changes. */
  function To(s: State, r: Rid, phase: Phase): Change
    requires r in s.requests
  {
    Change(s.requests[r].(phase := phase), None, s.inFlight, s.store, s.history)
  }

  /** The attempt of request r settles its promise. */
  function Resolve(s: State, r: Rid, result: Attempt): Change
    requires r in s.requests
  {
    To(s, r, Resolved).(result := Some(result))
  }

  /** settleAndRecord returns or throws: straight to the promise without a lock,
      by way of the release with one. */
  function Conclude(s: State, r: Rid, result: Attempt): Change
    requires r in s.requests
  {
    if !s.mode.Locking? then Resolve(s, r, result)
    else To(s, r, if result.Threw? then ReleasingAfterThrow(result.error) else Releasing(result))
  }

  /** settleWithHandler after a valid verification: join the attempt in flight,
      or start one. */
  function Enter(s: State, r: Rid, payer: Text, nonce: Text): Change
    requires r in s.requests
  {
    var key := s.requests[r].offer.model + [COLON] + nonce;
    var slot := (s.requests[r].gate, key);
    var request := s.requests[r].(key := key, payer := payer);
    if slot in s.inFlight then
      Change(request.(phase := Waiting(s.inFlight[slot])), None, s.inFlight, s.store, s.history)
    else
      Change(request.(phase := Reading), None, s.inFlight[slot := r], s.store, s.history)
  }

  function Lookup(s: State, key: Key): Option<Receipt> {
    if !s.mode.NoCache? && key in s.store.entries then Some(s.store.entries[key]) else None
  }

  /** settleOnce after the first lookup. */
  function AfterRead(s: State, r: Rid): Change
    requires r in s.requests
  {
    var cached := Lookup(s, s.requests[r].key);
    if cached.Some? then Resolve(s, r, Ok(cached.value, true, None))
    else To(s, r, if s.mode.Locking? then Acquiring else Settling)
  }

  /** settleOnce after acquire: SET NX succeeds when the lock is absent. */
  function AfterAcquire(s: State, r: Rid): Change
    requires r in s.requests
  {
    var key := s.requests[r].key;
    if key in s.store.locks then Resolve(s, r, SETTLEMENT_IN_PROGRESS)
    else
      To(s, r, Rechecking).(store := s.store.(locks := s.store.locks + {key}),
                            history := s.history.(acquired := s.history.acquired + {r}))
  }

  /** A failed acquire may still have taken the lock. */
  function AfterAcquireFailure(s: State, r: Rid, applied: bool): Change
    requires r in s.requests
  {
    var locks := if applied then s.store.locks + {s.requests[r].key} else s.store.locks;
    Resolve(s, r, Threw(AcquireError)).(store := s.store.(locks := locks))
  }

  /** settleOnce after the second lookup, lock held. */
  function AfterRecheck(s: State, r: Rid): Change
    requires r in s.requests
  {
    var cached := Lookup(s, s.requests[r].key);
    if cached.Some? then To(s, r, Releasing(Ok(cached.value, true, None)))
    else To(s, r, Settling)
  }

  function AfterSettle(s: State, r: Rid, txHash: Text): Change
    requires r in s.requests
  {
    var settle := Settle(r, s.requests[r].key, txHash);
    To(s, r, Signing(txHash)).(history := s.history.(settles := s.history.settles + [settle]))
  }

  /** buildReceipt and signReceipt. */
  function Issue(request: Request, txHash: Text, id: Text, issuedAt: Text, signature: Text): Receipt {
    Receipt(id, request.payer, request.offer.payTo, request.offer.amount, request.offer.asset,
            request.offer.resource, request.offer.model, txHash, request.offer.network, issuedAt, signature)
  }

  function AfterSign(s: State, r: Rid, id: Text, issuedAt: Text, signature: Text): Change
    requires r in s.requests && s.requests[r].phase.Signing?
  {
    var receipt := Issue(s.requests[r], s.requests[r].phase.txHash, id, issuedAt, signature);
    if s.mode.NoCache? then Resolve(s, r, Ok(receipt, false, None)) else To(s, r, Writing(receipt))
  }

  /** The request is one whose signing failed or whose callback threw. */
  function Marked(s: State, r: Rid): History {
    s.history.(mishaps := s.history.mishaps + {r})
  }

  function Stored(s: State, r: Rid): Store
    requires r in s.requests && s.requests[r].phase.Writing?
  {
    s.store.(entries := s.store.entries[s.requests[r].key := s.requests[r].phase.signed])
  }

  function AfterWrite(s: State, r: Rid): Change
    requires r in s.requests && s.requests[r].phase.Writing?
  {
    Conclude(s, r, Ok(s.requests[r].phase.signed, false, None)).(store := Stored(s, r))
  }

  /** The write failed, perhaps after taking effect: the receipt is kept unless
      onCacheError throws. */
  function AfterWriteFailure(s: State, r: Rid, applied: bool, callbackThrows: bool): Change
    requires r in s.requests && s.requests[r].phase.Writing?
  {
    var store := if applied then Stored(s, r) else s.store;
    if callbackThrows then Conclude(s, r, Threw(CallbackError)).(store := store, history := Marked(s, r))
    else Conclude(s, r, Ok(s.requests[r].phase.signed, false, Some(WriteFailed))).(store := store)
  }

  /** What one release call settles the promise with. */
  function ReleaseResult(phase: Phase, failed: bool, callbackThrows: bool): Attempt
    requires IsReleasing(phase)
  {
    if phase.ReleasingAfterThrow? then Threw(if failed then AggregateError(phase.error) else phase.error)
    else if !failed then phase.result
    else if !phase.result.Ok? || phase.result.replayed then Threw(ReleaseError)
    else if callbackThrows then Threw(CallbackError)
    else phase.result.(cacheError := if phase.result.cacheError.Some? then phase.result.cacheError else Some(ReleaseFailed))
  }

  /** One release call; `applied` says whether the lock was deleted. A failure
      surfaces unless this request has just settled. */
  function AfterRelease(s: State, r: Rid, applied: bool, failed: bool, callbackThrows: bool): Change
    requires r in s.requests && IsReleasing(s.requests[r].phase)
  {
    var phase := s.requests[r].phase;
    var locks := if applied then s.store.locks - {s.requests[r].key} else s.store.locks;
    var reported := failed && phase.Releasing? && phase.result.Ok? && !phase.result.replayed;
    var history := if reported && callbackThrows then Marked(s, r) else s.history;
    Resolve(s, r, ReleaseResult(phase, failed, callbackThrows))
      .(store := s.store.(locks := locks), history := history.(releases := s.history.releases + multiset{r}))
  }

  function Finish(s: State, r: Rid, attempt: Rid): Change
    requires r in s.requests && attempt in s.results
  {
    To(s, r, Done(ToOutcome(s.results[attempt], s.requests[r].offer, attempt != r), Some(attempt)))
  }

  /** The leader's `finally`. */
  function Leave(s: State, r: Rid): Change
    requires r in s.requests && r in s.results
  {
    Finish(s, r, r).(inFlight := s.inFlight - {(s.requests[r].gate, s.requests[r].key)})
  }

  // ----- Steps -----

  /** Events of the store rather than of a request. */
  predicate IsStoreEvent(e: Event) {
    e.LockExpires? || e.EntryExpires? || e.ForeignWrite?
  }

  function StoreAfter(store: Store, e: Event): Store
    requires IsStoreEvent(e)
  {
    match e
    case LockExpires(key) => store.(locks := store.locks - {key})
    case EntryExpires(key) => store.(entries := store.entries - {key})
    case ForeignWrite(key, receipt) => store.(entries := store.entries[key := receipt])
  }

  function StepOf(s: State, e: Event): Change
    requires Enabled(s, e) && !IsStoreEvent(e)
  {
    match e
    case Arrive(r, gate, offer) =>
      Change(Request(gate, offer, [], [], Verifying), None, s.inFlight, s.store, s.history)
    case VerifyInvalid(r, reason) => To(s, r, Done(Rejected(402, Stated(reason)), None))
    case VerifyThrows(r) => To(s, r, Done(Failed(VerifyError), None))
    case VerifyValid(r, payer, nonce) => Enter(s, r, payer, nonce)
    case ReadReturns(r) => AfterRead(s, r)
    case ReadThrows(r) => Resolve(s, r, Threw(ReadError))
    case AcquireReturns(r) => AfterAcquire(s, r)
    case AcquireThrows(r, applied) => AfterAcquireFailure(s, r, applied)
    case RecheckReturns(r) => AfterRecheck(s, r)
    case RecheckThrows(r) => To(s, r, ReleasingAfterThrow(ReadError))
    case SettleReturns(r, txHash) => AfterSettle(s, r, txHash)
    case SettleRefuses(r, reason) => Conclude(s, r, Refused(502, Stated(reason)))
    case SettleThrows(r) => Conclude(s, r, Threw(SettleError))
    case SignReturns(r, id, issuedAt, signature) => AfterSign(s, r, id, issuedAt, signature)
    case SignThrows(r) => Conclude(s, r, Threw(SignError)).(history := Marked(s, r))
    case WriteReturns(r) => AfterWrite(s, r)
    case WriteThrows(r, applied, callbackThrows) => AfterWriteFailure(s, r, applied, callbackThrows)
    case ReleaseReturns(r) => AfterRelease(s, r, true, false, false)
    case ReleaseThrows(r, applied, callbackThrows) => AfterRelease(s, r, applied, true, callbackThrows)
    case LeaderReturns(r) => Leave(s, r)
    case WaiterReturns(r) => Finish(s, r, s.requests[r].phase.leader)
  }

  function Apply(s: State, r: Rid, c: Change): State {
    State(s.mode, s.requests[r := c.request],
          if c.result.Some? then s.results[r := c.result.value] else s.results,
          c.inFlight, c.store, c.history)
  }

  function Next(s: State, e: Event): State
    requires Enabled(s, e)
  {
    if IsStoreEvent(e) then s.(store := StoreAfter(s.store, e)) else Apply(s, e.r, StepOf(s, e))
  }

  // ----- Runs -----

  /** The run is possible from s: every event is enabled when its turn comes. */
  predicate IsRun(s: State, events: seq<Event>)
    decreases |events|
  {
    events == [] || (Enabled(s, events[0]) && IsRun(Next(s, events[0]), events[1..]))
  }

  /** The state after a run. */
  function After(s: State, events: seq<Event>): State
    requires IsRun(s, events)
    decreases |events|
  {
    if events == [] then s else After(Next(s, events[0]), events[1..])
  }
}
