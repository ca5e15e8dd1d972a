/** The hypotheses are needed: for each of the four that keep a payment from
    settling twice, a run in which only that one fails and it does; a run in which
    a foreign write splits one purchase over two receipts; and a run in which a
    throwing onCacheError costs a settled payer the receipt. */
module GateLimits {
  import opened JsText
  import opened Receipts
  import opened Gate

  const OFFER: Offer := Offer([], [], [], [], [], [])
  const KEY: Key := [COLON]

  lemma OneStep(s: State, e: Event)
    requires Enabled(s, e)
    ensures IsRun(s, [e]) && After(s, [e]) == Next(s, e)
  {
    assert [e][1..] == [];
    assert After(Next(s, e), []) == Next(s, e);
  }

  lemma TwoSteps(s: State, e: Event, e': Event)
    requires Enabled(s, e) && Enabled(Next(s, e), e')
    ensures IsRun(s, [e, e']) && After(s, [e, e']) == Next(Next(s, e), e')
  {
    OneStep(Next(s, e), e');
    assert [e, e'][1..] == [e'];
  }

  lemma {:induction false} RunConcat(s: State, a: seq<Event>, b: seq<Event>)
    requires IsRun(s, a) && IsRun(After(s, a), b)
    ensures IsRun(s, a + b) && After(s, a + b) == After(After(s, a), b)
    decreases |a|
  {
    if a == [] {
      assert a + b == b;
    } else {
      RunConcat(Next(s, a[0]), a[1..], b);
      assert (a + b)[0] == a[0] && (a + b)[1..] == a[1..] + b;
    }
  }

  // ----- One request up to its settle call -----

  function At(s: State, r: Rid, gate: GateId, phase: Phase): State {
    s.(requests := s.requests[r := Request(gate, OFFER, KEY, [], phase)], inFlight := s.inFlight[(gate, KEY) := r])
  }

  function WithLock(s: State, r: Rid): State {
    s.(store := s.store.(locks := s.store.locks + {KEY}), history := s.history.(acquired := s.history.acquired + {r}))
  }

  function WithCharge(s: State, r: Rid): State {
    s.(history := s.history.(settles := s.history.settles + [Settle(r, KEY, [])]))
  }

  /** The request finds its slot, its key and the lock free. */
  ghost predicate Free(s: State, r: Rid, gate: GateId) {
    && s.mode.Locking? && r !in s.requests && (gate, KEY) !in s.inFlight
    && KEY !in s.store.locks && KEY !in s.store.entries
  }

  lemma Entering(s: State, r: Rid, gate: GateId)
    requires Free(s, r, gate)
    ensures var run := [Arrive(r, gate, OFFER), VerifyValid(r, [], [])];
            IsRun(s, run) && After(s, run) == At(s, r, gate, Reading)
  {
    var s1 := Next(s, Arrive(r, gate, OFFER));
    assert s1.requests[r].offer.model + [COLON] + [] == KEY;
    TwoSteps(s, Arrive(r, gate, OFFER), VerifyValid(r, [], []));
    assert Next(s1, VerifyValid(r, [], [])) == At(s, r, gate, Reading);
  }

  lemma Missing(s: State, r: Rid, gate: GateId)
    requires Free(s, r, gate)
    ensures Enabled(At(s, r, gate, Reading), ReadReturns(r))
    ensures Next(At(s, r, gate, Reading), ReadReturns(r)) == At(s, r, gate, Acquiring)
  {
  }

  lemma Taking(s: State, r: Rid, gate: GateId)
    requires Free(s, r, gate)
    ensures Enabled(At(s, r, gate, Acquiring), AcquireReturns(r))
    ensures Next(At(s, r, gate, Acquiring), AcquireReturns(r)) == WithLock(At(s, r, gate, Rechecking), r)
  {
  }

  lemma TakingLock(s: State, r: Rid, gate: GateId)
    requires Free(s, r, gate)
    ensures var run := [ReadReturns(r), AcquireReturns(r)];
            IsRun(At(s, r, gate, Reading), run) && After(At(s, r, gate, Reading), run) == WithLock(At(s, r, gate, Rechecking), r)
  {
    Missing(s, r, gate);
    Taking(s, r, gate);
    TwoSteps(At(s, r, gate, Reading), ReadReturns(r), AcquireReturns(r));
  }

  lemma MissingAgain(s: State, r: Rid, gate: GateId)
    requires Free(s, r, gate)
    ensures Enabled(WithLock(At(s, r, gate, Rechecking), r), RecheckReturns(r))
    ensures Next(WithLock(At(s, r, gate, Rechecking), r), RecheckReturns(r)) == WithLock(At(s, r, gate, Settling), r)
  {
  }

  lemma Paying(s: State, r: Rid, gate: GateId)
    requires Free(s, r, gate)
    ensures Enabled(WithLock(At(s, r, gate, Settling), r), SettleReturns(r, []))
    ensures Next(WithLock(At(s, r, gate, Settling), r), SettleReturns(r, [])) ==
              WithCharge(WithLock(At(s, r, gate, Signing([])), r), r)
  {
  }

  lemma Charging(s: State, r: Rid, gate: GateId)
    requires Free(s, r, gate)
    ensures var s0, run := WithLock(At(s, r, gate, Rechecking), r), [RecheckReturns(r), SettleReturns(r, [])];
            IsRun(s0, run) && After(s0, run) == WithCharge(WithLock(At(s, r, gate, Signing([])), r), r)
  {
    MissingAgain(s, r, gate);
    Paying(s, r, gate);
    TwoSteps(WithLock(At(s, r, gate, Rechecking), r), RecheckReturns(r), SettleReturns(r, []));
  }

  /** From arrival to a successful settle call. */
  function Charge(r: Rid, gate: GateId): seq<Event> {
    [Arrive(r, gate, OFFER), VerifyValid(r, [], [])]
    + ([ReadReturns(r), AcquireReturns(r)] + [RecheckReturns(r), SettleReturns(r, [])])
  }

  lemma ChargeRuns(s: State, r: Rid, gate: GateId)
    requires Free(s, r, gate)
    ensures IsRun(s, Charge(r, gate))
    ensures After(s, Charge(r, gate)) == WithCharge(WithLock(At(s, r, gate, Signing([])), r), r)
  {
    var enter, lock, charge :=
      [Arrive(r, gate, OFFER), VerifyValid(r, [], [])], [ReadReturns(r), AcquireReturns(r)],
      [RecheckReturns(r), SettleReturns(r, [])];
    Entering(s, r, gate);
    TakingLock(s, r, gate);
    Charging(s, r, gate);
    RunConcat(At(s, r, gate, Reading), lock, charge);
    RunConcat(s, enter, lock + charge);
  }

  // ----- The same payment in two gates, with one fault in between -----

  /** The first request has settled in gate 0 and is about to be signed. */
  ghost predicate Begun(s: State) {
    && s.mode.Locking? && s.results == map[]
    && s.requests == map[0 := Request(0, OFFER, KEY, [], Signing([]))] && s.inFlight == map[(0, KEY) := 0]
    && s.store == Store(map[], {KEY}) && s.history.settles == [Settle(0, KEY, [])]
  }

  lemma FirstCharge() returns (s: State)
    ensures Begun(s) && IsRun(Start(Locking), Charge(0, 0)) && s == After(Start(Locking), Charge(0, 0))
  {
    var s0 := Start(Locking);
    ChargeRuns(s0, 0, 0);
    s := WithCharge(WithLock(At(s0, 0, 0, Signing([])), 0), 0);
  }

  /** After the fault the same payment reaches gate 1, where nothing stops it. */
  ghost predicate Frees(s: State, fault: seq<Event>) {
    IsRun(s, fault) && Free(After(s, fault), 1, 1) && After(s, fault).history.settles == [Settle(0, KEY, [])]
  }

  /** A run of two gates over one locking cache that settles one payment twice. */
  ghost predicate SettlesTwice(events: seq<Event>) {
    IsRun(Start(Locking), events) &&
    After(Start(Locking), events).history.settles == [Settle(0, KEY, []), Settle(1, KEY, [])]
  }

  lemma SecondCharge(s: State, first: seq<Event>, fault: seq<Event>)
    requires IsRun(Start(Locking), first) && s == After(Start(Locking), first) && Frees(s, fault)
    ensures SettlesTwice(first + (fault + Charge(1, 1)))
  {
    ChargeRuns(After(s, fault), 1, 1);
    RunConcat(s, fault, Charge(1, 1));
    RunConcat(Start(Locking), first, fault + Charge(1, 1));
  }

  function Sign(r: Rid): Event {
    SignReturns(r, [], [], [])
  }

  lemma ExpiryFrees(s: State)
    requires Begun(s)
    ensures Frees(s, [LockExpires(KEY)])
  {
    OneStep(s, LockExpires(KEY));
  }

  lemma SignFailureFrees(s: State)
    requires Begun(s)
    ensures Frees(s, [SignThrows(0), ReleaseReturns(0)])
  {
    TwoSteps(s, SignThrows(0), ReleaseReturns(0));
  }

  /** The first request has signed its receipt and is back from the cache
      write, about to release. */
  ghost predicate Returning(s: State, phase: Phase) {
    && s.mode.Locking? && IsReleasing(phase)
    && s.requests == map[0 := Request(0, OFFER, KEY, [], phase)] && s.inFlight == map[(0, KEY) := 0]
    && s.store.locks == {KEY} && s.history.settles == [Settle(0, KEY, [])]
  }

  /** The receipt of the first request. */
  const SIGNED: Receipt := Issue(Request(0, OFFER, KEY, [], Signing([])), [], [], [], [])

  ghost predicate Signed(s: State) {
    && s.mode.Locking? && s.results == map[]
    && s.requests == map[0 := Request(0, OFFER, KEY, [], Writing(SIGNED))] && s.inFlight == map[(0, KEY) := 0]
    && s.store == Store(map[], {KEY}) && s.history.settles == [Settle(0, KEY, [])]
  }

  lemma SignStep(s: State)
    requires Begun(s)
    ensures Enabled(s, Sign(0)) && Signed(Next(s, Sign(0)))
  {
  }

  lemma WriteStep(s: State, write: Event)
    requires Signed(s)
    requires write == WriteReturns(0) || write == WriteThrows(0, true, true) || write == WriteThrows(0, false, false)
    ensures Enabled(s, write) && 0 in Next(s, write).requests && Returning(Next(s, write), Next(s, write).requests[0].phase)
    ensures write == WriteReturns(0) ==> Next(s, write).requests[0].phase == Releasing(Ok(SIGNED, false, None))
    ensures write == WriteThrows(0, true, true) ==> Next(s, write).requests[0].phase == ReleasingAfterThrow(CallbackError)
    ensures write == WriteThrows(0, false, false) ==> Next(s, write).store.entries == map[]
  {
  }

  lemma SignAndWrite(s: State, write: Event) returns (t: State, phase: Phase)
    requires Begun(s)
    requires write == WriteReturns(0) || write == WriteThrows(0, true, true) || write == WriteThrows(0, false, false)
    ensures IsRun(s, [Sign(0), write]) && t == After(s, [Sign(0), write]) && Returning(t, phase)
    ensures write == WriteReturns(0) ==> phase == Releasing(Ok(SIGNED, false, None))
    ensures write == WriteThrows(0, true, true) ==> phase == ReleasingAfterThrow(CallbackError)
    ensures write == WriteThrows(0, false, false) ==> t.store.entries == map[]
  {
    SignStep(s);
    WriteStep(Next(s, Sign(0)), write);
    TwoSteps(s, Sign(0), write);
    t := Next(Next(s, Sign(0)), write);
    phase := t.requests[0].phase;
  }

  lemma ReleaseFrees(t: State, phase: Phase)
    requires Returning(t, phase) && t.store.entries == map[]
    ensures Frees(t, [ReleaseReturns(0)])
  {
    OneStep(t, ReleaseReturns(0));
  }

  lemma LostWriteFrees(s: State)
    requires Begun(s)
    ensures Frees(s, [Sign(0), WriteThrows(0, false, false)] + [ReleaseReturns(0)])
  {
    var t, phase := SignAndWrite(s, WriteThrows(0, false, false));
    ReleaseFrees(t, phase);
    RunConcat(s, [Sign(0), WriteThrows(0, false, false)], [ReleaseReturns(0)]);
  }

  lemma ExpireAfterRelease(t: State, phase: Phase)
    requires Returning(t, phase)
    ensures Frees(t, [ReleaseReturns(0), EntryExpires(KEY)])
  {
    TwoSteps(t, ReleaseReturns(0), EntryExpires(KEY));
  }

  lemma EntryExpiryFrees(s: State)
    requires Begun(s)
    ensures Frees(s, [Sign(0), WriteReturns(0)] + [ReleaseReturns(0), EntryExpires(KEY)])
  {
    var t, phase := SignAndWrite(s, WriteReturns(0));
    ExpireAfterRelease(t, phase);
    RunConcat(s, [Sign(0), WriteReturns(0)], [ReleaseReturns(0), EntryExpires(KEY)]);
  }

  /** The four hypotheses of the at-most-once result, each broken alone: the
      lock expires under its holder, signing fails, a write is lost, a cached
      receipt expires. */
  lemma HypothesesNeeded()
    ensures SettlesTwice(Charge(0, 0) + ([LockExpires(KEY)] + Charge(1, 1)))
    ensures SettlesTwice(Charge(0, 0) + ([SignThrows(0), ReleaseReturns(0)] + Charge(1, 1)))
    ensures SettlesTwice(Charge(0, 0) + ([Sign(0), WriteThrows(0, false, false)] + [ReleaseReturns(0)] + Charge(1, 1)))
    ensures SettlesTwice(Charge(0, 0) + ([Sign(0), WriteReturns(0)] + [ReleaseReturns(0), EntryExpires(KEY)] + Charge(1, 1)))
  {
    var s := FirstCharge();
    ExpiryFrees(s);
    SignFailureFrees(s);
    LostWriteFrees(s);
    EntryExpiryFrees(s);
    SecondCharge(s, Charge(0, 0), [LockExpires(KEY)]);
    SecondCharge(s, Charge(0, 0), [SignThrows(0), ReleaseReturns(0)]);
    SecondCharge(s, Charge(0, 0), [Sign(0), WriteThrows(0, false, false)] + [ReleaseReturns(0)]);
    SecondCharge(s, Charge(0, 0), [Sign(0), WriteReturns(0)] + [ReleaseReturns(0), EntryExpires(KEY)]);
  }

  // ----- A foreign write -----

  /** Another receipt for the same offer. */
  const FOREIGN: Receipt := SIGNED.(id := [COLON])

  lemma ForeignAgrees()
    ensures ReceiptBinding(SIGNED) == OfferBinding(OFFER) && ReceiptBinding(FOREIGN) == OfferBinding(OFFER) && FOREIGN != SIGNED
  {
    BindingsCompareFields(SIGNED, OFFER);
    BindingsCompareFields(FOREIGN, OFFER);
  }

  ghost predicate PaidOnce(s: State) {
    && s.mode.Locking? && s.inFlight == map[]
    && s.requests == map[0 := Request(0, OFFER, KEY, [], Done(Paid(SIGNED, false, None), Some(0)))]
  }

  lemma ReleaseStep(t: State)
    requires Returning(t, Releasing(Ok(SIGNED, false, None)))
    ensures Enabled(t, ReleaseReturns(0))
    ensures var t1 := Next(t, ReleaseReturns(0));
            && t1.mode.Locking? && t1.requests == map[0 := Request(0, OFFER, KEY, [], Resolved)]
            && t1.inFlight == map[(0, KEY) := 0] && 0 in t1.results && t1.results[0] == Ok(SIGNED, false, None)
  {
  }

  lemma ReleaseAndPay(t: State)
    requires Returning(t, Releasing(Ok(SIGNED, false, None)))
    ensures var run := [ReleaseReturns(0), LeaderReturns(0)]; IsRun(t, run) && PaidOnce(After(t, run))
  {
    ForeignAgrees();
    ReleaseStep(t);
    TwoSteps(t, ReleaseReturns(0), LeaderReturns(0));
  }

  /** The payment comes again, to gate 1, and finds the foreign receipt. */
  ghost predicate Asking(s: State, phase: Phase) {
    && s.mode.Locking? && 0 in s.requests && s.requests[0].phase == Done(Paid(SIGNED, false, None), Some(0))
    && 1 in s.requests && s.requests[1] == Request(1, OFFER, KEY, [], phase)
    && KEY in s.store.entries && s.store.entries[KEY] == FOREIGN
  }

  lemma AskAgain(s: State)
    requires PaidOnce(s) && KEY in s.store.entries && s.store.entries[KEY] == FOREIGN
    ensures var run := [Arrive(1, 1, OFFER), VerifyValid(1, [], [])]; IsRun(s, run) && Asking(After(s, run), Reading)
  {
    var s1 := Next(s, Arrive(1, 1, OFFER));
    assert s1.requests[1].offer.model + [COLON] + [] == KEY;
    TwoSteps(s, Arrive(1, 1, OFFER), VerifyValid(1, [], []));
  }

  lemma Replay(s: State)
    requires Asking(s, Reading)
    ensures var run := [ReadReturns(1), LeaderReturns(1)];
            IsRun(s, run) && Asking(After(s, run), Done(Paid(FOREIGN, true, None), Some(1)))
  {
    ForeignAgrees();
    var s1 := Next(s, ReadReturns(1));
    assert Asking(s1, Resolved) && s1.results[1] == Ok(FOREIGN, true, None);
    TwoSteps(s, ReadReturns(1), LeaderReturns(1));
  }

  function PayFirst(): seq<Event> {
    Charge(0, 0) + ([Sign(0), WriteReturns(0)] + [ReleaseReturns(0), LeaderReturns(0)])
  }

  lemma FirstPaid() returns (s: State)
    ensures IsRun(Start(Locking), PayFirst()) && s == After(Start(Locking), PayFirst()) && PaidOnce(s)
  {
    var s0 := FirstCharge();
    var t, phase := SignAndWrite(s0, WriteReturns(0));
    ReleaseAndPay(t);
    RunConcat(s0, [Sign(0), WriteReturns(0)], [ReleaseReturns(0), LeaderReturns(0)]);
    RunConcat(Start(Locking), Charge(0, 0), [Sign(0), WriteReturns(0)] + [ReleaseReturns(0), LeaderReturns(0)]);
    s := After(Start(Locking), PayFirst());
  }

  function AskForeign(): seq<Event> {
    [ForeignWrite(KEY, FOREIGN)] + ([Arrive(1, 1, OFFER), VerifyValid(1, [], [])] + [ReadReturns(1), LeaderReturns(1)])
  }

  /** One purchase with two receipts, after somebody else has written the store. */
  lemma ForeignWriteSplitsReceipts()
    ensures IsRun(Start(Locking), PayFirst() + AskForeign())
    ensures var s := After(Start(Locking), PayFirst() + AskForeign());
            && Asking(s, Done(Paid(FOREIGN, true, None), Some(1))) && FOREIGN != SIGNED
  {
    ForeignAgrees();
    var s := FirstPaid();
    OneStep(s, ForeignWrite(KEY, FOREIGN));
    var t := Next(s, ForeignWrite(KEY, FOREIGN));
    AskAgain(t);
    var u := After(t, [Arrive(1, 1, OFFER), VerifyValid(1, [], [])]);
    Replay(u);
    RunConcat(t, [Arrive(1, 1, OFFER), VerifyValid(1, [], [])], [ReadReturns(1), LeaderReturns(1)]);
    RunConcat(s, [ForeignWrite(KEY, FOREIGN)], [Arrive(1, 1, OFFER), VerifyValid(1, [], [])] + [ReadReturns(1), LeaderReturns(1)]);
    RunConcat(Start(Locking), PayFirst(), AskForeign());
  }

  // ----- A throwing callback -----

  lemma ReleaseAndLeave(t: State)
    requires Returning(t, ReleasingAfterThrow(CallbackError))
    ensures var events := [ReleaseReturns(0), LeaderReturns(0)];
            IsRun(t, events) &&
            0 in After(t, events).requests && After(t, events).requests[0].phase == Done(Failed(CallbackError), Some(0))
  {
    TwoSteps(t, ReleaseReturns(0), LeaderReturns(0));
  }

  /** An onCacheError that throws turns a settled payment into a failure. */
  lemma ThrowingCallbackLosesReceipt()
    ensures var events := Charge(0, 0) + ([Sign(0), WriteThrows(0, true, true)] + [ReleaseReturns(0), LeaderReturns(0)]);
            IsRun(Start(Locking), events) &&
            var s := After(Start(Locking), events);
            0 in s.requests && s.requests[0].phase == Done(Failed(CallbackError), Some(0))
  {
    var s := FirstCharge();
    var t, phase := SignAndWrite(s, WriteThrows(0, true, true));
    ReleaseAndLeave(t);
    RunConcat(s, [Sign(0), WriteThrows(0, true, true)], [ReleaseReturns(0), LeaderReturns(0)]);
    RunConcat(Start(Locking), Charge(0, 0), [Sign(0), WriteThrows(0, true, true)] + [ReleaseReturns(0), LeaderReturns(0)]);
  }
}
