/** Whole runs of the channel manager: what its streams look like after any
    sequence of open, commit and close calls that do not overlap. */
module ChannelRuns {
  import opened JsText
  import opened Commitments
  import opened CommitmentStore
  import opened Channels
  import opened ClosePolicy
  import Decimal

  datatype Call =
    | OpenCall(input: OpenInput, opening: Option<Opened>, openedAt: Stamp)
    | CommitCall(id: Text, amount: Text, signed: Option<Text>, now: Stamp)
    | CloseCall(id: Text, settlement: Option<Settlement>)

  function Next(s: Contents, call: Call): Contents {
    match call
    case OpenCall(input, reply, now) => OpenSpec(s, input, reply, now).1
    case CommitCall(id, amount, signed, now) => CommitSpec(s, id, amount, signed, now).1
    case CloseCall(id, reply) => CloseSpec(s, id, reply).1
  }

  predicate Succeeds(s: Contents, call: Call) {
    match call
    case OpenCall(input, reply, now) => OpenSpec(s, input, reply, now).0.Done?
    case CommitCall(id, amount, signed, now) => CommitSpec(s, id, amount, signed, now).0.Done?
    case CloseCall(id, reply) => CloseSpec(s, id, reply).0.Done?
  }

  function After(s: Contents, calls: seq<Call>): Contents
    decreases |calls|
  {
    if calls == [] then s else After(Next(s, calls[0]), calls[1..])
  }

  /** The adapter opens channels under ids that are not tracked yet. */
  predicate Fresh(s: Contents, call: Call) {
    call.OpenCall? && call.opening.Some? ==> call.opening.value.channelId !in s.channels
  }

  predicate FreshRun(s: Contents, calls: seq<Call>)
    decreases |calls|
  {
    calls == [] || (Fresh(s, calls[0]) && FreshRun(Next(s, calls[0]), calls[1..]))
  }

  const EMPTY := Contents(map[], map[])

  // ----- The stream invariant -----

  /** The commitment at position i. */
  ghost predicate WellPlaced(c: Channel, x: Commitment, i: nat)
    requires Decimal.IsAmount(c.deposit)
  {
    && x.channelId == c.id && x.sequence == i
    && Decimal.IsAmount(x.cumulativeAmount)
    && x.cumulativeAmount == Decimal.Print(Decimal.Value(x.cumulativeAmount))
    && 0 < Decimal.Value(x.cumulativeAmount) <= Decimal.Value(c.deposit)
  }

  function LastAmount(stream: Stream): Text {
    if stream == [] then NOTHING else stream[|stream| - 1].cumulativeAmount
  }

  /** Sequences 0..n-1, cumulative amounts positive, strictly increasing and
      within the deposit, and the channel in step with its stream. */
  ghost predicate InStep(c: Channel, stream: Stream, id: Text) {
    && c.id == id
    && Decimal.IsAmount(c.deposit) && Decimal.Value(c.deposit) > 0
    && c.sequence == |stream| - 1 && c.committed == LastAmount(stream)
    && (forall i :: 0 <= i < |stream| ==> WellPlaced(c, stream[i], i))
    && (forall i, j :: 0 <= i < j < |stream| ==>
          Decimal.Value(stream[i].cumulativeAmount) < Decimal.Value(stream[j].cumulativeAmount))
  }

  /** Between calls a channel is open or closed, and in step. */
  ghost predicate Tracked(c: Channel, stream: Stream, id: Text) {
    (c.status == Open || c.status == Closed) && InStep(c, stream, id)
  }

  ghost predicate StreamInv(s: Contents) {
    && s.streams.Keys == s.channels.Keys
    && forall id :: id in s.channels ==> Tracked(s.channels[id], s.streams[id], id)
  }

  lemma NothingIsZero()
    ensures Decimal.IsAmount(NOTHING) && Decimal.Value(NOTHING) == 0 && Decimal.Print(0) == NOTHING
  {
    Decimal.PrintThenParse(0);
  }

  /** The committed amount is always well formed and never above the deposit. */
  lemma CommittedAmount(c: Channel, stream: Stream, id: Text)
    requires InStep(c, stream, id)
    ensures Decimal.IsAmount(c.committed) && Decimal.Value(c.committed) <= Decimal.Value(c.deposit)
    ensures Decimal.Value(c.committed) == 0 <==> stream == []
  {
    NothingIsZero();
    if stream != [] {
      assert WellPlaced(c, stream[|stream| - 1], |stream| - 1);
    }
  }

  /** A commitment that continues the stream of its channel. */
  ghost predicate Continues(c: Channel, next: Commitment) {
    && next.channelId == c.id && next.sequence == c.sequence + 1
    && Decimal.IsAmount(c.committed) && Decimal.IsAmount(c.deposit) && Decimal.IsAmount(next.cumulativeAmount)
    && next.cumulativeAmount == Decimal.Print(Decimal.Value(next.cumulativeAmount))
    && Decimal.Value(c.committed) < Decimal.Value(next.cumulativeAmount) <= Decimal.Value(c.deposit)
  }

  lemma NextContinues(c: Channel, amount: Text, blob: Text)
    requires Decimal.IsAmount(amount) && !IsZero(amount) && Decimal.IsAmount(c.committed) && Decimal.IsAmount(c.deposit)
    requires Decimal.Value(c.committed) + Decimal.Value(amount) <= Decimal.Value(c.deposit)
    ensures Continues(c, NextCommitment(c, c.id, amount, blob))
    ensures Decimal.Value(NextCommitment(c, c.id, amount, blob).cumulativeAmount) == Decimal.Value(c.committed) + Decimal.Value(amount)
  {
    Decimal.PrintThenParse(Decimal.Value(c.committed) + Decimal.Value(amount));
  }

  /** Stored and advanced to, the next commitment keeps the channel in step. */
  lemma ContinueKeepsStep(c: Channel, stream: Stream, id: Text, next: Commitment, now: Stamp)
    requires InStep(c, stream, id) && Continues(c, next)
    ensures InStep(Patched(c, Advance(next.cumulativeAmount, next.sequence, now)), stream + [next], id)
  {
    var c' := Patched(c, Advance(next.cumulativeAmount, next.sequence, now));
    forall i | 0 <= i < |stream + [next]| ensures WellPlaced(c', (stream + [next])[i], i) {
      if i < |stream| {
        assert WellPlaced(c, stream[i], i);
      }
    }
    forall i | 0 <= i < |stream|
      ensures Decimal.Value(stream[i].cumulativeAmount) < Decimal.Value(next.cumulativeAmount)
    {
      assert WellPlaced(c, stream[i], i);
    }
  }

  lemma AppendKeepsTracked(c: Channel, stream: Stream, id: Text, amount: Text, blob: Text, now: Stamp)
    requires Tracked(c, stream, id)
    requires Decimal.IsAmount(amount) && !IsZero(amount) && Decimal.IsAmount(c.committed)
    requires Decimal.Value(c.committed) + Decimal.Value(amount) <= Decimal.Value(c.deposit)
    ensures var next := NextCommitment(c, id, amount, blob);
            && Tracked(Patched(c, Advance(next.cumulativeAmount, next.sequence, now)), stream + [next], id)
            && Decimal.Value(next.cumulativeAmount) == Decimal.Value(c.committed) + Decimal.Value(amount)
  {
    NextContinues(c, amount, blob);
    ContinueKeepsStep(c, stream, id, NextCommitment(c, id, amount, blob), now);
  }

  lemma CommitKeepsStreams(s: Contents, id: Text, amount: Text, signed: Option<Text>, now: Stamp)
    requires StreamInv(s)
    ensures StreamInv(CommitSpec(s, id, amount, signed, now).1)
  {
    if CommitSpec(s, id, amount, signed, now).0.Done? {
      AppendKeepsTracked(s.channels[id], s.streams[id], id, amount, signed.value, now);
    }
  }

  lemma SettleKeepsTracked(c: Channel, stream: Stream, id: Text, hash: Text, remainder: Text)
    requires Tracked(c, stream, id)
    ensures Tracked(Patched(c, Settle(hash, remainder)), stream, id)
  {
    var c' := Patched(c, Settle(hash, remainder));
    forall i | 0 <= i < |stream| ensures WellPlaced(c', stream[i], i) {
      assert WellPlaced(c, stream[i], i);
    }
  }

  lemma CloseKeepsStreams(s: Contents, id: Text, reply: Option<Settlement>)
    requires StreamInv(s)
    ensures StreamInv(CloseSpec(s, id, reply).1)
  {
    if CloseSpec(s, id, reply).0.Done? {
      SettleKeepsTracked(s.channels[id], s.streams[id], id, reply.value.settlementTxHash, reply.value.returnedRemainder);
    }
  }

  lemma NewChannelTracked(input: OpenInput, reply: Opened, now: Stamp)
    requires Decimal.IsAmount(input.deposit) && !IsZero(input.deposit)
    ensures Tracked(NewChannel(input, reply, now), [], reply.channelId)
  {
  }

  /** open keeps the invariant exactly when the id it gets back is new or has no
      commitments yet: the store keeps the old stream under a reused id. */
  lemma OpenKeepsStreams(s: Contents, input: OpenInput, reply: Opened, now: Stamp)
    requires StreamInv(s) && OpenSpec(s, input, Some(reply), now).0.Done?
    ensures StreamInv(OpenSpec(s, input, Some(reply), now).1) <==> s.StreamOf(reply.channelId) == []
  {
    var id := reply.channelId;
    NewChannelTracked(input, reply, now);
    if s.StreamOf(id) == [] {
      OpenOnEmpty(s, input, reply, now);
    } else {
      NewChannelSkewed(NewChannel(input, reply, now), s.StreamOf(id), id);
    }
  }

  lemma NewChannelSkewed(c: Channel, stream: Stream, id: Text)
    requires c.sequence == -1 && stream != []
    ensures !Tracked(c, stream, id)
  {
  }

  lemma OpenOnEmpty(s: Contents, input: OpenInput, reply: Opened, now: Stamp)
    requires StreamInv(s) && s.StreamOf(reply.channelId) == []
    requires Tracked(NewChannel(input, reply, now), [], reply.channelId)
    ensures StreamInv(s.Put(NewChannel(input, reply, now)))
  {
  }

  lemma StepKeepsStreams(s: Contents, call: Call)
    requires StreamInv(s) && Fresh(s, call)
    ensures StreamInv(Next(s, call))
  {
    match call
    case OpenCall(input, reply, now) =>
      if Succeeds(s, call) {
        OpenKeepsStreams(s, input, reply.value, now);
      }
    case CommitCall(id, amount, signed, now) => CommitKeepsStreams(s, id, amount, signed, now);
    case CloseCall(id, reply) => CloseKeepsStreams(s, id, reply);
  }

  lemma {:induction false} RunKeepsStreams(s: Contents, calls: seq<Call>)
    requires StreamInv(s) && FreshRun(s, calls)
    ensures StreamInv(After(s, calls))
    decreases |calls|
  {
    if calls != [] {
      StepKeepsStreams(s, calls[0]);
      RunKeepsStreams(Next(s, calls[0]), calls[1..]);
    }
  }

  /** After every run of the manager, every stream is well formed. */
  lemma StreamsAlwaysHold(calls: seq<Call>)
    requires FreshRun(EMPTY, calls)
    ensures StreamInv(After(EMPTY, calls))
  {
    RunKeepsStreams(EMPTY, calls);
  }

  // ----- Conservation -----

  /** What a call adds to the committed amount of a channel. */
  function Accepted(s: Contents, call: Call, id: Text): nat {
    if call.CommitCall? && call.id == id && Succeeds(s, call) then Decimal.Value(call.amount) else 0
  }

  function TotalAccepted(s: Contents, calls: seq<Call>, id: Text): nat
    decreases |calls|
  {
    if calls == [] then 0 else Accepted(s, calls[0], id) + TotalAccepted(Next(s, calls[0]), calls[1..], id)
  }

  function Committed(s: Contents, id: Text): nat {
    if id in s.channels && Decimal.IsAmount(s.channels[id].committed) then Decimal.Value(s.channels[id].committed) else 0
  }

  lemma OpenCommitsNothing(s: Contents, call: Call, id: Text)
    requires call.OpenCall? && Fresh(s, call)
    ensures Committed(Next(s, call), id) == Committed(s, id)
  {
    NothingIsZero();
  }

  lemma CloseCommitsNothing(s: Contents, call: Call, id: Text)
    requires call.CloseCall?
    ensures Committed(Next(s, call), id) == Committed(s, id)
  {
  }

  lemma CommitCommitsItsAmount(s: Contents, call: Call, id: Text)
    requires call.CommitCall?
    ensures Committed(Next(s, call), id) == Committed(s, id) + Accepted(s, call, id)
  {
    if Succeeds(s, call) {
      Decimal.PrintThenParse(Decimal.Value(s.channels[call.id].committed) + Decimal.Value(call.amount));
    }
  }

  lemma StepCommits(s: Contents, call: Call, id: Text)
    requires Fresh(s, call)
    ensures Committed(Next(s, call), id) == Committed(s, id) + Accepted(s, call, id)
  {
    match call
    case OpenCall(_, _, _) => OpenCommitsNothing(s, call, id);
    case CommitCall(_, _, _, _) => CommitCommitsItsAmount(s, call, id);
    case CloseCall(_, _) => CloseCommitsNothing(s, call, id);
  }

  /** The committed amount is exactly what was accepted: nothing is lost and
      nothing is counted twice. */
  lemma {:induction false} CommittedIsSum(s: Contents, calls: seq<Call>, id: Text)
    requires FreshRun(s, calls)
    ensures Committed(After(s, calls), id) == Committed(s, id) + TotalAccepted(s, calls, id)
    decreases |calls|
  {
    if calls != [] {
      StepCommits(s, calls[0], id);
      CommittedIsSum(Next(s, calls[0]), calls[1..], id);
    }
  }

  // ----- Refused calls and closed channels -----

  /** The calls of a run that succeed. */
  function Successes(s: Contents, calls: seq<Call>): seq<Call>
    decreases |calls|
  {
    if calls == [] then []
    else (if Succeeds(s, calls[0]) then [calls[0]] else []) + Successes(Next(s, calls[0]), calls[1..])
  }

  /** A call that fails, at whichever check or answer, leaves no trace: a run leads
      where its successful calls lead by themselves. */
  lemma {:induction false} FailedCallsLeaveNoTrace(s: Contents, calls: seq<Call>)
    ensures After(s, Successes(s, calls)) == After(s, calls)
    ensures forall c :: c in Successes(s, calls) ==> c in calls
    decreases |calls|
  {
    if calls != [] {
      FailedCallsLeaveNoTrace(Next(s, calls[0]), calls[1..]);
      if Succeeds(s, calls[0]) {
        assert Successes(s, calls)[1..] == Successes(Next(s, calls[0]), calls[1..]);
      } else {
        assert Next(s, calls[0]) == s;
        assert Successes(s, calls) == Successes(s, calls[1..]);
      }
    }
  }

  /** A run without calls on a channel leaves it and its stream as they were. */
  lemma {:induction false} OtherChannelsUntouched(s: Contents, calls: seq<Call>, id: Text)
    requires id in s.channels && FreshRun(s, calls)
    requires forall c :: c in calls && (c.CommitCall? || c.CloseCall?) ==> c.id != id
    ensures id in After(s, calls).channels && After(s, calls).channels[id] == s.channels[id]
    ensures After(s, calls).StreamOf(id) == s.StreamOf(id)
    decreases |calls|
  {
    if calls != [] {
      assert calls[0] in calls;
      OtherChannelsUntouched(Next(s, calls[0]), calls[1..], id);
    }
  }

  lemma ClosedStep(s: Contents, call: Call, id: Text)
    requires id in s.channels && s.channels[id].status == Closed && Fresh(s, call)
    ensures id in Next(s, call).channels && Next(s, call).channels[id] == s.channels[id]
    ensures Next(s, call).StreamOf(id) == s.StreamOf(id)
  {
  }

  lemma {:induction false} ClosedIsTerminal(s: Contents, calls: seq<Call>, id: Text)
    requires id in s.channels && s.channels[id].status == Closed && FreshRun(s, calls)
    ensures id in After(s, calls).channels && After(s, calls).channels[id] == s.channels[id]
    ensures After(s, calls).StreamOf(id) == s.StreamOf(id)
    decreases |calls|
  {
    if calls != [] {
      ClosedStep(s, calls[0], id);
      ClosedIsTerminal(Next(s, calls[0]), calls[1..], id);
    }
  }

  // ----- What close settles -----

  lemma {:induction false} CountedUpIsSorted(stream: Stream, from: int)
    requires forall i :: 0 <= i < |stream| ==> stream[i].sequence == from + i
    ensures Sorted(stream)
  {
    if |stream| > 1 {
      CountedUpIsSorted(stream[1..], from + 1);
    }
  }

  /** The manager lists a tracked stream as it was appended. */
  lemma ListedAsAppended(c: Channel, stream: Stream, id: Text)
    requires InStep(c, stream, id)
    ensures Sort(stream) == stream
  {
    forall i | 0 <= i < |stream| ensures stream[i].sequence == 0 + i {
      assert WellPlaced(c, stream[i], i);
    }
    CountedUpIsSorted(stream, 0);
    SortOfSorted(stream);
  }

  /** An open channel is closed exactly when the adapter settles its committed
      amount, digit for digit; then it is closed for good with the hash and the
      remainder the adapter gave, and nothing else changes. */
  lemma CloseSettlesCommitted(s: Contents, id: Text, reply: Option<Settlement>)
    requires StreamInv(s)
    ensures var (r, s') := CloseSpec(s, id, reply);
            && (r.Done? <==> id in s.channels && s.channels[id].status == Open && reply.Some? &&
                             reply.value.settledAmount == s.channels[id].committed)
            && (r.Done? ==> s' == s.(channels := s.channels[id := s.channels[id].(
                              status := Closed, settlementTxHash := Some(reply.value.settlementTxHash),
                              returnedRemainder := Some(reply.value.returnedRemainder))]))
    ensures id in s.channels && s.channels[id].status == Open ==>
              Request(s, id).Some? && Request(s, id).value.cumulativeAmount == s.channels[id].committed &&
              (s.streams[id] != [] ==> Request(s, id).value.commitment == s.streams[id][|s.streams[id]| - 1].blob)
  {
    if id in s.channels {
      ListedAsAppended(s.channels[id], s.streams[id], id);
    }
  }

  // ----- The request of close, from the history of the run -----

  /** The input a channel was opened with, by the last successful open under its
      id. */
  function OpenedWith(s: Contents, calls: seq<Call>, id: Text): Option<OpenInput>
    decreases |calls|
  {
    if calls == [] then None
    else
      var later := OpenedWith(Next(s, calls[0]), calls[1..], id);
      if later.Some? then later
      else if calls[0].OpenCall? && Succeeds(s, calls[0]) && calls[0].opening.value.channelId == id then Some(calls[0].input)
      else None
  }

  /** The blob the adapter signed for the last successful commit on a channel. */
  function LastSigned(s: Contents, calls: seq<Call>, id: Text): Option<Text>
    decreases |calls|
  {
    if calls == [] then None
    else
      var later := LastSigned(Next(s, calls[0]), calls[1..], id);
      if later.Some? then later
      else if calls[0].CommitCall? && calls[0].id == id && Succeeds(s, calls[0]) then calls[0].signed
      else None
  }

  predicate OpenedAs(c: Channel, input: OpenInput) {
    c.counterparty == input.counterparty && c.asset == input.asset && c.deposit == input.deposit && c.network == input.network
  }

  lemma StepKeepsTerms(s: Contents, call: Call, id: Text)
    requires Fresh(s, call) && id in Next(s, call).channels
    ensures id in s.channels ==> OpenedAs(Next(s, call).channels[id], OpenInput(s.channels[id].counterparty, s.channels[id].asset,
                                                                                s.channels[id].deposit, s.channels[id].network))
    ensures id !in s.channels ==> call.OpenCall? && Succeeds(s, call) && call.opening.value.channelId == id &&
                                  OpenedAs(Next(s, call).channels[id], call.input)
    ensures id in s.channels && call.OpenCall? && Succeeds(s, call) ==> call.opening.value.channelId != id
  {
  }

  /** A channel keeps the terms it was opened on. */
  lemma {:induction false} TermsKept(s: Contents, calls: seq<Call>, id: Text)
    requires FreshRun(s, calls) && id in After(s, calls).channels
    ensures id in s.channels ==> OpenedWith(s, calls, id).None?
    ensures id in s.channels ==> OpenedAs(After(s, calls).channels[id], OpenInput(s.channels[id].counterparty, s.channels[id].asset,
                                                                                  s.channels[id].deposit, s.channels[id].network))
    ensures id !in s.channels ==> OpenedWith(s, calls, id).Some? && OpenedAs(After(s, calls).channels[id], OpenedWith(s, calls, id).value)
    decreases |calls|
  {
    if calls != [] {
      TermsKept(Next(s, calls[0]), calls[1..], id);
      if id in Next(s, calls[0]).channels {
        StepKeepsTerms(s, calls[0], id);
      } else {
        NotOpened(s, calls[0], id);
      }
    }
  }

  lemma NotOpened(s: Contents, call: Call, id: Text)
    requires id !in Next(s, call).channels
    ensures id !in s.channels && !(call.OpenCall? && Succeeds(s, call) && call.opening.value.channelId == id)
  {
  }

  function LastBlob(stream: Stream): Text {
    if stream == [] then [] else stream[|stream| - 1].blob
  }

  lemma StepSigns(s: Contents, call: Call, id: Text)
    ensures LastBlob(Next(s, call).StreamOf(id)) ==
              if call.CommitCall? && call.id == id && Succeeds(s, call) then call.signed.value else LastBlob(s.StreamOf(id))
    ensures call.CommitCall? && Succeeds(s, call) ==> call.signed.Some?
  {
  }

  lemma {:induction false} LastBlobIsSigned(s: Contents, calls: seq<Call>, id: Text)
    ensures LastBlob(After(s, calls).StreamOf(id)) ==
              if LastSigned(s, calls, id).Some? then LastSigned(s, calls, id).value else LastBlob(s.StreamOf(id))
    decreases |calls|
  {
    if calls != [] {
      StepSigns(s, calls[0], id);
      LastBlobIsSigned(Next(s, calls[0]), calls[1..], id);
    }
  }

  /** What close asks of the adapter, told from the history of the run alone: the
      channel's id, the network and the deposit it was opened with, the sum of the
      accepted amounts in canonical digits, and the blob of the last accepted
      commit, empty without one. */
  lemma CloseAsksExactly(calls: seq<Call>, id: Text)
    requires FreshRun(EMPTY, calls)
    requires id in After(EMPTY, calls).channels && After(EMPTY, calls).channels[id].status == Open
    ensures OpenedWith(EMPTY, calls, id).Some?
    ensures var input, signed := OpenedWith(EMPTY, calls, id).value, LastSigned(EMPTY, calls, id);
            Request(After(EMPTY, calls), id) ==
              Some(CloseRequest(id, input.network, Decimal.Print(TotalAccepted(EMPTY, calls, id)),
                                if signed.Some? then signed.value else [], input.deposit))
  {
    var s := After(EMPTY, calls);
    StreamsAlwaysHold(calls);
    TermsKept(EMPTY, calls, id);
    LastBlobIsSigned(EMPTY, calls, id);
    CommittedIsSum(EMPTY, calls, id);
    CommittedIsPrinted(s.channels[id], s.streams[id], id);
    ListedAsAppended(s.channels[id], s.streams[id], id);
    CloseSettlesCommitted(s, id, None);
  }

  lemma CommittedIsPrinted(c: Channel, stream: Stream, id: Text)
    requires InStep(c, stream, id)
    ensures Decimal.IsAmount(c.committed) && c.committed == Decimal.Print(Decimal.Value(c.committed))
  {
    NothingIsZero();
    if stream != [] {
      assert WellPlaced(c, stream[|stream| - 1], |stream| - 1);
    }
  }

  // ----- Reopening -----

  /** Reopened under the id of a channel with commitments, a channel with
      nothing committed asks to settle what the old one had committed. */
  lemma ReusedIdSettlesOldStream(s: Contents, input: OpenInput, reply: Opened, now: Stamp)
    requires StreamInv(s) && OpenSpec(s, input, Some(reply), now).0.Done? && s.StreamOf(reply.channelId) != []
    ensures var s', id := OpenSpec(s, input, Some(reply), now).1, reply.channelId;
            && s'.channels[id].committed == NOTHING
            && Request(s', id).Some? && Request(s', id).value.cumulativeAmount == s.channels[id].committed != NOTHING
  {
    var id := reply.channelId;
    ListedAsAppended(s.channels[id], s.streams[id], id);
    CommittedAmount(s.channels[id], s.streams[id], id);
    NothingIsZero();
    var s' := OpenSpec(s, input, Some(reply), now).1;
    assert s'.StreamOf(id) == s.streams[id];
    assert RequestFrom(s', id).cumulativeAmount == LastAmount(s.streams[id]) == s.channels[id].committed;
  }

  // ----- Whether to close, over a run -----

  lemma StepKeepsDeposit(s: Contents, call: Call, id: Text)
    requires id in s.channels && Fresh(s, call)
    ensures id in Next(s, call).channels && Next(s, call).channels[id].deposit == s.channels[id].deposit
  {
  }

  /** Once the drawdown test is true it stays true, whatever is called next. */
  lemma {:induction false} DrawdownStays(s: Contents, calls: seq<Call>, id: Text, threshold: Option<Number>)
    requires StreamInv(s) && FreshRun(s, calls) && id in s.channels
    requires DrawdownVerdict(s.channels[id], threshold) == Some(Done(true))
    ensures var s' := After(s, calls);
            id in s'.channels && DrawdownVerdict(s'.channels[id], threshold) == Some(Done(true))
    decreases |calls|
  {
    if calls != [] {
      var c, s' := s.channels[id], Next(s, calls[0]);
      StepKeepsStreams(s, calls[0]);
      StepKeepsDeposit(s, calls[0], id);
      StepCommits(s, calls[0], id);
      CommittedAmount(s'.channels[id], s'.streams[id], id);
      var t, deposit := threshold.value.value, Decimal.Value(c.deposit);
      DrawnDownIsRatio(Committed(s, id), deposit, t);
      DrawnDownIsRatio(Committed(s', id), deposit, t);
      DrawnDownGrows(Committed(s, id), Committed(s', id), deposit, t);
      DrawdownStays(s', calls[1..], id, threshold);
    }
  }

  /** So once shouldClose says yes because of the drawdown, it says yes at any
      later time for as long as the channel is open. */
  lemma ShouldCloseStays(s: Contents, calls: seq<Call>, id: Text, policy: Heuristics, now: Stamp)
    requires StreamInv(s) && FreshRun(s, calls) && id in s.channels
    requires DrawdownVerdict(s.channels[id], policy.drawdownThreshold) == Some(Done(true))
    ensures var s' := After(s, calls);
            id in s'.channels &&
            ShouldCloseSpec(s', Some(policy), id, now) == Done(s'.channels[id].status == Open)
  {
    DrawdownStays(s, calls, id, policy.drawdownThreshold);
  }
}
