/** Overlapping calls on the channel manager: the code between two awaits is one
    step, and steps of different calls interleave freely. */
module ChannelOverlap {
  import opened JsText
  import opened Commitments
  import opened CommitmentStore
  import opened Channels
  import opened ChannelRuns
  import Decimal

  /** How far a commit has got: waiting for the signature, stored and about to
      advance the channel, over, or given up. */
  datatype CommitStage = Signing | Appended | Advanced(at: nat) | Dropped

  /** What close read off the stream: its length, and the request for its latest
      commitment. */
  datatype Listing = Listing(length: nat, request: CloseRequest)

  /** How far a close has got: its channel was read as open; its stream is listed;
      the channel is marked and the adapter asked; the adapter has answered. */
  datatype CloseStage =
    | Read
    | Listed(list: Listing)
    | Settling(list: Listing, markedAt: nat)
    | Answered(list: Listing, markedAt: nat, answeredAt: nat, accepted: bool)

  /** A call that got past its checks, and when it read its channel. */
  datatype Work =
    | Commits(id: Text, readAt: nat, next: Commitment, stage: CommitStage)
    | Closes(id: Text, readAt: nat, progress: CloseStage)

  datatype Step =
    | Opens(input: OpenInput, opening: Opened, now: Stamp)
    | ReadsForCommit(call: nat, id: Text, amount: Text)
    | Signs(call: nat, blob: Text)
    | SigningFails(call: nat)
    | Advances(call: nat, now: Stamp)
    | ReadsForClose(call: nat, id: Text)
    | Lists(call: nat)
    | Asks(call: nat)
    | Answers(call: nat, reply: Option<Settlement>)

  /** The store, every call so far, and the number of steps taken. */
  datatype State = State(contents: Contents, works: map<nat, Work>, time: nat)

  predicate Enabled(s: State, step: Step) {
    match step
    case Opens(input, opening, _) => Decimal.IsAmount(input.deposit) && !IsZero(input.deposit) && opening.channelId !in s.contents.channels
    case ReadsForCommit(call, id, amount) => call !in s.works && CommitRefused(s.contents, id, amount).None?
    case Signs(call, _) => call in s.works && s.works[call].Commits? && s.works[call].stage.Signing?
    case SigningFails(call) => call in s.works && s.works[call].Commits? && s.works[call].stage.Signing?
    case Advances(call, _) => call in s.works && s.works[call].Commits? && s.works[call].stage.Appended?
    case ReadsForClose(call, id) => call !in s.works && id in s.contents.channels && s.contents.channels[id].status == Open
    case Lists(call) =>
      call in s.works && s.works[call].Closes? && s.works[call].progress.Read? && s.works[call].id in s.contents.channels
    case Asks(call) => call in s.works && s.works[call].Closes? && s.works[call].progress.Listed?
    case Answers(call, _) => call in s.works && s.works[call].Closes? && s.works[call].progress.Settling?
  }

  predicate Accepts(list: Listing, reply: Option<Settlement>) {
    reply.Some? && reply.value.settledAmount == list.request.cumulativeAmount
  }

  function WorkAfter(s: State, step: Step): Work
    requires Enabled(s, step) && !step.Opens?
  {
    match step
    case ReadsForCommit(_, id, amount) => Commits(id, s.time, NextCommitment(s.contents.channels[id], id, amount, []), Signing)
    case Signs(call, blob) => s.works[call].(next := s.works[call].next.(blob := blob), stage := Appended)
    case SigningFails(call) => s.works[call].(stage := Dropped)
    case Advances(call, _) => s.works[call].(stage := Advanced(s.time))
    case ReadsForClose(_, id) => Closes(id, s.time, Read)
    case Lists(call) =>
      var id := s.works[call].id;
      s.works[call].(progress := Listed(Listing(|s.contents.StreamOf(id)|, RequestFrom(s.contents, id))))
    case Asks(call) => s.works[call].(progress := Settling(s.works[call].progress.list, s.time))
    case Answers(call, reply) =>
      var p := s.works[call].progress;
      s.works[call].(progress := Answered(p.list, p.markedAt, s.time, Accepts(p.list, reply)))
  }

  function ContentsAfter(s: State, step: Step): Contents
    requires Enabled(s, step)
  {
    match step
    case Opens(input, opening, now) => s.contents.Put(NewChannel(input, opening, now))
    case Signs(call, blob) => s.contents.Append(s.works[call].next.(blob := blob))
    case Advances(call, now) =>
      var next := s.works[call].next;
      s.contents.Update(next.channelId, Advance(next.cumulativeAmount, next.sequence, now))
    case Asks(call) => s.contents.Update(s.works[call].id, ToStatus(Closing))
    case Answers(call, reply) =>
      var w := s.works[call];
      if Accepts(w.progress.list, reply)
      then s.contents.Update(w.id, Settle(reply.value.settlementTxHash, reply.value.returnedRemainder))
      else s.contents.Update(w.id, ToStatus(Open))
    case _ => s.contents
  }

  function Take(s: State, step: Step): State
    requires Enabled(s, step)
  {
    State(ContentsAfter(s, step), if step.Opens? then s.works else s.works[step.call := WorkAfter(s, step)], s.time + 1)
  }

  predicate IsRun(s: State, steps: seq<Step>)
    decreases |steps|
  {
    steps == [] || (Enabled(s, steps[0]) && IsRun(Take(s, steps[0]), steps[1..]))
  }

  function Final(s: State, steps: seq<Step>): State
    requires IsRun(s, steps)
    decreases |steps|
  {
    if steps == [] then s else Final(Take(s, steps[0]), steps[1..])
  }

  function StartFrom(contents: Contents): State {
    State(contents, map[], 0)
  }

  /** The states some interleaving reaches from an empty store. */
  ghost predicate Reached(s: State) {
    exists steps :: IsRun(StartFrom(EMPTY), steps) && s == Final(StartFrom(EMPTY), steps)
  }

  // ----- Order in time -----

  predicate Marked(w: Work) {
    w.Closes? && (w.progress.Settling? || w.progress.Answered?)
  }

  ghost predicate InTime(w: Work, time: nat) {
    && w.readAt < time
    && (w.Commits? && w.stage.Advanced? ==> w.readAt < w.stage.at < time)
    && (Marked(w) ==> w.readAt < w.progress.markedAt < time)
    && (w.Closes? && w.progress.Answered? ==> w.progress.markedAt < w.progress.answeredAt < time)
  }

  /** Calls belong to channels of the store, and no two things happen at once. */
  ghost predicate Orderly(s: State) {
    && s.contents.streams.Keys == s.contents.channels.Keys
    && (forall k :: k in s.works ==> InTime(s.works[k], s.time) && s.works[k].id in s.contents.channels)
    && (forall k :: k in s.works && s.works[k].Commits? ==> s.works[k].next.channelId == s.works[k].id)
    && (forall i, j :: i in s.works && j in s.works && i != j ==> s.works[i].readAt != s.works[j].readAt)
    && (forall i, j :: i in s.works && j in s.works && i != j && Marked(s.works[i]) && Marked(s.works[j]) ==>
          s.works[i].progress.markedAt != s.works[j].progress.markedAt)
  }

  lemma WorkInTime(s: State, step: Step)
    requires Orderly(s) && Enabled(s, step) && !step.Opens?
    ensures var w := WorkAfter(s, step);
            && InTime(w, s.time + 1) && w.id in s.contents.channels && (w.Commits? ==> w.next.channelId == w.id)
            && (step.call in s.works ==> w.readAt == s.works[step.call].readAt)
            && (step.call !in s.works ==> w.readAt == s.time)
            && (Marked(w) ==> w.progress.markedAt == s.time ||
                              (step.call in s.works && Marked(s.works[step.call]) && w.progress.markedAt == s.works[step.call].progress.markedAt))
  {
  }

  lemma KeysAfter(s: State, step: Step)
    requires Orderly(s) && Enabled(s, step)
    ensures s.contents.channels.Keys <= ContentsAfter(s, step).channels.Keys
    ensures ContentsAfter(s, step).streams.Keys == ContentsAfter(s, step).channels.Keys
  {
  }

  lemma WorksInTime(s: State, step: Step)
    requires Orderly(s) && Enabled(s, step)
    ensures var t := Take(s, step);
            forall k :: k in t.works ==> InTime(t.works[k], t.time) && t.works[k].id in t.contents.channels
                                         && (t.works[k].Commits? ==> t.works[k].next.channelId == t.works[k].id)
  {
    KeysAfter(s, step);
    var t := Take(s, step);
    if !step.Opens? {
      WorkInTime(s, step);
    }
    forall k | k in s.works ensures InTime(s.works[k], t.time) {
      assert InTime(s.works[k], s.time);
    }
  }

  lemma TimesDiffer(s: State, step: Step, i: nat, j: nat)
    requires Orderly(s) && Enabled(s, step) && i in Take(s, step).works && j in Take(s, step).works && i != j
    ensures var t := Take(s, step);
            && t.works[i].readAt != t.works[j].readAt
            && (Marked(t.works[i]) && Marked(t.works[j]) ==> t.works[i].progress.markedAt != t.works[j].progress.markedAt)
  {
    if !step.Opens? {
      WorkInTime(s, step);
    }
    assert i in s.works ==> InTime(s.works[i], s.time);
    assert j in s.works ==> InTime(s.works[j], s.time);
  }

  lemma TakeIsOrderly(s: State, step: Step)
    requires Orderly(s) && Enabled(s, step)
    ensures Orderly(Take(s, step))
  {
    var t := Take(s, step);
    KeysAfter(s, step);
    WorksInTime(s, step);
    forall i, j | i in t.works && j in t.works && i != j
      ensures t.works[i].readAt != t.works[j].readAt
      ensures Marked(t.works[i]) && Marked(t.works[j]) ==> t.works[i].progress.markedAt != t.works[j].progress.markedAt
    {
      TimesDiffer(s, step, i, j);
    }
  }

  // ----- The deposit bound -----

  predicate Within(amount: Text, deposit: Text) {
    Decimal.IsAmount(amount) && Decimal.IsAmount(deposit) && Decimal.Value(amount) <= Decimal.Value(deposit)
  }

  ghost predicate StreamWithin(stream: Stream, deposit: Text) {
    forall i :: 0 <= i < |stream| ==> Within(stream[i].cumulativeAmount, deposit)
  }

  ghost predicate StoreWithin(s: Contents) {
    && s.streams.Keys == s.channels.Keys
    && forall id :: id in s.channels ==>
         Within(s.channels[id].committed, s.channels[id].deposit) && StreamWithin(s.streams[id], s.channels[id].deposit)
  }

  /** A commitment fits the deposit of its channel. */
  predicate Fits(s: Contents, next: Commitment) {
    next.channelId in s.channels && Within(next.cumulativeAmount, s.channels[next.channelId].deposit)
  }

  predicate WorkFits(s: Contents, w: Work) {
    w.Commits? ==> Fits(s, w.next)
  }

  ghost predicate DepositBound(s: State) {
    StoreWithin(s.contents) && forall k :: k in s.works ==> WorkFits(s.contents, s.works[k])
  }

  /** The deposits of the channels of s are still there in t. */
  ghost predicate SameDeposits(s: Contents, t: Contents) {
    forall id :: id in s.channels ==> id in t.channels && t.channels[id].deposit == s.channels[id].deposit
  }

  lemma AppendStaysWithin(s: Contents, next: Commitment)
    requires StoreWithin(s) && Fits(s, next)
    ensures StoreWithin(s.Append(next)) && SameDeposits(s, s.Append(next))
  {
  }

  lemma UpdateStaysWithin(s: Contents, id: Text, patch: Patch)
    requires StoreWithin(s)
    requires patch.Advance? && id in s.channels ==> Within(patch.committed, s.channels[id].deposit)
    ensures StoreWithin(s.Update(id, patch)) && SameDeposits(s, s.Update(id, patch))
  {
  }

  lemma PutStaysWithin(s: Contents, c: Channel)
    requires StoreWithin(s) && c.id !in s.channels && Within(c.committed, c.deposit)
    ensures StoreWithin(s.Put(c)) && SameDeposits(s, s.Put(c))
  {
  }

  /** A step keeps the store within its deposits and takes no deposit away. */
  lemma TakeStaysWithin(s: State, step: Step)
    requires DepositBound(s) && Enabled(s, step)
    ensures StoreWithin(ContentsAfter(s, step)) && SameDeposits(s.contents, ContentsAfter(s, step))
  {
    match step
    case Opens(input, opening, now) =>
      NothingIsZero();
      PutStaysWithin(s.contents, NewChannel(input, opening, now));
    case Signs(call, blob) =>
      assert WorkFits(s.contents, s.works[call]);
      AppendStaysWithin(s.contents, s.works[call].next.(blob := blob));
    case Advances(call, now) =>
      var next := s.works[call].next;
      assert WorkFits(s.contents, s.works[call]);
      UpdateStaysWithin(s.contents, next.channelId, Advance(next.cumulativeAmount, next.sequence, now));
    case Asks(call) => UpdateStaysWithin(s.contents, s.works[call].id, ToStatus(Closing));
    case Answers(call, reply) => AnswerStaysWithin(s, call, reply);
    case _ =>
  }

  lemma AnswerStaysWithin(s: State, call: nat, reply: Option<Settlement>)
    requires StoreWithin(s.contents) && Enabled(s, Answers(call, reply))
    ensures var t := ContentsAfter(s, Answers(call, reply)); StoreWithin(t) && SameDeposits(s.contents, t)
  {
    UpdateStaysWithin(s.contents, s.works[call].id, ToStatus(Open));
    if reply.Some? {
      UpdateStaysWithin(s.contents, s.works[call].id, Settle(reply.value.settlementTxHash, reply.value.returnedRemainder));
    }
  }

  /** The commitment of a call is fixed when it reads the channel, but for its
      blob. */
  lemma WorkStillFits(s: State, step: Step)
    requires DepositBound(s) && Enabled(s, step) && !step.Opens?
    ensures WorkFits(s.contents, WorkAfter(s, step))
  {
    if step.ReadsForCommit? {
      Decimal.PrintThenParse(Decimal.Value(s.contents.channels[step.id].committed) + Decimal.Value(step.amount));
    } else if step.call in s.works {
      assert WorkFits(s.contents, s.works[step.call]);
    }
  }

  lemma FitsLater(s: Contents, t: Contents, w: Work)
    requires SameDeposits(s, t) && WorkFits(s, w)
    ensures WorkFits(t, w)
  {
  }

  lemma TakeKeepsBound(s: State, step: Step)
    requires DepositBound(s) && Enabled(s, step)
    ensures DepositBound(Take(s, step))
  {
    TakeStaysWithin(s, step);
    var t := Take(s, step);
    forall k | k in t.works ensures WorkFits(t.contents, t.works[k]) {
      if !step.Opens? && k == step.call {
        WorkStillFits(s, step);
      } else {
        assert WorkFits(s.contents, s.works[k]);
      }
      FitsLater(s.contents, t.contents, t.works[k]);
    }
  }

  /** However the calls interleave, no channel commits and no commitment stores
      more than the deposit. */
  lemma {:induction false} NeverBeyondDeposit(s: State, steps: seq<Step>)
    requires DepositBound(s) && IsRun(s, steps)
    ensures DepositBound(Final(s, steps))
    decreases |steps|
  {
    if steps != [] {
      TakeKeepsBound(s, steps[0]);
      NeverBeyondDeposit(Take(s, steps[0]), steps[1..]);
    }
  }

  lemma DepositBoundAlways(s: State)
    requires Reached(s)
    ensures DepositBound(s)
  {
    var steps :| IsRun(StartFrom(EMPTY), steps) && s == Final(StartFrom(EMPTY), steps);
    NeverBeyondDeposit(StartFrom(EMPTY), steps);
  }
}
