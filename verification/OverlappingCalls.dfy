/** The store after overlapping calls: when it is as after calls that do not
    overlap, when a close settles less than is committed, and when a closed channel
    stays as it is. */
module OverlappingCalls {
  import opened JsText
  import opened Commitments
  import opened CommitmentStore
  import opened Channels
  import opened ChannelRuns
  import opened ChannelOverlap
  import opened OverlappingCommits
  import opened OverlappingCloses
  import Decimal

  // ----- Status -----

  predicate Awaits(w: Work, id: Text) {
    w.Closes? && w.id == id && w.progress.Settling?
  }

  /** A channel that is neither open nor closed awaits a settlement. */
  ghost predicate StatusOk(s: State, id: Text)
    requires id in s.contents.channels
  {
    var status := s.contents.channels[id].status;
    status == Open || status == Closed || exists k :: k in s.works && Awaits(s.works[k], id)
  }

  lemma StatusKept(s: State, step: Step, id: Text)
    requires Orderly(s) && Enabled(s, step) && id in s.contents.channels && StatusOk(s, id)
    ensures id in Take(s, step).contents.channels && StatusOk(Take(s, step), id)
  {
    var t := Take(s, step);
    var status := s.contents.channels[id].status;
    if step.Asks? && s.works[step.call].id == id {
      assert Awaits(t.works[step.call], id);
    } else if step.Answers? && s.works[step.call].id == id {
    } else if status != Open && status != Closed {
      var k :| k in s.works && Awaits(s.works[k], id);
      assert t.works[k] == s.works[k];
    }
  }

  // ----- The stream while commits do not overlap -----

  lemma NoOverlapStream(s: State, id: Text)
    requires AllInv(s) && id in s.contents.channels && !Overlapping(s, id)
    ensures id in s.contents.streams && StreamOk(s, id)
  {
    assert CommitInv(s, id);
  }

  lemma BehindAt(c: Channel, stream: Stream, id: Text, next: Commitment, p: nat)
    requires Behind(c, stream, id, next) && p < |stream|
    ensures stream[p].sequence == p
  {
    if p < |stream| - 1 {
      SequenceAt(c, stream[..|stream| - 1], id, p);
    }
  }

  lemma OrderedStream(s: State, id: Text, p: nat)
    requires id in s.contents.channels && id in s.contents.streams && StreamOk(s, id) && p < |s.contents.streams[id]|
    ensures s.contents.streams[id][p].sequence == p
  {
    var c, stream := s.contents.channels[id], s.contents.streams[id];
    if a :| a in s.works && IsAppended(s.works[a], id) {
      BehindAt(c, stream, id, s.works[a].next, p);
    } else {
      SequenceAt(c, stream, id, p);
    }
  }

  lemma ListedInOrder(s: State, id: Text)
    requires id in s.contents.channels && id in s.contents.streams && StreamOk(s, id)
    ensures Sort(s.contents.StreamOf(id)) == s.contents.streams[id]
    ensures RequestFrom(s.contents, id).cumulativeAmount == LastAmount(s.contents.streams[id])
  {
    var stream := s.contents.streams[id];
    forall p | 0 <= p < |stream| ensures stream[p].sequence == 0 + p {
      OrderedStream(s, id, p);
    }
    CountedUpIsSorted(stream, 0);
    SortOfSorted(stream);
  }

  lemma OverlapPersists(s: State, step: Step, id: Text)
    requires Orderly(s) && Enabled(s, step) && id in s.contents.channels && Overlapping(s, id)
    ensures Overlapping(Take(s, step), id)
  {
    if Passive(s, step, id) {
      PassiveIsSame(s, step, id);
      SameOverlap(s, Take(s, step), id);
    } else {
      OverlapStays(s, step, id);
    }
  }

  // ----- What a close has listed -----

  predicate HasListing(w: Work, id: Text) {
    w.Closes? && w.id == id && !w.progress.Read?
  }

  /** The request is for the last commitment of the stream as it was listed. */
  ghost predicate ListingOk(stream: Stream, list: Listing) {
    list.length <= |stream| && list.request.cumulativeAmount == LastAmount(stream[..list.length])
  }

  ghost predicate ListInv(s: State, id: Text)
    requires id in s.contents.streams
  {
    !Overlapping(s, id) ==>
      forall k :: k in s.works && HasListing(s.works[k], id) ==> ListingOk(s.contents.streams[id], s.works[k].progress.list)
  }

  lemma StreamGrows(s: State, step: Step, id: Text)
    requires Orderly(s) && Enabled(s, step) && id in s.contents.channels
    ensures id in Take(s, step).contents.streams && s.contents.streams[id] <= Take(s, step).contents.streams[id]
  {
  }

  lemma ListingStays(stream: Stream, longer: Stream, list: Listing)
    requires stream <= longer && ListingOk(stream, list)
    ensures ListingOk(longer, list)
  {
    assert longer[..list.length] == stream[..list.length];
  }

  lemma NewListing(s: State, step: Step, id: Text)
    requires Enabled(s, step) && step.Lists? && s.works[step.call].id == id
    requires id in s.contents.streams && StreamOk(s, id)
    ensures ListingOk(s.contents.streams[id], WorkAfter(s, step).progress.list)
  {
    ListedInOrder(s, id);
    assert s.contents.streams[id][..|s.contents.streams[id]|] == s.contents.streams[id];
  }

  lemma OldListing(s: State, step: Step, id: Text)
    requires Enabled(s, step) && !step.Opens? && !step.Lists? && HasListing(WorkAfter(s, step), id)
    ensures step.call in s.works && HasListing(s.works[step.call], id)
    ensures WorkAfter(s, step).progress.list == s.works[step.call].progress.list
  {
  }

  lemma ListingAfter(s: State, step: Step, id: Text, k: nat)
    requires Enabled(s, step) && k in Take(s, step).works && HasListing(Take(s, step).works[k], id)
    requires id in s.contents.streams && (id in s.contents.channels ==> StreamOk(s, id)) && ListInv(s, id) && !Overlapping(s, id)
    ensures ListingOk(s.contents.streams[id], Take(s, step).works[k].progress.list)
  {
    if !step.Opens? && k == step.call {
      if step.Lists? {
        NewListing(s, step, id);
      } else {
        OldListing(s, step, id);
      }
    }
  }

  lemma ListKept(s: State, step: Step, id: Text)
    requires AllInv(s) && Enabled(s, step) && id in s.contents.channels && id in s.contents.streams && ListInv(s, id)
    ensures id in Take(s, step).contents.streams && ListInv(Take(s, step), id)
  {
    var t := Take(s, step);
    StreamGrows(s, step, id);
    if Overlapping(s, id) {
      OverlapPersists(s, step, id);
    } else {
      NoOverlapStream(s, id);
      ListingsKept(s, step, id);
    }
  }

  lemma ListingsKept(s: State, step: Step, id: Text)
    requires Enabled(s, step) && id in s.contents.channels && id in s.contents.streams
    requires StreamOk(s, id) && ListInv(s, id) && !Overlapping(s, id)
    requires id in Take(s, step).contents.streams && s.contents.streams[id] <= Take(s, step).contents.streams[id]
    ensures ListInv(Take(s, step), id)
  {
    var t := Take(s, step);
    forall k | k in t.works && HasListing(t.works[k], id) ensures ListingOk(t.contents.streams[id], t.works[k].progress.list) {
      ListingAfter(s, step, id, k);
      ListingStays(s.contents.streams[id], t.contents.streams[id], t.works[k].progress.list);
    }
  }

  // ----- Runs -----

  ghost predicate CallsInv(s: State) {
    AllInv(s) && forall id :: id in s.contents.channels ==> StatusOk(s, id) && ListInv(s, id)
  }

  lemma OpenedCalls(s: State, step: Step, id: Text)
    requires Orderly(s) && Enabled(s, step) && step.Opens? && step.opening.channelId == id
    ensures var t := Take(s, step); id in t.contents.channels && id in t.contents.streams && StatusOk(t, id) && ListInv(t, id)
  {
    assert forall k :: k in s.works ==> s.works[k].id != id;
  }

  lemma CallsOn(s: State, step: Step, id: Text)
    requires CallsInv(s) && Enabled(s, step) && id in Take(s, step).contents.channels
    ensures id in Take(s, step).contents.streams && StatusOk(Take(s, step), id) && ListInv(Take(s, step), id)
  {
    if step.Opens? && step.opening.channelId == id {
      OpenedCalls(s, step, id);
    } else {
      OldChannel(s, step, id);
      StatusKept(s, step, id);
      ListKept(s, step, id);
    }
  }

  lemma StepKeepsAllInv(s: State, step: Step)
    requires AllInv(s) && Enabled(s, step)
    ensures AllInv(Take(s, step))
  {
    OneStep(s, step);
    RunKeepsCommits(s, [step]);
  }

  lemma StepKeepsCalls(s: State, step: Step)
    requires CallsInv(s) && Enabled(s, step)
    ensures CallsInv(Take(s, step))
  {
    var t := Take(s, step);
    StepKeepsAllInv(s, step);
    forall id | id in t.contents.channels ensures StatusOk(t, id) && ListInv(t, id) {
      CallsOn(s, step, id);
    }
  }

  lemma {:induction false} RunKeepsCalls(s: State, steps: seq<Step>)
    requires CallsInv(s) && IsRun(s, steps)
    ensures CallsInv(Final(s, steps))
    decreases |steps|
  {
    if steps != [] {
      StepKeepsCalls(s, steps[0]);
      RunKeepsCalls(Take(s, steps[0]), steps[1..]);
    }
  }

  lemma ReachedCalls(s: State)
    requires Reached(s)
    ensures CallsInv(s)
  {
    var steps :| IsRun(StartFrom(EMPTY), steps) && s == Final(StartFrom(EMPTY), steps);
    RunKeepsCalls(StartFrom(EMPTY), steps);
  }

  // ----- Main results -----

  /** Every call has ended. */
  ghost predicate AllEnded(s: State) {
    forall k :: k in s.works ==>
      if s.works[k].Commits? then s.works[k].stage.Advanced? || s.works[k].stage.Dropped? else s.works[k].progress.Answered?
  }

  lemma EndedStatus(s: State, id: Text)
    requires CallsInv(s) && AllEnded(s) && id in s.contents.channels
    ensures s.contents.channels[id].status == Open || s.contents.channels[id].status == Closed
  {
    assert StatusOk(s, id);
    assert forall k :: k in s.works ==> !Awaits(s.works[k], id);
  }

  lemma NonePending(s: State, id: Text)
    requires AllEnded(s)
    ensures NoCommitPending(s, id)
  {
  }

  lemma TrackedExactly(s: State, id: Text)
    requires Reached(s) && AllEnded(s) && id in s.contents.channels
    ensures id in s.contents.streams
    ensures Tracked(s.contents.channels[id], s.contents.streams[id], id) <==> !Overlapping(s, id)
  {
    ReachedCalls(s);
    EndedStatus(s, id);
    NonePending(s, id);
    InStepExactly(s, id);
  }

  /** In every interleaving, once all calls have ended, the stream invariant holds
      exactly when no two stored commits on one channel overlapped: none read the
      channel between the read and the advance of another. */
  lemma StreamInvExactly(s: State)
    requires Reached(s) && AllEnded(s)
    ensures StreamInv(s.contents) <==> forall id :: id in s.contents.channels ==> !Overlapping(s, id)
  {
    ReachedKeys(s);
    forall id | id in s.contents.channels
      ensures id in s.contents.streams
      ensures Tracked(s.contents.channels[id], s.contents.streams[id], id) <==> !Overlapping(s, id)
    {
      TrackedExactly(s, id);
    }
  }

  lemma ReachedKeys(s: State)
    requires Reached(s)
    ensures s.contents.streams.Keys == s.contents.channels.Keys
  {
    ReachedCalls(s);
  }

  lemma ReachedListing(s: State, id: Text, k: nat)
    requires Reached(s) && !Overlapping(s, id) && k in s.works && HasListing(s.works[k], id)
    ensures id in s.contents.channels && id in s.contents.streams && ListingOk(s.contents.streams[id], s.works[k].progress.list)
  {
    ReachedCalls(s);
    assert ListInv(s, id);
  }

  lemma LastAmountGrows(c: Channel, stream: Stream, id: Text, n: nat)
    requires InStep(c, stream, id) && n <= |stream|
    ensures Decimal.IsAmount(LastAmount(stream[..n])) && Decimal.IsAmount(c.committed)
    ensures n < |stream| ==> Decimal.Value(LastAmount(stream[..n])) < Decimal.Value(c.committed)
  {
    NothingIsZero();
    if n > 0 {
      assert WellPlaced(c, stream[n - 1], n - 1);
    }
    if stream != [] {
      assert WellPlaced(c, stream[|stream| - 1], |stream| - 1);
    }
  }

  /** In every interleaving in which commits do not overlap each other, a close
      settles the committed amount exactly when no commitment was stored after it
      listed the stream; otherwise it settles less. */
  lemma StaleSettlementExactly(s: State, id: Text, k: nat)
    requires Reached(s) && !Overlapping(s, id) && NoCommitPending(s, id)
    requires k in s.works && HasListing(s.works[k], id)
    ensures id in s.contents.channels && id in s.contents.streams
    ensures var list, c := s.works[k].progress.list, s.contents.channels[id];
            && (list.request.cumulativeAmount == c.committed <==> |s.contents.streams[id]| == list.length)
            && Decimal.IsAmount(list.request.cumulativeAmount) && Decimal.IsAmount(c.committed)
            && (list.request.cumulativeAmount != c.committed ==>
                  Decimal.Value(list.request.cumulativeAmount) < Decimal.Value(c.committed))
  {
    ReachedListing(s, id, k);
    InStepExactly(s, id);
    var stream, list := s.contents.streams[id], s.works[k].progress.list;
    LastAmountGrows(s.contents.channels[id], stream, id, list.length);
    assert list.length == |stream| ==> stream[..list.length] == stream;
  }

  // ----- When a closed channel stays as it is -----

  /** The call has yet to store, advance, mark or answer. */
  predicate IsUnderWay(w: Work) {
    if w.Commits? then w.stage.Signing? || w.stage.Appended? else !w.progress.Answered?
  }

  ghost predicate NothingUnderWay(s: State, id: Text) {
    forall k :: k in s.works && s.works[k].id == id ==> !IsUnderWay(s.works[k])
  }

  ghost predicate SameChannel(s: State, t: State, id: Text)
    requires id in s.contents.channels
  {
    id in t.contents.channels && t.contents.channels[id] == s.contents.channels[id] && t.contents.StreamOf(id) == s.contents.StreamOf(id)
  }

  /** Nothing that can happen changes the channel or its stream. */
  ghost predicate Frozen(s: State, id: Text)
    requires id in s.contents.channels
  {
    forall steps :: IsRun(s, steps) ==> SameChannel(s, Final(s, steps), id)
  }

  lemma QuietStep(s: State, step: Step, id: Text)
    requires Orderly(s) && Enabled(s, step) && NothingUnderWay(s, id)
    requires id in s.contents.channels && s.contents.channels[id].status == Closed
    ensures SameChannel(s, Take(s, step), id) && NothingUnderWay(Take(s, step), id)
  {
    if !step.Opens? && step.call in s.works {
      assert s.works[step.call].id == id ==> !IsUnderWay(s.works[step.call]);
    }
  }

  lemma {:induction false} QuietRun(s: State, steps: seq<Step>, id: Text)
    requires Orderly(s) && IsRun(s, steps) && NothingUnderWay(s, id)
    requires id in s.contents.channels && s.contents.channels[id].status == Closed
    ensures SameChannel(s, Final(s, steps), id)
    decreases |steps|
  {
    if steps != [] {
      QuietStep(s, steps[0], id);
      TakeIsOrderly(s, steps[0]);
      QuietRun(Take(s, steps[0]), steps[1..], id);
    }
  }

  /** A step with which a call under way goes on. */
  function GoOn(k: nat, w: Work, now: Stamp): Step
    requires IsUnderWay(w)
  {
    if w.Commits? then if w.stage.Signing? then Signs(k, []) else Advances(k, now)
    else if w.progress.Read? then Lists(k)
    else if w.progress.Listed? then Asks(k)
    else Answers(k, None)
  }

  lemma GoOnEnabled(s: State, k: nat, now: Stamp)
    requires Orderly(s) && k in s.works && IsUnderWay(s.works[k])
    ensures Enabled(s, GoOn(k, s.works[k], now))
  {
    assert s.works[k].id in s.contents.channels;
  }

  /** But for a close that has yet to list, that step changes a closed channel. */
  lemma GoOnChanges(s: State, k: nat, id: Text, now: Stamp)
    requires Orderly(s) && k in s.works && s.works[k].id == id && IsUnderWay(s.works[k])
    requires id in s.contents.channels && s.contents.channels[id].status == Closed
    requires s.works[k].Closes? ==> !s.works[k].progress.Read?
    requires s.contents.channels[id].lastCommitAt != Some(now)
    ensures Enabled(s, GoOn(k, s.works[k], now)) && !SameChannel(s, Take(s, GoOn(k, s.works[k], now)), id)
  {
    GoOnEnabled(s, k, now);
    var t := Take(s, GoOn(k, s.works[k], now));
    if s.works[k].Commits? && s.works[k].stage.Signing? {
      assert |t.contents.StreamOf(id)| == |s.contents.StreamOf(id)| + 1;
    } else if s.works[k].Commits? {
      assert t.contents.channels[id].lastCommitAt == Some(now);
    } else {
      assert t.contents.channels[id].status != Closed;
    }
  }

  function OtherTime(c: Channel): Stamp {
    if c.lastCommitAt == Some(Instant(0)) then Instant(1) else Instant(0)
  }

  lemma UnderWayChanges(s: State, k: nat, id: Text)
    requires Orderly(s) && k in s.works && s.works[k].id == id && IsUnderWay(s.works[k])
    requires id in s.contents.channels && s.contents.channels[id].status == Closed
    ensures !Frozen(s, id)
  {
    var now := OtherTime(s.contents.channels[id]);
    if s.works[k].Closes? && s.works[k].progress.Read? {
      ListThenChange(s, k, id, now);
    } else {
      GoOnChanges(s, k, id, now);
      OneStep(s, GoOn(k, s.works[k], now));
      assert !SameChannel(s, Final(s, [GoOn(k, s.works[k], now)]), id);
    }
  }

  lemma ListThenChange(s: State, k: nat, id: Text, now: Stamp)
    requires Orderly(s) && k in s.works && s.works[k].id == id && s.works[k].Closes? && s.works[k].progress.Read?
    requires id in s.contents.channels && s.contents.channels[id].status == Closed
    requires s.contents.channels[id].lastCommitAt != Some(now)
    ensures !Frozen(s, id)
  {
    OneStep(s, Lists(k));
    var t := Take(s, Lists(k));
    TakeIsOrderly(s, Lists(k));
    GoOnChanges(t, k, id, now);
    var next := GoOn(k, t.works[k], now);
    RunStep(s, [Lists(k)], next);
    assert !SameChannel(s, Final(s, [Lists(k)] + [next]), id);
  }

  /** In every interleaving, a closed channel and its stream never change again
      exactly when no call on the channel is under way. */
  lemma ClosedStaysExactly(s: State, id: Text)
    requires Reached(s) && id in s.contents.channels && s.contents.channels[id].status == Closed
    ensures Frozen(s, id) <==> NothingUnderWay(s, id)
  {
    ReachedCalls(s);
    if NothingUnderWay(s, id) {
      forall steps | IsRun(s, steps) ensures SameChannel(s, Final(s, steps), id) {
        QuietRun(s, steps, id);
      }
    } else {
      var k :| k in s.works && s.works[k].id == id && IsUnderWay(s.works[k]);
      UnderWayChanges(s, k, id);
    }
  }

  // ----- Runs that do overlap -----

  lemma OneStep(s: State, step: Step)
    requires Enabled(s, step)
    ensures IsRun(s, [step]) && Final(s, [step]) == Take(s, step)
  {
    assert [step][1..] == [];
    assert Final(Take(s, step), []) == Take(s, step);
  }

  /** Runs are put together end to end. */
  lemma {:induction false} RunOn(s: State, steps: seq<Step>, more: seq<Step>)
    requires IsRun(s, steps) && IsRun(Final(s, steps), more)
    ensures IsRun(s, steps + more) && Final(s, steps + more) == Final(Final(s, steps), more)
    decreases |steps|
  {
    if steps == [] {
      assert steps + more == more;
    } else {
      RunOn(Take(s, steps[0]), steps[1..], more);
      assert (steps + more)[1..] == steps[1..] + more;
    }
  }

  lemma RunStep(s: State, steps: seq<Step>, step: Step)
    requires IsRun(s, steps) && Enabled(Final(s, steps), step)
    ensures IsRun(s, steps + [step]) && Final(s, steps + [step]) == Take(Final(s, steps), step)
  {
    OneStep(Final(s, steps), step);
    RunOn(s, steps, [step]);
  }

  /** The commitment is stored and the channel advanced to it. */
  function StoredIn(s: Contents, next: Commitment, now: Stamp): Contents {
    s.Append(next).Update(next.channelId, Advance(next.cumulativeAmount, next.sequence, now))
  }

  lemma RunStored(s: State, steps: seq<Step>, call: nat, blob: Text, now: Stamp)
    requires IsRun(s, steps) && call in Final(s, steps).works
    requires Final(s, steps).works[call].Commits? && Final(s, steps).works[call].stage.Signing?
    ensures var next := Final(s, steps).works[call].next.(blob := blob);
            var more := steps + [Signs(call, blob)] + [Advances(call, now)];
            && IsRun(s, more) && Final(s, more).contents == StoredIn(Final(s, steps).contents, next, now)
            && (forall q :: q != call ==> (q in Final(s, more).works <==> q in Final(s, steps).works))
            && (forall q :: q != call && q in Final(s, steps).works ==> Final(s, more).works[q] == Final(s, steps).works[q])
  {
    RunStep(s, steps, Signs(call, blob));
    RunStep(s, steps + [Signs(call, blob)], Advances(call, now));
  }

  /** Two commits read the channel; then the first is stored, then the second. */
  function Crossing(id: Text, a: Text, b: Text, x: Text, y: Text, now: Stamp): seq<Step> {
    [ReadsForCommit(1, id, a)] + [ReadsForCommit(2, id, b)] + [Signs(1, x)] + [Advances(1, now)] + [Signs(2, y)] + [Advances(2, now)]
  }

  lemma CrossingRun(s: Contents, id: Text, a: Text, b: Text, x: Text, y: Text, now: Stamp)
    requires CommitRefused(s, id, a).None? && CommitRefused(s, id, b).None?
    ensures var c, start := s.channels[id], StartFrom(s);
            && IsRun(start, Crossing(id, a, b, x, y, now))
            && Final(start, Crossing(id, a, b, x, y, now)).contents ==
                 StoredIn(StoredIn(s, NextCommitment(c, id, a, x), now), NextCommitment(c, id, b, y), now)
  {
    var start := StartFrom(s);
    var r := [ReadsForCommit(1, id, a)];
    OneStep(start, r[0]);
    RunStep(start, r, ReadsForCommit(2, id, b));
    r := r + [ReadsForCommit(2, id, b)];
    RunStored(start, r, 1, x, now);
    r := r + [Signs(1, x)] + [Advances(1, now)];
    RunStored(start, r, 2, y, now);
  }

  lemma CommittedOf(s: Contents, end: Contents, id: Text, amount: Text)
    requires CommitRefused(s, id, amount).None? && id in end.channels
    requires end.channels[id].committed == NextCommitment(s.channels[id], id, amount, []).cumulativeAmount
    ensures Committed(end, id) == Committed(s, id) + Decimal.Value(amount)
  {
    Decimal.PrintThenParse(Decimal.Value(s.channels[id].committed) + Decimal.Value(amount));
  }

  lemma StoredTwice(s: Contents, id: Text, m: Commitment, n: Commitment, now: Stamp)
    requires id in s.channels && m.channelId == n.channelId == id
    ensures var end := StoredIn(StoredIn(s, m, now), n, now);
            && id in end.channels && end.channels[id].committed == n.cumulativeAmount
            && end.StreamOf(id) == s.StreamOf(id) + [m] + [n]
  {
  }

  /** Crossing commits happen on any channel that takes both: the two are stored
      under one sequence, and the channel forgets the amount of the first. */
  lemma CrossingForgets(s: Contents, id: Text, a: Text, b: Text, x: Text, y: Text, now: Stamp)
    requires CommitRefused(s, id, a).None? && CommitRefused(s, id, b).None?
    ensures var c, start := s.channels[id], StartFrom(s);
            && IsRun(start, Crossing(id, a, b, x, y, now))
            && var end := Final(start, Crossing(id, a, b, x, y, now)).contents;
               && end.StreamOf(id) == s.StreamOf(id) + [NextCommitment(c, id, a, x)] + [NextCommitment(c, id, b, y)]
               && Committed(end, id) == Committed(s, id) + Decimal.Value(b)
  {
    var c := s.channels[id];
    var m, n := NextCommitment(c, id, a, x), NextCommitment(c, id, b, y);
    CrossingRun(s, id, a, b, x, y, now);
    StoredTwice(s, id, m, n, now);
    CommittedOf(s, StoredIn(StoredIn(s, m, now), n, now), id, b);
  }

  function ClosingMeanwhile(id: Text, a: Text, reply: Settlement): seq<Step> {
    [ReadsForCommit(1, id, a)] + [ReadsForClose(2, id)] + [Lists(2)] + [Asks(2)] + [Answers(2, Some(reply))]
  }

  lemma ClosedMeanwhile(s: Contents, id: Text, a: Text, reply: Settlement)
    requires CommitRefused(s, id, a).None? && reply.settledAmount == RequestFrom(s, id).cumulativeAmount
    ensures IsRun(StartFrom(s), ClosingMeanwhile(id, a, reply))
    ensures var end := Final(StartFrom(s), ClosingMeanwhile(id, a, reply));
            && 1 in end.works && end.works[1] == Commits(id, 0, NextCommitment(s.channels[id], id, a, []), Signing)
            && end.contents == s.Update(id, ToStatus(Closing)).Update(id, Settle(reply.settlementTxHash, reply.returnedRemainder))
  {
    var start := StartFrom(s);
    var r := [ReadsForCommit(1, id, a)];
    OneStep(start, r[0]);
    RunStep(start, r, ReadsForClose(2, id));
    r := r + [ReadsForClose(2, id)];
    RunStep(start, r, Lists(2));
    r := r + [Lists(2)];
    RunStep(start, r, Asks(2));
    r := r + [Asks(2)];
    RunStep(start, r, Answers(2, Some(reply)));
  }

  lemma StoredAfterClose(s: Contents, id: Text, m: Commitment, reply: Settlement, now: Stamp)
    requires id in s.channels && m.channelId == id
    ensures var end := StoredIn(s.Update(id, ToStatus(Closing)).Update(id, Settle(reply.settlementTxHash, reply.returnedRemainder)), m, now);
            && id in end.channels && end.channels[id].status == Closed && end.channels[id].committed == m.cumulativeAmount
            && end.StreamOf(id) == s.StreamOf(id) + [m]
  {
  }

  lemma CommitAfterCloseRun(s: Contents, id: Text, a: Text, x: Text, reply: Settlement, now: Stamp)
    requires CommitRefused(s, id, a).None? && reply.settledAmount == RequestFrom(s, id).cumulativeAmount
    ensures var steps := ClosingMeanwhile(id, a, reply) + [Signs(1, x)] + [Advances(1, now)];
            var closed := s.Update(id, ToStatus(Closing)).Update(id, Settle(reply.settlementTxHash, reply.returnedRemainder));
            && IsRun(StartFrom(s), steps)
            && Final(StartFrom(s), steps).contents == StoredIn(closed, NextCommitment(s.channels[id], id, a, x), now)
  {
    ClosedMeanwhile(s, id, a, reply);
    RunStored(StartFrom(s), ClosingMeanwhile(id, a, reply), 1, x, now);
    assert NextCommitment(s.channels[id], id, a, []).(blob := x) == NextCommitment(s.channels[id], id, a, x);
  }

  /** A commit that waits for its signature while the channel is closed still goes
      through: the closed channel changes, and more is committed than was
      settled. */
  lemma CommitAfterClose(s: Contents, id: Text, a: Text, x: Text, reply: Settlement, now: Stamp)
    requires CommitRefused(s, id, a).None? && reply.settledAmount == RequestFrom(s, id).cumulativeAmount
    ensures var steps := ClosingMeanwhile(id, a, reply) + [Signs(1, x)] + [Advances(1, now)];
            && IsRun(StartFrom(s), steps)
            && var end := Final(StartFrom(s), steps).contents;
               && id in end.channels && end.channels[id].status == Closed
               && Committed(end, id) == Committed(s, id) + Decimal.Value(a)
               && end.StreamOf(id) == s.StreamOf(id) + [NextCommitment(s.channels[id], id, a, x)]
  {
    var closed := s.Update(id, ToStatus(Closing)).Update(id, Settle(reply.settlementTxHash, reply.returnedRemainder));
    CommitAfterCloseRun(s, id, a, x, reply, now);
    StoredAfterClose(s, id, NextCommitment(s.channels[id], id, a, x), reply, now);
    CommittedOf(s, StoredIn(closed, NextCommitment(s.channels[id], id, a, x), now), id, a);
  }

  /** Two closes read one open channel. */
  function TwoRead(id: Text): seq<Step> {
    [ReadsForClose(1, id)] + [ReadsForClose(2, id)] + [Lists(1)] + [Lists(2)] + [Asks(1)]
  }

  lemma TwoReadRun(s: Contents, id: Text)
    requires id in s.channels && s.channels[id].status == Open
    ensures IsRun(StartFrom(s), TwoRead(id))
    ensures var end, list := Final(StartFrom(s), TwoRead(id)), Listing(|s.StreamOf(id)|, RequestFrom(s, id));
            end == State(s.Update(id, ToStatus(Closing)), map[1 := Closes(id, 0, Settling(list, 4)), 2 := Closes(id, 1, Listed(list))], 5)
  {
    var start := StartFrom(s);
    var r := [ReadsForClose(1, id)];
    OneStep(start, r[0]);
    RunStep(start, r, ReadsForClose(2, id));
    r := r + [ReadsForClose(2, id)];
    RunStep(start, r, Lists(1));
    r := r + [Lists(1)];
    RunStep(start, r, Lists(2));
    r := r + [Lists(2)];
    RunStep(start, r, Asks(1));
  }

  /** Both ask: two settlements of any open channel can be outstanding at once. */
  lemma TwoClosesBothAsk(s: Contents, id: Text)
    requires id in s.channels && s.channels[id].status == Open
    ensures IsRun(StartFrom(s), TwoRead(id) + [Asks(2)])
    ensures AsksDuring(Final(StartFrom(s), TwoRead(id) + [Asks(2)]), id, false, 1, 2)
  {
    TwoReadRun(s, id);
    RunStep(StartFrom(s), TwoRead(id), Asks(2));
  }

  /** Slipping past is not enough: when the first settlement has failed before the
      second close asks, the two are never outstanding at once, although the
      second had passed its status check before the first marked the channel. */
  lemma SlippedButNotAtOnce(s: Contents, id: Text)
    requires id in s.channels && s.channels[id].status == Open
    ensures IsRun(StartFrom(s), TwoRead(id) + [Answers(1, None)] + [Asks(2)])
    ensures var end := Final(StartFrom(s), TwoRead(id) + [Answers(1, None)] + [Asks(2)]);
            && 1 in end.works && 2 in end.works && Marked(end.works[1]) && Marked(end.works[2])
            && end.works[2].readAt < end.works[1].progress.markedAt && !AskedAgain(end, id, false)
  {
    TwoReadRun(s, id);
    RunStep(StartFrom(s), TwoRead(id), Answers(1, None));
    RunStep(StartFrom(s), TwoRead(id) + [Answers(1, None)], Asks(2));
    var end := Final(StartFrom(s), TwoRead(id) + [Answers(1, None)] + [Asks(2)]);
    assert forall k :: k in end.works ==> k == 1 || k == 2;
    assert end.works[1].progress.markedAt == 4 && end.works[1].progress.answeredAt == 5 && end.works[2].progress.markedAt == 6;
  }
}
