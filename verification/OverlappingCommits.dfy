/** Exactly when overlapping commits break a stream: when one that is stored read
    the channel between the read and the advance of another that is stored. */
module OverlappingCommits {
  import opened JsText
  import opened Commitments
  import opened CommitmentStore
  import opened Channels
  import opened ChannelRuns
  import opened ChannelOverlap

  /** The commit put its commitment on the stream of the channel. */
  predicate Stored(w: Work, id: Text) {
    w.Commits? && w.id == id && (w.stage.Appended? || w.stage.Advanced?)
  }

  /** j read the channel after i did and before i advanced it. */
  predicate ReadsDuring(i: Work, j: Work) {
    i.Commits? && i.readAt < j.readAt && (i.stage.Appended? || (i.stage.Advanced? && j.readAt < i.stage.at))
  }

  ghost predicate Overlapping(s: State, id: Text) {
    exists i, j :: i in s.works && j in s.works && Stored(s.works[i], id) && Stored(s.works[j], id) && ReadsDuring(s.works[i], s.works[j])
  }

  // ----- The invariant -----

  /** Some commitment does not have its position as its sequence. */
  ghost predicate Skewed(stream: Stream) {
    exists p :: 0 <= p < |stream| && stream[p].sequence != p
  }

  /** The last commitment is stored, and the channel has yet to advance to it. */
  ghost predicate Behind(c: Channel, stream: Stream, id: Text, next: Commitment) {
    && stream != [] && stream[|stream| - 1] == next
    && InStep(c, stream[..|stream| - 1], id) && Continues(c, next)
  }

  /** A commitment that waits for its signature was next in line when its call
      read the channel; it still is unless another one has been stored since. */
  ghost predicate Waits(s: State, id: Text, w: Work)
    requires id in s.contents.channels && w.Commits?
  {
    var c := s.contents.channels[id];
    && w.next.sequence <= c.sequence + 1
    && (forall i :: i in s.works && Stored(s.works[i], id) && s.works[i].stage.Advanced? && w.readAt < s.works[i].stage.at ==>
          w.next.sequence <= c.sequence)
    && ((forall i :: i in s.works && Stored(s.works[i], id) ==> s.works[i].stage.Advanced? && s.works[i].stage.at <= w.readAt) ==>
          Continues(c, w.next))
  }

  predicate IsAppended(w: Work, id: Text) {
    w.Commits? && w.id == id && w.stage.Appended?
  }

  predicate IsSigning(w: Work, id: Text) {
    w.Commits? && w.id == id && w.stage.Signing?
  }

  ghost predicate StreamOk(s: State, id: Text)
    requires id in s.contents.channels && id in s.contents.streams
  {
    var c, stream := s.contents.channels[id], s.contents.streams[id];
    && (forall a :: a in s.works && IsAppended(s.works[a], id) ==> Behind(c, stream, id, s.works[a].next))
    && ((forall a :: a in s.works ==> !IsAppended(s.works[a], id)) ==> InStep(c, stream, id))
  }

  ghost predicate WaitersOk(s: State, id: Text)
    requires id in s.contents.channels
  {
    forall k :: k in s.works && IsSigning(s.works[k], id) ==> Waits(s, id, s.works[k])
  }

  ghost predicate CommitInv(s: State, id: Text)
    requires id in s.contents.channels && id in s.contents.streams
  {
    if Overlapping(s, id) then Skewed(s.contents.streams[id]) else StreamOk(s, id) && WaitersOk(s, id)
  }

  // ----- Steps that store nothing and advance nothing -----

  predicate SameCore(c: Channel, d: Channel) {
    c.id == d.id && c.deposit == d.deposit && c.committed == d.committed && c.sequence == d.sequence
  }

  lemma CoreInStep(c: Channel, d: Channel, stream: Stream, id: Text)
    requires SameCore(c, d) && InStep(c, stream, id)
    ensures InStep(d, stream, id)
  {
    forall i | 0 <= i < |stream| ensures WellPlaced(d, stream[i], i) {
      assert WellPlaced(c, stream[i], i);
    }
  }

  /** The channel, its stream and its stored commits are the same. */
  ghost predicate SameStored(s: State, t: State, id: Text) {
    && id in s.contents.channels && id in t.contents.channels && id in s.contents.streams && id in t.contents.streams
    && SameCore(s.contents.channels[id], t.contents.channels[id]) && t.contents.streams[id] == s.contents.streams[id]
    && (forall i :: i in s.works && Stored(s.works[i], id) ==> i in t.works && t.works[i] == s.works[i])
    && (forall i :: i in t.works && Stored(t.works[i], id) ==> i in s.works && s.works[i] == t.works[i])
  }

  lemma SameOverlap(s: State, t: State, id: Text)
    requires SameStored(s, t, id)
    ensures Overlapping(s, id) ==> Overlapping(t, id)
  {
  }

  lemma SameReversed(s: State, t: State, id: Text)
    requires SameStored(s, t, id)
    ensures SameStored(t, s, id)
  {
  }

  lemma SameStream(s: State, t: State, id: Text)
    requires SameStored(s, t, id) && StreamOk(s, id)
    ensures StreamOk(t, id)
  {
    var c, d, stream := s.contents.channels[id], t.contents.channels[id], s.contents.streams[id];
    forall a | a in t.works && IsAppended(t.works[a], id) ensures Behind(d, stream, id, t.works[a].next) {
      assert Stored(t.works[a], id) && IsAppended(s.works[a], id);
      CoreInStep(c, d, stream[..|stream| - 1], id);
    }
    if forall a :: a in t.works ==> !IsAppended(t.works[a], id) {
      forall a | a in s.works ensures !IsAppended(s.works[a], id) {
        assert IsAppended(s.works[a], id) ==> Stored(s.works[a], id);
      }
      CoreInStep(c, d, stream, id);
    }
  }

  lemma SameWaiter(s: State, t: State, id: Text, w: Work)
    requires SameStored(s, t, id) && w.Commits? && Waits(s, id, w)
    ensures Waits(t, id, w)
  {
  }

  /** A waiting commitment of t waits in s already, or has just been made. */
  lemma SameKeeps(s: State, t: State, id: Text)
    requires SameStored(s, t, id) && CommitInv(s, id)
    requires forall k :: k in t.works && IsSigning(t.works[k], id) && StreamOk(s, id) ==>
               (k in s.works && s.works[k] == t.works[k]) || Waits(t, id, t.works[k])
    ensures CommitInv(t, id)
  {
    SameReversed(s, t, id);
    SameOverlap(s, t, id);
    SameOverlap(t, s, id);
    if !Overlapping(s, id) {
      SameStream(s, t, id);
      forall k | k in t.works && IsSigning(t.works[k], id) ensures Waits(t, id, t.works[k]) {
        if k in s.works && s.works[k] == t.works[k] {
          SameWaiter(s, t, id, t.works[k]);
        }
      }
    }
  }

  /** The step neither stores a commitment of this channel nor advances it. */
  predicate Passive(s: State, step: Step, id: Text)
    requires Enabled(s, step)
  {
    step.Signs? || step.Advances? ==> s.works[step.call].id != id
  }

  lemma PassiveContents(s: State, step: Step, id: Text)
    requires Orderly(s) && Enabled(s, step) && Passive(s, step, id) && id in s.contents.channels
    ensures var t := ContentsAfter(s, step);
            && id in t.channels && id in t.streams
            && SameCore(s.contents.channels[id], t.channels[id]) && t.streams[id] == s.contents.streams[id]
  {
  }

  lemma PassiveWorks(s: State, step: Step, id: Text)
    requires Enabled(s, step) && Passive(s, step, id) && !step.Opens?
    ensures !Stored(WorkAfter(s, step), id)
    ensures step.call in s.works ==> !Stored(s.works[step.call], id)
    ensures IsSigning(WorkAfter(s, step), id) ==> step.ReadsForCommit? && step.id == id
  {
  }

  lemma PassiveIsSame(s: State, step: Step, id: Text)
    requires Orderly(s) && Enabled(s, step) && Passive(s, step, id) && id in s.contents.channels
    ensures SameStored(s, Take(s, step), id)
  {
    PassiveContents(s, step, id);
    if !step.Opens? {
      PassiveWorks(s, step, id);
    }
  }

  /** A call that reads the channel while its stream is in step finds the next
      commitment of the channel. */
  lemma ReaderContinues(s: State, step: Step, id: Text)
    requires Enabled(s, step) && step.ReadsForCommit? && step.id == id
    ensures var c := s.contents.channels[id];
            && WorkAfter(s, step).next.sequence == c.sequence + 1
            && (c.id == id ==> Continues(c, WorkAfter(s, step).next))
  {
    if s.contents.channels[id].id == id {
      NextContinues(s.contents.channels[id], step.amount, []);
    }
  }

  lemma ReaderWaits(s: State, step: Step, id: Text)
    requires Orderly(s) && Enabled(s, step) && step.ReadsForCommit? && step.id == id && StreamOk(s, id)
    requires SameStored(s, Take(s, step), id)
    ensures Waits(Take(s, step), id, WorkAfter(s, step))
  {
    var w, t := WorkAfter(s, step), Take(s, step);
    ReaderContinues(s, step, id);
    if forall i :: i in t.works && Stored(t.works[i], id) ==> t.works[i].stage.Advanced? {
      forall a | a in s.works ensures !IsAppended(s.works[a], id) {
        assert IsAppended(s.works[a], id) ==> Stored(s.works[a], id);
      }
      assert s.contents.channels[id].id == id;
    }
    forall i | i in t.works && Stored(t.works[i], id) && t.works[i].stage.Advanced? ensures t.works[i].stage.at < w.readAt {
      assert InTime(s.works[i], s.time);
    }
  }

  lemma PassiveKeeps(s: State, step: Step, id: Text)
    requires Orderly(s) && Enabled(s, step) && Passive(s, step, id) && id in s.contents.channels && CommitInv(s, id)
    ensures id in Take(s, step).contents.channels && id in Take(s, step).contents.streams
    ensures CommitInv(Take(s, step), id)
  {
    var t := Take(s, step);
    PassiveIsSame(s, step, id);
    forall k | k in t.works && IsSigning(t.works[k], id) && StreamOk(s, id)
      ensures (k in s.works && s.works[k] == t.works[k]) || Waits(t, id, t.works[k])
    {
      if !step.Opens? && k == step.call {
        PassiveWorks(s, step, id);
        ReaderWaits(s, step, id);
      }
    }
    SameKeeps(s, t, id);
  }

  // ----- A commitment is stored -----

  /** Another stored commit overlaps the one with readAt `at`. */
  predicate Passed(m: Work, at: nat) {
    m.Commits? && (m.stage.Appended? || (m.stage.Advanced? && at < m.stage.at))
  }

  lemma StoringOverlap(s: State, step: Step, id: Text) returns (m: nat)
    requires Orderly(s) && Enabled(s, step) && step.Signs? && s.works[step.call].id == id
    requires !Overlapping(s, id) && Overlapping(Take(s, step), id)
    ensures m in s.works && Stored(s.works[m], id) && Passed(s.works[m], s.works[step.call].readAt)
  {
    var t := Take(s, step);
    var i, j :| i in t.works && j in t.works && Stored(t.works[i], id) && Stored(t.works[j], id) && ReadsDuring(t.works[i], t.works[j]);
    m := if i == step.call then j else i;
    assert i != j;
    assert (i != step.call ==> s.works[i] == t.works[i]) && (j != step.call ==> s.works[j] == t.works[j]);
  }

  lemma PassedIsOverlap(m: Work, k: Work)
    requires k.Commits? && k.stage.Appended? && Passed(m, k.readAt) && m.readAt != k.readAt
    ensures ReadsDuring(m, k) || ReadsDuring(k, m)
  {
  }

  lemma StoringClear(s: State, step: Step, id: Text, m: nat)
    requires Orderly(s) && Enabled(s, step) && step.Signs? && s.works[step.call].id == id
    requires !Overlapping(Take(s, step), id) && m in s.works && Stored(s.works[m], id)
    ensures s.works[m].stage.Advanced? && s.works[m].stage.at <= s.works[step.call].readAt
  {
    var t, k := Take(s, step), step.call;
    assert t.works[m] == s.works[m] && Stored(t.works[k], id) && t.works[k].readAt == s.works[k].readAt;
    if Passed(s.works[m], s.works[k].readAt) {
      PassedIsOverlap(t.works[m], t.works[k]);
    }
  }

  lemma StoringSkews(s: State, step: Step, id: Text, m: nat)
    requires Orderly(s) && Enabled(s, step) && step.Signs? && s.works[step.call].id == id
    requires StreamOk(s, id) && WaitersOk(s, id)
    requires m in s.works && Stored(s.works[m], id) && Passed(s.works[m], s.works[step.call].readAt)
    ensures Skewed(Take(s, step).contents.streams[id])
  {
    var stream, w := s.contents.streams[id], s.works[step.call];
    var stream' := Take(s, step).contents.streams[id];
    assert stream' == stream + [w.next.(blob := step.blob)];
    assert IsSigning(w, id) && Waits(s, id, w);
    if a :| a in s.works && IsAppended(s.works[a], id) {
      assert Behind(s.contents.channels[id], stream, id, s.works[a].next);
    }
    assert stream'[|stream|].sequence < |stream|;
  }

  lemma StoredStream(s: State, step: Step, id: Text)
    requires Orderly(s) && Enabled(s, step) && step.Signs? && s.works[step.call].id == id
    requires StreamOk(s, id) && WaitersOk(s, id)
    requires forall m :: m in s.works && Stored(s.works[m], id) ==>
               s.works[m].stage.Advanced? && s.works[m].stage.at <= s.works[step.call].readAt
    ensures StreamOk(Take(s, step), id)
  {
    var t, w := Take(s, step), s.works[step.call];
    var c, stream := s.contents.channels[id], s.contents.streams[id];
    assert IsSigning(w, id) && Waits(s, id, w);
    var next := w.next.(blob := step.blob);
    assert t.contents.streams[id] == stream + [next] && (stream + [next])[..|stream|] == stream;
    assert t.works[step.call].next == next && IsAppended(t.works[step.call], id);
    forall a | a in s.works ensures !IsAppended(s.works[a], id) {
      assert IsAppended(s.works[a], id) ==> Stored(s.works[a], id);
    }
    assert Continues(c, next) && Behind(c, stream + [next], id, next);
  }

  lemma StoredWaiters(s: State, step: Step, id: Text)
    requires Orderly(s) && Enabled(s, step) && step.Signs? && s.works[step.call].id == id && WaitersOk(s, id)
    ensures WaitersOk(Take(s, step), id)
  {
    var t := Take(s, step);
    assert Stored(t.works[step.call], id) && !t.works[step.call].stage.Advanced?;
    forall k | k in t.works && IsSigning(t.works[k], id) ensures Waits(t, id, t.works[k]) {
      assert t.works[k] == s.works[k] && Waits(s, id, s.works[k]);
      forall i | i in t.works && Stored(t.works[i], id) && t.works[i].stage.Advanced? ensures s.works[i] == t.works[i] {
      }
    }
  }

  lemma SignKeeps(s: State, step: Step, id: Text)
    requires Orderly(s) && Enabled(s, step) && step.Signs? && s.works[step.call].id == id && CommitInv(s, id)
    ensures CommitInv(Take(s, step), id)
  {
    var t := Take(s, step);
    if Overlapping(s, id) {
      OverlapStays(s, step, id);
      SkewStays(s.contents.streams[id], t.contents.streams[id][|t.contents.streams[id]| - 1]);
    } else if Overlapping(t, id) {
      var m := StoringOverlap(s, step, id);
      StoringSkews(s, step, id, m);
    } else {
      forall m | m in s.works && Stored(s.works[m], id)
        ensures s.works[m].stage.Advanced? && s.works[m].stage.at <= s.works[step.call].readAt
      {
        StoringClear(s, step, id, m);
      }
      StoredStream(s, step, id);
      StoredWaiters(s, step, id);
    }
  }

  lemma SkewStays(stream: Stream, next: Commitment)
    requires Skewed(stream)
    ensures Skewed(stream + [next])
  {
    var p :| 0 <= p < |stream| && stream[p].sequence != p;
    assert (stream + [next])[p] == stream[p];
  }

  lemma StoredStays(s: State, step: Step, id: Text, k: nat)
    requires Enabled(s, step) && (step.Signs? || step.Advances?) && k in s.works && Stored(s.works[k], id)
    ensures var t := Take(s, step); k in t.works && Stored(t.works[k], id) && t.works[k].readAt == s.works[k].readAt
    ensures s.works[k].stage.Advanced? ==> Take(s, step).works[k].stage == s.works[k].stage
    ensures Take(s, step).works[k].stage.Advanced? && s.works[k].stage.Appended? ==> Take(s, step).works[k].stage.at == s.time
  {
  }

  /** A stored commit stays stored, and it advances later than every read so far. */
  lemma OverlapStays(s: State, step: Step, id: Text)
    requires Orderly(s) && Enabled(s, step) && (step.Signs? || step.Advances?) && Overlapping(s, id)
    ensures Overlapping(Take(s, step), id)
  {
    var i, j :| i in s.works && j in s.works && Stored(s.works[i], id) && Stored(s.works[j], id) && ReadsDuring(s.works[i], s.works[j]);
    StoredStays(s, step, id, i);
    StoredStays(s, step, id, j);
    assert ReadsDuring(Take(s, step).works[i], Take(s, step).works[j]);
  }

  // ----- The channel advances -----

  lemma AdvanceKeepsOverlap(s: State, step: Step, id: Text)
    requires Orderly(s) && Enabled(s, step) && step.Advances? && s.works[step.call].id == id && Overlapping(Take(s, step), id)
    ensures Overlapping(s, id)
  {
    var t := Take(s, step);
    var i, j :| i in t.works && j in t.works && Stored(t.works[i], id) && Stored(t.works[j], id) && ReadsDuring(t.works[i], t.works[j]);
    assert Stored(s.works[i], id) && Stored(s.works[j], id) && ReadsDuring(s.works[i], s.works[j]);
  }

  /** At most one stored commit of a channel is still to be advanced to. */
  lemma OneAppended(s: State, id: Text, a: nat, b: nat)
    requires Orderly(s) && !Overlapping(s, id) && a in s.works && b in s.works
    requires IsAppended(s.works[a], id) && IsAppended(s.works[b], id)
    ensures a == b
  {
    assert a != b ==> ReadsDuring(s.works[a], s.works[b]) || ReadsDuring(s.works[b], s.works[a]);
  }

  lemma AdvancedInStep(c: Channel, stream: Stream, id: Text, next: Commitment, now: Stamp)
    requires Behind(c, stream, id, next)
    ensures InStep(Patched(c, Advance(next.cumulativeAmount, next.sequence, now)), stream, id)
  {
    ContinueKeepsStep(c, stream[..|stream| - 1], id, next, now);
    assert stream == stream[..|stream| - 1] + [next];
  }

  lemma NoneAppended(s: State, step: Step, id: Text)
    requires Orderly(s) && Enabled(s, step) && step.Advances? && s.works[step.call].id == id && !Overlapping(s, id)
    ensures forall a :: a in Take(s, step).works ==> !IsAppended(Take(s, step).works[a], id)
  {
    var t := Take(s, step);
    forall a | a in t.works ensures !IsAppended(t.works[a], id) {
      if IsAppended(t.works[a], id) {
        OneAppended(s, id, a, step.call);
      }
    }
  }

  lemma AdvancedChannel(s: State, step: Step, id: Text)
    requires Orderly(s) && Enabled(s, step) && step.Advances? && s.works[step.call].id == id
    ensures var next, t := s.works[step.call].next, ContentsAfter(s, step);
            && id in s.contents.channels && id in t.channels && id in t.streams && t.streams == s.contents.streams
            && t.channels[id] == Patched(s.contents.channels[id], Advance(next.cumulativeAmount, next.sequence, step.now))
  {
  }

  lemma AdvancedStream(s: State, step: Step, id: Text)
    requires Orderly(s) && Enabled(s, step) && step.Advances? && s.works[step.call].id == id
    requires !Overlapping(s, id) && StreamOk(s, id)
    ensures StreamOk(Take(s, step), id)
    ensures Take(s, step).contents.channels[id].sequence == s.contents.channels[id].sequence + 1
  {
    var w := s.works[step.call];
    assert IsAppended(w, id) && Behind(s.contents.channels[id], s.contents.streams[id], id, w.next);
    AdvancedChannel(s, step, id);
    AdvancedInStep(s.contents.channels[id], s.contents.streams[id], id, w.next, step.now);
    NoneAppended(s, step, id);
  }

  lemma AdvancedWaiters(s: State, step: Step, id: Text)
    requires Orderly(s) && Enabled(s, step) && step.Advances? && s.works[step.call].id == id && WaitersOk(s, id)
    requires id in Take(s, step).contents.channels
    requires Take(s, step).contents.channels[id].sequence == s.contents.channels[id].sequence + 1
    ensures WaitersOk(Take(s, step), id)
  {
    var t := Take(s, step);
    assert Stored(t.works[step.call], id) && t.works[step.call].stage == Advanced(s.time);
    forall k | k in t.works && IsSigning(t.works[k], id) ensures Waits(t, id, t.works[k]) {
      assert t.works[k] == s.works[k] && Waits(s, id, s.works[k]) && t.works[k].readAt < s.time;
    }
  }

  lemma AdvanceKeeps(s: State, step: Step, id: Text)
    requires Orderly(s) && Enabled(s, step) && step.Advances? && s.works[step.call].id == id && CommitInv(s, id)
    ensures CommitInv(Take(s, step), id)
  {
    var t := Take(s, step);
    assert t.contents.streams == s.contents.streams;
    if Overlapping(s, id) {
      OverlapStays(s, step, id);
    } else {
      if Overlapping(t, id) {
        AdvanceKeepsOverlap(s, step, id);
      }
      AdvancedStream(s, step, id);
      AdvancedWaiters(s, step, id);
    }
  }

  // ----- Runs -----

  lemma OpenedInv(s: State, step: Step, id: Text)
    requires Orderly(s) && Enabled(s, step) && step.Opens? && step.opening.channelId == id
    ensures CommitInv(Take(s, step), id)
  {
    var t := Take(s, step);
    NewChannelTracked(step.input, step.opening, step.now);
    assert t.contents.streams[id] == [];
    assert forall k :: k in t.works ==> t.works[k].id != id;
  }

  ghost predicate AllInv(s: State) {
    Orderly(s) && forall id :: id in s.contents.channels ==> CommitInv(s, id)
  }

  lemma StepKeepsCommits(s: State, step: Step, id: Text)
    requires AllInv(s) && Enabled(s, step) && id in Take(s, step).contents.channels
    ensures id in Take(s, step).contents.streams && CommitInv(Take(s, step), id)
  {
    TakeIsOrderly(s, step);
    if step.Opens? && step.opening.channelId == id {
      OpenedInv(s, step, id);
    } else {
      assert id in s.contents.channels && CommitInv(s, id);
      if Passive(s, step, id) {
        PassiveKeeps(s, step, id);
      } else if step.Signs? {
        SignKeeps(s, step, id);
      } else {
        AdvanceKeeps(s, step, id);
      }
    }
  }

  lemma {:induction false} RunKeepsCommits(s: State, steps: seq<Step>)
    requires AllInv(s) && IsRun(s, steps)
    ensures AllInv(Final(s, steps))
    decreases |steps|
  {
    if steps != [] {
      var t := Take(s, steps[0]);
      TakeIsOrderly(s, steps[0]);
      forall id | id in t.contents.channels ensures CommitInv(t, id) {
        StepKeepsCommits(s, steps[0], id);
      }
      RunKeepsCommits(t, steps[1..]);
    }
  }

  lemma ReachedInv(s: State)
    requires Reached(s)
    ensures AllInv(s)
  {
    var steps :| IsRun(StartFrom(EMPTY), steps) && s == Final(StartFrom(EMPTY), steps);
    RunKeepsCommits(StartFrom(EMPTY), steps);
  }

  // ----- Main result -----

  /** No commit on the channel is under way. */
  ghost predicate NoCommitPending(s: State, id: Text) {
    forall k :: k in s.works ==> !IsSigning(s.works[k], id) && !IsAppended(s.works[k], id)
  }

  lemma SkewedIsNotInStep(c: Channel, stream: Stream, id: Text)
    requires Skewed(stream)
    ensures !InStep(c, stream, id)
  {
    var p :| 0 <= p < |stream| && stream[p].sequence != p;
    if InStep(c, stream, id) {
      SequenceAt(c, stream, id, p);
    }
  }

  lemma SequenceAt(c: Channel, stream: Stream, id: Text, p: nat)
    requires InStep(c, stream, id) && p < |stream|
    ensures stream[p].sequence == p
  {
    assert WellPlaced(c, stream[p], p);
  }

  /** In every interleaving, once no commit is under way on a channel, the channel
      is in step with its stream exactly when no stored commit read the channel
      between the read and the advance of another stored commit. */
  lemma InStepExactly(s: State, id: Text)
    requires Reached(s) && id in s.contents.channels && NoCommitPending(s, id)
    ensures id in s.contents.streams
    ensures InStep(s.contents.channels[id], s.contents.streams[id], id) <==> !Overlapping(s, id)
  {
    ReachedInv(s);
    assert CommitInv(s, id);
    if Overlapping(s, id) {
      SkewedIsNotInStep(s.contents.channels[id], s.contents.streams[id], id);
    } else {
      assert forall a :: a in s.works ==> !IsAppended(s.works[a], id);
    }
  }
}
