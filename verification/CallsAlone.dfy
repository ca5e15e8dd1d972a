/** Calls that nothing overlaps: taken step by step they do what the manager's
    methods do, so the runs of the one are runs of the other. */
module CallsAlone {
  import opened JsText
  import opened Commitments
  import opened CommitmentStore
  import opened Channels
  import opened ChannelOverlap
  import opened OverlappingCalls

  /** A commit on its own: it starts exactly when it is not refused, and ends with the
      store that Commit leaves, signed or not. */
  lemma CommitAlone(s: State, call: nat, id: Text, amount: Text, blob: Text, now: Stamp)
    requires call !in s.works
    ensures Enabled(s, ReadsForCommit(call, id, amount)) <==> CommitSpec(s.contents, id, amount, Some(blob), now).0.Done?
    ensures Enabled(s, ReadsForCommit(call, id, amount)) ==>
              var stored, failed := [ReadsForCommit(call, id, amount)] + [Signs(call, blob)] + [Advances(call, now)],
                                    [ReadsForCommit(call, id, amount)] + [SigningFails(call)];
              && IsRun(s, stored) && Final(s, stored).contents == CommitSpec(s.contents, id, amount, Some(blob), now).1
              && IsRun(s, failed) && Final(s, failed).contents == CommitSpec(s.contents, id, amount, None, now).1
  {
    var begin := ReadsForCommit(call, id, amount);
    if Enabled(s, begin) {
      OneStep(s, begin);
      RunStep(s, [begin], SigningFails(call));
      RunStored(s, [begin], call, blob, now);
      assert NextCommitment(s.contents.channels[id], id, amount, []).(blob := blob) == NextCommitment(s.contents.channels[id], id, amount, blob);
    }
  }

  /** A close on its own: it starts exactly on an open channel, asks the adapter what
      Close asks, and ends with the store that Close leaves, whatever the answer. */
  lemma CloseAlone(s: State, call: nat, id: Text, reply: Option<Settlement>)
    requires call !in s.works
    ensures Enabled(s, ReadsForClose(call, id)) <==> Request(s.contents, id).Some?
    ensures Enabled(s, ReadsForClose(call, id)) ==>
              var asking := [ReadsForClose(call, id)] + [Lists(call)] + [Asks(call)];
              var end := asking + [Answers(call, reply)];
              && IsRun(s, asking) && call in Final(s, asking).works
              && Final(s, asking).works[call].Closes? && Final(s, asking).works[call].progress.Settling?
              && Some(Final(s, asking).works[call].progress.list.request) == Request(s.contents, id)
              && IsRun(s, end) && Final(s, end).contents == CloseSpec(s.contents, id, reply).1
  {
    var begin := ReadsForClose(call, id);
    if Enabled(s, begin) {
      OneStep(s, begin);
      RunStep(s, [begin], Lists(call));
      RunStep(s, [begin] + [Lists(call)], Asks(call));
      RunStep(s, [begin] + [Lists(call)] + [Asks(call)], Answers(call, reply));
      RollbackRestores(s.contents, id);
    }
  }

  /** An open under a new id is one step. */
  lemma OpenAlone(s: State, input: OpenInput, opening: Opened, now: Stamp)
    requires opening.channelId !in s.contents.channels
    ensures Enabled(s, Opens(input, opening, now)) <==> OpenSpec(s.contents, input, Some(opening), now).0.Done?
    ensures Enabled(s, Opens(input, opening, now)) ==>
              Take(s, Opens(input, opening, now)).contents == OpenSpec(s.contents, input, Some(opening), now).1
  {
  }
}
