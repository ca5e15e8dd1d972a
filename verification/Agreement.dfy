/** The channel manager and the reconciler, written in different packages, agree
    on every channel the manager closes. */
module Agreement {
  import opened JsText
  import opened Commitments
  import opened CommitmentStore
  import opened Channels
  import opened ChannelRuns
  import opened Reconcile
  import opened ReconcileVerdict
  import Decimal

  lemma TrackedIsComplete(c: Channel, stream: Stream, id: Text)
    requires Tracked(c, stream, id)
    ensures Complete(stream)
  {
    forall i | 0 <= i < |stream| ensures Sequences(stream)[i] == Counting(|stream|)[i] {
      assert WellPlaced(c, stream[i], i);
    }
    assert Sequences(stream) == Counting(|stream|);
  }

  /** A tracked stream and a settlement of its committed amount are consistent,
      whatever remainder is well formed. */
  lemma TrackedIsConsistent(c: Channel, stream: Stream, id: Text, settlement: SettlementRecord)
    requires Tracked(c, stream, id) && settlement.settledAmount == c.committed
    ensures Consistent(stream, settlement) <==> Decimal.IsAmount(settlement.returnedRemainder)
  {
    CommittedAmount(c, stream, id);
    TrackedIsComplete(c, stream, id);
    if stream != [] {
      var last := stream[|stream| - 1];
      assert WellPlaced(c, last, |stream| - 1);
      assert last in stream;
    }
  }

  /** The settlement record of an accepted close. */
  function RecordOf(id: Text, reply: Settlement): SettlementRecord {
    SettlementRecord(id, reply.settledAmount, reply.returnedRemainder, reply.settlementTxHash)
  }

  /** Open, any commits and other calls, a close the manager accepts, and any
      calls after it: the stream the manager then lists reconciles with that
      settlement exactly when the adapter gave a digit string as remainder. */
  lemma ManagerAndReconcilerAgree(before: seq<Call>, id: Text, reply: Settlement, after: seq<Call>)
    requires FreshRun(EMPTY, before)
    requires var s := After(EMPTY, before);
             CloseSpec(s, id, Some(reply)).0.Done? && FreshRun(CloseSpec(s, id, Some(reply)).1, after)
    ensures var final := After(CloseSpec(After(EMPTY, before), id, Some(reply)).1, after);
            && id in final.channels && final.channels[id].status == Closed
            && (Audit(Sort(final.StreamOf(id)), RecordOf(id, reply), None).Ok? <==> Decimal.IsAmount(reply.returnedRemainder))
  {
    var s := After(EMPTY, before);
    StreamsAlwaysHold(before);
    CloseSettlesCommitted(s, id, Some(reply));
    ClosedIsTerminal(CloseSpec(s, id, Some(reply)).1, after, id);
    ListedAsAppended(s.channels[id], s.streams[id], id);
    TrackedIsConsistent(s.channels[id], s.streams[id], id, RecordOf(id, reply));
    VerdictIsConsistency(s.streams[id], RecordOf(id, reply));
  }

  /** The remainder is never compared with the deposit: a correct stream settled
      for its committed amount reconciles with every remainder, also one that
      leaves part of the deposit unaccounted for. */
  lemma RemainderNeverCompared(c: Channel, stream: Stream, id: Text, remainder: nat, txHash: Text)
    requires Tracked(c, stream, id)
    ensures Audit(Sort(stream), SettlementRecord(id, c.committed, Decimal.Print(remainder), txHash), None).Ok?
  {
    var settlement := SettlementRecord(id, c.committed, Decimal.Print(remainder), txHash);
    ListedAsAppended(c, stream, id);
    Decimal.PrintThenParse(remainder);
    TrackedIsConsistent(c, stream, id, settlement);
    VerdictIsConsistency(stream, settlement);
  }

  // ----- Tampered streams -----

  lemma CompleteRange(t: Stream, i: nat)
    requires Complete(t) && i < |t|
    ensures 0 <= t[i].sequence < |t|
  {
    assert Sequences(t)[i] in multiset(Sequences(t));
    assert Sequences(t)[i] in Counting(|t|);
  }

  lemma CompleteHas(t: Stream, n: nat) returns (i: nat)
    requires Complete(t) && n < |t|
    ensures i < |t| && t[i].sequence == n
  {
    assert Counting(|t|)[n] in multiset(Counting(|t|));
    assert n in Sequences(t);
    i :| 0 <= i < |t| && Sequences(t)[i] == n;
  }

  lemma LostLast(c: Channel, stream: Stream, id: Text, settlement: SettlementRecord)
    requires Tracked(c, stream, id) && settlement.settledAmount == c.committed && stream != []
    ensures !Consistent(stream[..|stream| - 1], settlement)
  {
    var t := stream[..|stream| - 1];
    CommittedAmount(c, stream, id);
    forall x | x in t ensures !Matches(x.cumulativeAmount, settlement.settledAmount) {
      var j :| 0 <= j < |t| && t[j] == x;
      assert WellPlaced(c, stream[j], j);
    }
  }

  lemma LostEarlier(c: Channel, stream: Stream, id: Text, k: nat)
    requires Tracked(c, stream, id) && k < |stream| - 1
    ensures !Complete(stream[..k] + stream[k + 1..])
  {
    var t := stream[..k] + stream[k + 1..];
    assert t[|t| - 1] == stream[|stream| - 1];
    assert WellPlaced(c, stream[|stream| - 1], |stream| - 1);
    if Complete(t) {
      CompleteRange(t, |t| - 1);
    }
  }

  lemma Doubled(c: Channel, stream: Stream, id: Text, k: nat)
    requires Tracked(c, stream, id) && k < |stream|
    ensures !Complete(stream + [stream[k]])
  {
    var t := stream + [stream[k]];
    forall i | 0 <= i < |t| ensures t[i].sequence < |stream| {
      var j := if i < |stream| then i else k;
      assert t[i] == stream[j] && WellPlaced(c, stream[j], j);
    }
    if Complete(t) {
      var _ := CompleteHas(t, |stream|);
    }
  }

  /** Losing or doubling any one commitment of a closed channel's stream is
      noticed. */
  lemma TamperingIsNoticed(c: Channel, stream: Stream, id: Text, settlement: SettlementRecord, k: nat)
    requires Tracked(c, stream, id) && settlement.settledAmount == c.committed && k < |stream|
    ensures !Audit(stream[..k] + stream[k + 1..], settlement, None).Ok?
    ensures !Audit(stream + [stream[k]], settlement, None).Ok?
  {
    VerdictIsConsistency(stream[..k] + stream[k + 1..], settlement);
    VerdictIsConsistency(stream + [stream[k]], settlement);
    Doubled(c, stream, id, k);
    if k < |stream| - 1 {
      LostEarlier(c, stream, id, k);
    } else {
      LostLast(c, stream, id, settlement);
      assert stream[..k] + stream[k + 1..] == stream[..|stream| - 1];
    }
  }
}
