/** packages/reconcile/src/index.ts: the audit of a commitment stream against the
    on-chain settlement of its channel. */
module Reconcile {
  import opened JsText
  import opened Commitments
  import Decimal

  datatype SettlementRecord = SettlementRecord(channelId: Text, settledAmount: Text, returnedRemainder: Text, txHash: Text)

  /** A detected drift with the values its detail text is made of. */
  datatype Drift =
    | MalformedSettled(value: Text)
    | MalformedRemainder(value: Text)
    | MalformedCumulative(sequence: int, value: Text)
    | MissingCommitment(settled: Text, channelId: Text)
    | SequenceGap(position: nat, sequence: int)
    | UnderSettled(settled: Text, cumulative: Text, sequence: int, shortfall: nat)
    | OverSettled(settled: Text, cumulative: Text, sequence: int, excess: nat)
    | UnexpectedRemainder(settled: Text, remainder: Text, cumulative: Text)

  datatype Verdict = Ok(channelId: Text) | Drifted(channelId: Text, drift: seq<Drift>)

  type Suppress = (Drift, Text) -> bool

  // ----- The drifts of a stream -----

  /** The first position whose sequence is not its index; |sorted| if none. */
  function FirstGap(sorted: Stream, from: nat): (gap: nat)
    requires from <= |sorted|
    ensures from <= gap <= |sorted|
    decreases |sorted| - from
  {
    if from == |sorted| || sorted[from].sequence != from then from else FirstGap(sorted, from + 1)
  }

  function GapDrifts(sorted: Stream): seq<Drift> {
    var i := FirstGap(sorted, 0);
    if i < |sorted| then [SequenceGap(i, sorted[i].sequence)] else []
  }

  /** The drifts of the last cumulative amount against the settlement. */
  function AmountDrifts(sequence: int, cumulative: Text, settled: Text, remainder: Text): seq<Drift>
    requires Decimal.IsAmount(settled) && Decimal.IsAmount(remainder)
  {
    if !Decimal.IsAmount(cumulative) then [MalformedCumulative(sequence, cumulative)]
    else
      var s, c := Decimal.Value(settled), Decimal.Value(cumulative);
      (if s < c then [UnderSettled(settled, cumulative, sequence, c - s)]
       else if s > c then [OverSettled(settled, cumulative, sequence, s - c)]
       else [])
      + (if s + Decimal.Value(remainder) == 0 && c > 0 then [UnexpectedRemainder(settled, remainder, cumulative)] else [])
  }

  /** Every drift, in the order it is reported. */
  function Drifts(commitments: Stream, settlement: SettlementRecord): seq<Drift> {
    if !Decimal.IsAmount(settlement.settledAmount) then [MalformedSettled(settlement.settledAmount)]
    else if !Decimal.IsAmount(settlement.returnedRemainder) then [MalformedRemainder(settlement.returnedRemainder)]
    else if commitments == [] then
      if Decimal.Value(settlement.settledAmount) > 0
      then [MissingCommitment(settlement.settledAmount, settlement.channelId)] else []
    else
      SortLength(commitments);
      var sorted := Sort(commitments);
      var last := sorted[|sorted| - 1];
      GapDrifts(sorted) + AmountDrifts(last.sequence, last.cumulativeAmount, settlement.settledAmount, settlement.returnedRemainder)
  }

  /** drifts.filter((d) => !suppress(d, channelId)) */
  function Kept(drifts: seq<Drift>, channelId: Text, suppress: Suppress): seq<Drift> {
    if drifts == [] then []
    else (if suppress(drifts[0], channelId) then [] else [drifts[0]]) + Kept(drifts[1..], channelId, suppress)
  }

  function BuildResult(channelId: Text, drifts: seq<Drift>, suppress: Option<Suppress>): Verdict {
    var active := if suppress.Some? then Kept(drifts, channelId, suppress.value) else drifts;
    if active == [] then Ok(channelId) else Drifted(channelId, active)
  }

  function Audit(commitments: Stream, settlement: SettlementRecord, suppress: Option<Suppress>): Verdict {
    BuildResult(settlement.channelId, Drifts(commitments, settlement), suppress)
  }

  lemma SortLength(s: Stream)
    ensures |Sort(s)| == |s|
  {
    SortSorts(s);
  }

  lemma GapFrom(sorted: Stream, from: nat, i: nat)
    requires from <= i < |sorted| && sorted[i].sequence != i
    requires forall j :: from <= j < i ==> sorted[j].sequence == j
    ensures FirstGap(sorted, from) == i
    decreases i - from
  {
    if from < i {
      GapFrom(sorted, from + 1, i);
    }
  }

  lemma NoGapFrom(sorted: Stream, from: nat)
    requires from <= |sorted|
    ensures FirstGap(sorted, from) == |sorted| <==> forall j :: from <= j < |sorted| ==> sorted[j].sequence == j
    decreases |sorted| - from
  {
    if from < |sorted| && sorted[from].sequence == from {
      NoGapFrom(sorted, from + 1);
    }
  }

  /** Drifts are pushed as they are found; a malformed amount ends the audit. */
  method ReconcileChannel(commitments: Stream, settlement: SettlementRecord, suppress: Option<Suppress>) returns (verdict: Verdict)
    ensures verdict == Audit(commitments, settlement, suppress)
  {
    var channelId, settledAmount, returnedRemainder := settlement.channelId, settlement.settledAmount, settlement.returnedRemainder;
    var drifts: seq<Drift> := [];
    if !Decimal.IsAmount(settledAmount) {
      drifts := drifts + [MalformedSettled(settledAmount)];
      assert drifts == Drifts(commitments, settlement);
      return BuildResult(channelId, drifts, suppress);
    }
    var settled := Decimal.Value(settledAmount);
    if !Decimal.IsAmount(returnedRemainder) {
      drifts := drifts + [MalformedRemainder(returnedRemainder)];
      assert drifts == Drifts(commitments, settlement);
      return BuildResult(channelId, drifts, suppress);
    }
    var remainder := Decimal.Value(returnedRemainder);
    if |commitments| == 0 {
      if settled > 0 {
        drifts := drifts + [MissingCommitment(settledAmount, channelId)];
      }
      assert drifts == Drifts(commitments, settlement);
      return BuildResult(channelId, drifts, suppress);
    }
    var sorted := Sort(commitments);
    SortLength(commitments);
    NoGapFrom(sorted, 0);
    for i := 0 to |sorted|
      invariant drifts == []
      invariant forall j :: 0 <= j < i ==> sorted[j].sequence == j
    {
      if sorted[i].sequence != i {
        GapFrom(sorted, 0, i);
        drifts := drifts + [SequenceGap(i, sorted[i].sequence)];
        break;
      }
    }
    assert drifts == GapDrifts(sorted);
    var last := sorted[|sorted| - 1];
    if !Decimal.IsAmount(last.cumulativeAmount) {
      drifts := drifts + [MalformedCumulative(last.sequence, last.cumulativeAmount)];
      assert drifts == Drifts(commitments, settlement);
      return BuildResult(channelId, drifts, suppress);
    }
    var lastCumulative := Decimal.Value(last.cumulativeAmount);
    if settled < lastCumulative {
      drifts := drifts + [UnderSettled(settledAmount, last.cumulativeAmount, last.sequence, lastCumulative - settled)];
    } else if settled > lastCumulative {
      drifts := drifts + [OverSettled(settledAmount, last.cumulativeAmount, last.sequence, settled - lastCumulative)];
    }
    if settled + remainder == 0 && lastCumulative > 0 {
      drifts := drifts + [UnexpectedRemainder(settledAmount, returnedRemainder, last.cumulativeAmount)];
    }
    assert drifts == Drifts(commitments, settlement);
    return BuildResult(channelId, drifts, suppress);
  }
}
