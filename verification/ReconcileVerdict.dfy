/** What the verdict of the reconciler means, and how far it depends on the order
    of its input. */
module ReconcileVerdict {
  import opened JsText
  import opened Commitments
  import opened Reconcile
  import Decimal

  // ----- Sequence numbers -----

  function Sequences(s: Stream): seq<int> {
    seq(|s|, i requires 0 <= i < |s| => s[i].sequence)
  }

  function Counting(n: nat): seq<int> {
    seq(n, i => i)
  }

  ghost predicate Ascending(a: seq<int>) {
    forall i, j :: 0 <= i < j < |a| ==> a[i] <= a[j]
  }

  lemma LeastHead(a: seq<int>, b: seq<int>)
    requires Ascending(b) && a != [] && multiset(a) == multiset(b)
    ensures b != [] && b[0] <= a[0]
  {
    assert a[0] in multiset(b);
    assert a[0] in b;
  }

  lemma TailMultiset(a: seq<int>)
    requires a != []
    ensures multiset(a[1..]) == multiset(a) - multiset{a[0]}
  {
    assert a == [a[0]] + a[1..];
  }

  lemma {:induction false} AscendingUnique(a: seq<int>, b: seq<int>)
    requires Ascending(a) && Ascending(b) && multiset(a) == multiset(b)
    ensures a == b
  {
    if a != [] {
      LeastHead(a, b);
      LeastHead(b, a);
      TailMultiset(a);
      TailMultiset(b);
      AscendingUnique(a[1..], b[1..]);
      assert a == [a[0]] + a[1..] && b == [b[0]] + b[1..];
    } else if b != [] {
      LeastHead(b, a);
    }
  }

  lemma {:induction false} SequencesCount(s: Stream, n: int)
    ensures multiset(Sequences(s))[n] == |Numbered(s, n)|
  {
    if s != [] {
      SequencesCount(s[1..], n);
      assert Sequences(s) == [s[0].sequence] + Sequences(s[1..]);
    }
  }

  lemma SequencesForgetOrder(a: Stream, b: Stream)
    requires multiset(a) == multiset(b)
    ensures multiset(Sequences(a)) == multiset(Sequences(b))
  {
    forall n ensures multiset(Sequences(a))[n] == multiset(Sequences(b))[n] {
      SequencesCount(a, n);
      SequencesCount(b, n);
      forall c ensures multiset(Numbered(a, n))[c] == multiset(Numbered(b, n))[c] {
        NumberedCounts(a, n, c);
        NumberedCounts(b, n, c);
      }
      assert multiset(Numbered(a, n)) == multiset(Numbered(b, n));
      assert |multiset(Numbered(a, n))| == |Numbered(a, n)| && |multiset(Numbered(b, n))| == |Numbered(b, n)|;
    }
  }

  lemma SortedAscends(s: Stream)
    requires Sorted(s)
    ensures Ascending(Sequences(s))
  {
    forall i, j | 0 <= i < j < |s| ensures Sequences(s)[i] <= Sequences(s)[j] {
      SortedFrom(s, i, j);
    }
  }

  /** Whatever the order of the input, the sorted sequence numbers are the same. */
  lemma SortedSequences(a: Stream, b: Stream)
    requires multiset(a) == multiset(b)
    ensures Sequences(Sort(a)) == Sequences(Sort(b))
  {
    SortSorts(a);
    SortSorts(b);
    SequencesForgetOrder(Sort(a), Sort(b));
    SortedAscends(Sort(a));
    SortedAscends(Sort(b));
    AscendingUnique(Sequences(Sort(a)), Sequences(Sort(b)));
  }

  // ----- The exact verdict -----

  /** The sequences are a permutation of 0..n-1. */
  ghost predicate Complete(commitments: Stream) {
    multiset(Sequences(commitments)) == multiset(Counting(|commitments|))
  }

  predicate Matches(cumulative: Text, settled: Text)
    requires Decimal.IsAmount(settled)
  {
    Decimal.IsAmount(cumulative) && Decimal.Value(cumulative) == Decimal.Value(settled)
  }

  ghost predicate SettledByHighest(commitments: Stream, settled: Text)
    requires Decimal.IsAmount(settled)
  {
    exists c :: c in commitments && c.sequence == |commitments| - 1 && Matches(c.cumulativeAmount, settled)
  }

  /** What it means for a settlement to match a stream, with no sorting. */
  ghost predicate Consistent(commitments: Stream, settlement: SettlementRecord) {
    && Decimal.IsAmount(settlement.settledAmount) && Decimal.IsAmount(settlement.returnedRemainder)
    && if commitments == [] then Decimal.Value(settlement.settledAmount) == 0
       else Complete(commitments) && SettledByHighest(commitments, settlement.settledAmount)
  }

  lemma CompleteCounts(s: Stream)
    requires Complete(s)
    ensures Sequences(Sort(s)) == Counting(|s|)
  {
    SortSorts(s);
    SequencesForgetOrder(s, Sort(s));
    SortedAscends(Sort(s));
    AscendingUnique(Sequences(Sort(s)), Counting(|s|));
  }

  lemma CountsComplete(s: Stream)
    requires Sequences(Sort(s)) == Counting(|s|)
    ensures Complete(s)
  {
    SortSorts(s);
    SequencesForgetOrder(s, Sort(s));
  }

  lemma CountsIsNoGap(sorted: Stream)
    ensures Sequences(sorted) == Counting(|sorted|) <==> GapDrifts(sorted) == []
  {
    NoGapFrom(sorted, 0);
    if GapDrifts(sorted) == [] {
      assert Sequences(sorted) == Counting(|sorted|);
    }
    if Sequences(sorted) == Counting(|sorted|) {
      forall i | 0 <= i < |sorted| ensures sorted[i].sequence == i {
        assert Sequences(sorted)[i] == Counting(|sorted|)[i];
      }
    }
  }

  lemma CompleteIsNoGap(s: Stream)
    ensures Complete(s) <==> GapDrifts(Sort(s)) == []
  {
    SortLength(s);
    CountsIsNoGap(Sort(s));
    if Complete(s) {
      CompleteCounts(s);
    }
    if GapDrifts(Sort(s)) == [] {
      CountsComplete(s);
    }
  }

  lemma InAny(a: Stream, b: Stream, c: Commitment)
    requires multiset(a) == multiset(b)
    ensures c in a <==> c in b
  {
    assert c in a <==> c in multiset(a);
    assert c in b <==> c in multiset(b);
  }

  lemma InSorted(s: Stream, c: Commitment)
    ensures c in Sort(s) <==> c in s
  {
    SortSorts(s);
    InAny(Sort(s), s, c);
  }

  lemma CompleteAt(s: Stream, k: nat)
    requires Complete(s) && k < |s|
    ensures |Sort(s)| == |s| && Sort(s)[k].sequence == k
  {
    SortLength(s);
    CompleteCounts(s);
    assert Sequences(Sort(s))[k] == Counting(|s|)[k];
  }

  lemma LastIsHighest(s: Stream)
    requires s != [] && Complete(s)
    ensures |Sort(s)| == |s| && Sort(s)[|s| - 1] in s && Sort(s)[|s| - 1].sequence == |s| - 1
    ensures forall c :: c in s && c.sequence == |s| - 1 ==> c == Sort(s)[|s| - 1]
  {
    var sorted := Sort(s);
    CompleteAt(s, |s| - 1);
    InSorted(s, sorted[|s| - 1]);
    forall c | c in s && c.sequence == |s| - 1 ensures c == sorted[|s| - 1] {
      InSorted(s, c);
      var k :| 0 <= k < |sorted| && sorted[k] == c;
      CompleteAt(s, k);
    }
  }

  /** The remainder test never speaks alone. */
  lemma AmountDriftsExactly(sequence: int, cumulative: Text, settled: Text, remainder: Text)
    requires Decimal.IsAmount(settled) && Decimal.IsAmount(remainder)
    ensures AmountDrifts(sequence, cumulative, settled, remainder) == [] <==> Matches(cumulative, settled)
  {
  }

  /** Without suppression the verdict is ok exactly when the settlement matches
      the stream. */
  lemma VerdictIsConsistency(commitments: Stream, settlement: SettlementRecord)
    ensures Audit(commitments, settlement, None).Ok? <==> Consistent(commitments, settlement)
  {
    if Decimal.IsAmount(settlement.settledAmount) && Decimal.IsAmount(settlement.returnedRemainder) && commitments != [] {
      var sorted := Sort(commitments);
      SortLength(commitments);
      var last := sorted[|sorted| - 1];
      CompleteIsNoGap(commitments);
      AmountDriftsExactly(last.sequence, last.cumulativeAmount, settlement.settledAmount, settlement.returnedRemainder);
      if Complete(commitments) {
        LastIsHighest(commitments);
      }
    }
  }

  lemma HighestForgetsOrder(a: Stream, b: Stream, settled: Text)
    requires multiset(a) == multiset(b) && |a| == |b| && Decimal.IsAmount(settled)
    ensures SettledByHighest(a, settled) ==> SettledByHighest(b, settled)
  {
    if SettledByHighest(a, settled) {
      var c :| c in a && c.sequence == |a| - 1 && Matches(c.cumulativeAmount, settled);
      InAny(a, b, c);
    }
  }

  /** Reordering the commitments never changes the verdict. */
  lemma VerdictForgetsOrder(a: Stream, b: Stream, settlement: SettlementRecord)
    requires multiset(a) == multiset(b)
    ensures Audit(a, settlement, None).Ok? == Audit(b, settlement, None).Ok?
  {
    assert |multiset(a)| == |a| && |multiset(b)| == |b|;
    VerdictIsConsistency(a, settlement);
    VerdictIsConsistency(b, settlement);
    SequencesForgetOrder(a, b);
    if Decimal.IsAmount(settlement.settledAmount) {
      HighestForgetsOrder(a, b, settlement.settledAmount);
      HighestForgetsOrder(b, a, settlement.settledAmount);
    }
  }

  /** With distinct sequences the whole result survives reordering, under any
      suppression. */
  lemma DriftsForgetOrder(a: Stream, b: Stream, settlement: SettlementRecord, suppress: Option<Suppress>)
    requires multiset(a) == multiset(b) && DistinctSequences(a)
    ensures Audit(a, settlement, suppress) == Audit(b, settlement, suppress)
  {
    assert |multiset(a)| == |a| && |multiset(b)| == |b|;
    SortForgetsOrder(a, b);
  }

  /** The one commitment with the highest sequence is sorted last. */
  lemma LastIs(s: Stream, c: Commitment)
    requires DistinctSequences(s) && IsTop(s, c)
    ensures |Sort(s)| == |s| > 0 && Sort(s)[|s| - 1] == c
  {
    LastIsTop(s);
    var d := Sort(s)[|s| - 1];
    assert c.sequence == d.sequence;
    var i :| 0 <= i < |s| && s[i] == c;
    var j :| 0 <= j < |s| && s[j] == d;
  }

  /** What each kind of drift says, for a stream with distinct sequences whose
      highest commitment is c. */
  lemma DriftKinds(commitments: Stream, c: Commitment, settlement: SettlementRecord, d: Drift)
    requires WellFormed(settlement) && DistinctSequences(commitments) && IsTop(commitments, c)
    ensures (exists g :: g in Drifts(commitments, settlement) && g.SequenceGap?) <==> !Complete(commitments)
    ensures d.MalformedCumulative? ==>
              (d in Drifts(commitments, settlement) <==>
               d == MalformedCumulative(c.sequence, c.cumulativeAmount) && !Decimal.IsAmount(c.cumulativeAmount))
    ensures d.UnderSettled? ==>
              (d in Drifts(commitments, settlement) <==>
               Decimal.IsAmount(c.cumulativeAmount) && d.shortfall > 0
               && d == UnderSettled(settlement.settledAmount, c.cumulativeAmount, c.sequence, d.shortfall)
               && Decimal.Value(settlement.settledAmount) + d.shortfall == Decimal.Value(c.cumulativeAmount))
    ensures d.OverSettled? ==>
              (d in Drifts(commitments, settlement) <==>
               Decimal.IsAmount(c.cumulativeAmount) && d.excess > 0
               && d == OverSettled(settlement.settledAmount, c.cumulativeAmount, c.sequence, d.excess)
               && Decimal.Value(settlement.settledAmount) == Decimal.Value(c.cumulativeAmount) + d.excess)
    ensures d.UnexpectedRemainder? ==>
              (d in Drifts(commitments, settlement) <==>
               Decimal.IsAmount(c.cumulativeAmount) && Decimal.Value(c.cumulativeAmount) > 0
               && Decimal.Value(settlement.settledAmount) == 0 && Decimal.Value(settlement.returnedRemainder) == 0
               && d == UnexpectedRemainder(settlement.settledAmount, settlement.returnedRemainder, c.cumulativeAmount))
    ensures d.MissingCommitment? || d.MalformedSettled? || d.MalformedRemainder? ==> d !in Drifts(commitments, settlement)
  {
    LastIs(commitments, c);
    CompleteIsNoGap(commitments);
    var gaps := GapDrifts(Sort(commitments));
    var amounts := AmountDrifts(c.sequence, c.cumulativeAmount, settlement.settledAmount, settlement.returnedRemainder);
    assert Drifts(commitments, settlement) == gaps + amounts;
    assert d in gaps + amounts <==> d in gaps || d in amounts;
    if gaps != [] {
      assert gaps[0] in gaps + amounts;
    }
  }

  /** A missing commitment is reported exactly when something well formed was
      settled and nothing was committed; a malformed settlement is reported alone. */
  lemma DriftsWithoutStream(commitments: Stream, settlement: SettlementRecord, d: Drift)
    ensures d.MissingCommitment? ==>
              (d in Drifts(commitments, settlement) <==>
               WellFormed(settlement) && commitments == [] && Decimal.Value(settlement.settledAmount) > 0
               && d == MissingCommitment(settlement.settledAmount, settlement.channelId))
    ensures !WellFormed(settlement) ==>
              (d in Drifts(commitments, settlement) <==>
               d == if !Decimal.IsAmount(settlement.settledAmount) then MalformedSettled(settlement.settledAmount)
                    else MalformedRemainder(settlement.returnedRemainder))
  {
    if WellFormed(settlement) && commitments != [] {
      SortLength(commitments);
      var last := Sort(commitments)[|Sort(commitments)| - 1];
      assert Drifts(commitments, settlement) == GapDrifts(Sort(commitments)) +
               AmountDrifts(last.sequence, last.cumulativeAmount, settlement.settledAmount, settlement.returnedRemainder);
    }
  }

  // ----- Which drift lists depend on the order -----

  /** A commitment with the highest sequence. */
  ghost predicate IsTop(s: Stream, c: Commitment) {
    c in s && forall d :: d in s ==> d.sequence <= c.sequence
  }

  predicate Agree(a: Text, b: Text, settled: Text)
    requires Decimal.IsAmount(settled)
  {
    a == b || (Matches(a, settled) && Matches(b, settled))
  }

  /** The commitments that share the highest sequence carry one amount, or they
      all match the settlement. */
  ghost predicate TopsAgree(s: Stream, settled: Text)
    requires Decimal.IsAmount(settled)
  {
    forall c, d :: IsTop(s, c) && IsTop(s, d) ==> Agree(c.cumulativeAmount, d.cumulativeAmount, settled)
  }

  predicate WellFormed(settlement: SettlementRecord) {
    Decimal.IsAmount(settlement.settledAmount) && Decimal.IsAmount(settlement.returnedRemainder)
  }

  /** Every order of the stream reports the same drifts. */
  ghost predicate OrderFree(s: Stream, settlement: SettlementRecord) {
    forall t :: multiset(t) == multiset(s) ==> Drifts(t, settlement) == Drifts(s, settlement)
  }

  lemma SameAmountDrifts(sequence: int, a: Text, b: Text, settled: Text, remainder: Text)
    requires Decimal.IsAmount(settled) && Decimal.IsAmount(remainder)
    ensures AmountDrifts(sequence, a, settled, remainder) == AmountDrifts(sequence, b, settled, remainder) <==> Agree(a, b, settled)
  {
    var x, y := AmountDrifts(sequence, a, settled, remainder), AmountDrifts(sequence, b, settled, remainder);
    AmountDriftsExactly(sequence, a, settled, remainder);
    AmountDriftsExactly(sequence, b, settled, remainder);
    if x != [] && x == y {
      assert x[0] == y[0];
    }
  }

  lemma BelowLast(s: Stream, d: Commitment)
    requires d in s
    ensures |Sort(s)| == |s| && d.sequence <= Sort(s)[|s| - 1].sequence
  {
    SortSorts(s);
    InSorted(s, d);
    var k :| 0 <= k < |Sort(s)| && Sort(s)[k] == d;
    SortedFrom(Sort(s), k, |s| - 1);
  }

  lemma LastIsTop(s: Stream)
    requires s != []
    ensures |Sort(s)| == |s| && IsTop(s, Sort(s)[|s| - 1])
  {
    SortLength(s);
    InSorted(s, Sort(s)[|s| - 1]);
    forall d | d in s ensures d.sequence <= Sort(s)[|s| - 1].sequence {
      BelowLast(s, d);
    }
  }

  /** Appended last, a top commitment is sorted last. */
  lemma {:induction false} LastOfSort(s: Stream, c: Commitment)
    requires forall d :: d in s ==> d.sequence <= c.sequence
    ensures |Sort(s + [c])| == |s| + 1 && Sort(s + [c])[|s|] == c
  {
    if s == [] {
      assert s + [c] == [c];
    } else {
      assert (s + [c])[1..] == s[1..] + [c];
      LastOfSort(s[1..], c);
      SortSorts(s[1..] + [c]);
      InsertKeepsLast(s[0], Sort(s[1..] + [c]));
    }
  }

  /** The stream with one of its top commitments moved to the end. */
  lemma MoveToEnd(s: Stream, c: Commitment) returns (moved: Stream)
    requires IsTop(s, c)
    ensures multiset(moved) == multiset(s) && |Sort(moved)| == |s| == |moved| && Sort(moved)[|s| - 1] == c
  {
    var k :| 0 <= k < |s| && s[k] == c;
    var rest := s[..k] + s[k + 1..];
    moved := rest + [c];
    assert s == s[..k] + [c] + s[k + 1..];
    LastOfSort(rest, c);
  }

  lemma GapDriftsOfSequences(a: Stream, b: Stream)
    requires Sequences(a) == Sequences(b)
    ensures GapDrifts(a) == GapDrifts(b)
  {
    assert |a| == |Sequences(a)| == |b|;
    forall i | 0 <= i < |a| ensures a[i].sequence == b[i].sequence {
      assert Sequences(a)[i] == Sequences(b)[i];
    }
    FirstGapOf(a, b, 0);
  }

  lemma FirstGapOf(a: Stream, b: Stream, from: nat)
    requires |a| == |b| && from <= |a| && forall i :: 0 <= i < |a| ==> a[i].sequence == b[i].sequence
    ensures FirstGap(a, from) == FirstGap(b, from)
    decreases |a| - from
  {
    if from < |a| {
      FirstGapOf(a, b, from + 1);
    }
  }

  /** Two orders of one stream report the same drifts exactly when their last
      commitments have the same amount, or both match. */
  lemma SameDrifts(a: Stream, b: Stream, settlement: SettlementRecord)
    requires multiset(a) == multiset(b) && a != [] && |Sort(a)| == |Sort(b)| == |a| == |b|
    requires WellFormed(settlement)
    ensures Drifts(a, settlement) == Drifts(b, settlement) <==>
            Agree(Sort(a)[|a| - 1].cumulativeAmount, Sort(b)[|a| - 1].cumulativeAmount, settlement.settledAmount)
  {
    var x, y := Sort(a)[|a| - 1], Sort(b)[|a| - 1];
    SortedSequences(a, b);
    GapDriftsOfSequences(Sort(a), Sort(b));
    assert x.sequence == Sequences(Sort(a))[|a| - 1] == y.sequence;
    SameAmountDrifts(x.sequence, x.cumulativeAmount, y.cumulativeAmount, settlement.settledAmount, settlement.returnedRemainder);
    var g := GapDrifts(Sort(a));
    var p := AmountDrifts(x.sequence, x.cumulativeAmount, settlement.settledAmount, settlement.returnedRemainder);
    var q := AmountDrifts(x.sequence, y.cumulativeAmount, settlement.settledAmount, settlement.returnedRemainder);
    assert (g + p)[|g|..] == p && (g + q)[|g|..] == q;
  }

  lemma TopsDecide(a: Stream, b: Stream, settlement: SettlementRecord)
    requires a != [] && multiset(b) == multiset(a) && WellFormed(settlement)
    requires TopsAgree(a, settlement.settledAmount)
    ensures Drifts(b, settlement) == Drifts(a, settlement)
  {
    assert |multiset(a)| == |a| && |multiset(b)| == |b|;
    LastIsTop(a);
    LastIsTop(b);
    forall c ensures c in a <==> c in b {
      InAny(a, b, c);
    }
    assert IsTop(a, Sort(b)[|b| - 1]);
    SameDrifts(a, b, settlement);
  }

  lemma TopsRevealed(s: Stream, settlement: SettlementRecord, c: Commitment, d: Commitment)
    requires s != [] && WellFormed(settlement) && OrderFree(s, settlement) && IsTop(s, c) && IsTop(s, d)
    ensures Agree(c.cumulativeAmount, d.cumulativeAmount, settlement.settledAmount)
  {
    var x := MoveToEnd(s, c);
    var y := MoveToEnd(s, d);
    assert Drifts(x, settlement) == Drifts(s, settlement) == Drifts(y, settlement);
    SameDrifts(x, y, settlement);
  }

  /** The reported drifts are the same in every order of the input exactly when
      the commitments with the highest sequence agree. */
  lemma OrderMattersExactly(s: Stream, settlement: SettlementRecord)
    ensures OrderFree(s, settlement) <==> (WellFormed(settlement) ==> TopsAgree(s, settlement.settledAmount))
  {
    if WellFormed(settlement) {
      if s == [] {
        forall t | multiset(t) == multiset(s) ensures Drifts(t, settlement) == Drifts(s, settlement) {
          assert |multiset(t)| == |t|;
        }
      } else {
        if TopsAgree(s, settlement.settledAmount) {
          forall t | multiset(t) == multiset(s) ensures Drifts(t, settlement) == Drifts(s, settlement) {
            TopsDecide(s, t, settlement);
          }
        }
        if OrderFree(s, settlement) {
          forall c, d | IsTop(s, c) && IsTop(s, d) ensures Agree(c.cumulativeAmount, d.cumulativeAmount, settlement.settledAmount) {
            TopsRevealed(s, settlement, c, d);
          }
        }
      }
    }
  }

  const FIVE: Text := [53]
  const SEVEN: Text := [55]

  /** Drifts of an amount that has the same members name the same amount. */
  lemma MembersAreDrifts(sequence: int, a: Text, b: Text, settled: Text, remainder: Text)
    requires Decimal.IsAmount(settled) && Decimal.IsAmount(remainder)
    requires forall d :: d in AmountDrifts(sequence, a, settled, remainder) <==> d in AmountDrifts(sequence, b, settled, remainder)
    ensures AmountDrifts(sequence, a, settled, remainder) == AmountDrifts(sequence, b, settled, remainder)
  {
    var x, y := AmountDrifts(sequence, a, settled, remainder), AmountDrifts(sequence, b, settled, remainder);
    assert y != [] ==> y[0] in y;
    if x != [] {
      assert x[0] in y;
    }
  }

  lemma SameTail(gaps: seq<Drift>, p: seq<Drift>, q: seq<Drift>)
    requires forall d :: d in p || d in q ==> d !in gaps
    requires forall d :: d in gaps + p <==> d in gaps + q
    ensures forall d :: d in p <==> d in q
  {
    forall d ensures d in p <==> d in q {
      assert d in gaps + p <==> d in gaps || d in p;
      assert d in gaps + q <==> d in gaps || d in q;
    }
  }

  /** The last commitments of two orders have one sequence, and all gaps are the
      same. */
  lemma SameGaps(a: Stream, b: Stream)
    requires multiset(a) == multiset(b) && a != []
    ensures |Sort(a)| == |a| == |b| == |Sort(b)|
    ensures Sort(a)[|a| - 1].sequence == Sort(b)[|a| - 1].sequence && GapDrifts(Sort(a)) == GapDrifts(Sort(b))
  {
    assert |multiset(a)| == |a| && |multiset(b)| == |b|;
    SortLength(a);
    SortLength(b);
    SortedSequences(a, b);
    GapDriftsOfSequences(Sort(a), Sort(b));
    assert Sort(a)[|a| - 1].sequence == Sequences(Sort(a))[|a| - 1];
    assert Sort(b)[|a| - 1].sequence == Sequences(Sort(b))[|a| - 1];
  }

  lemma MembersAreLists(a: Stream, b: Stream, settlement: SettlementRecord)
    requires multiset(a) == multiset(b)
    requires forall d :: d in Drifts(a, settlement) <==> d in Drifts(b, settlement)
    ensures Drifts(a, settlement) == Drifts(b, settlement)
  {
    assert |multiset(a)| == |a| && |multiset(b)| == |b|;
    if WellFormed(settlement) && a != [] {
      SameGaps(a, b);
      var x, y := Sort(a)[|a| - 1], Sort(b)[|a| - 1];
      var gaps := GapDrifts(Sort(a));
      var p := AmountDrifts(x.sequence, x.cumulativeAmount, settlement.settledAmount, settlement.returnedRemainder);
      var q := AmountDrifts(x.sequence, y.cumulativeAmount, settlement.settledAmount, settlement.returnedRemainder);
      assert Drifts(a, settlement) == gaps + p && Drifts(b, settlement) == gaps + q;
      SameTail(gaps, p, q);
      MembersAreDrifts(x.sequence, x.cumulativeAmount, y.cumulativeAmount, settlement.settledAmount, settlement.returnedRemainder);
    }
  }

  /** Every order of the stream gets the same verdict, whatever is suppressed. */
  ghost predicate VerdictFree(s: Stream, settlement: SettlementRecord) {
    forall t: Stream, suppress: Suppress :: multiset(t) == multiset(s) ==>
      Audit(t, settlement, Some(suppress)).Ok? == Audit(s, settlement, Some(suppress)).Ok?
  }

  lemma SuppressOther(s: Stream, t: Stream, settlement: SettlementRecord)
    requires VerdictFree(s, settlement) && multiset(t) == multiset(s)
    ensures Drifts(t, settlement) == Drifts(s, settlement)
  {
    var likeT: Suppress := (d: Drift, id: Text) => d in Drifts(t, settlement);
    var likeS: Suppress := (d: Drift, id: Text) => d in Drifts(s, settlement);
    SuppressedVerdict(t, settlement, likeT);
    SuppressedVerdict(s, settlement, likeT);
    SuppressedVerdict(t, settlement, likeS);
    SuppressedVerdict(s, settlement, likeS);
    assert Audit(t, settlement, Some(likeT)).Ok? == Audit(s, settlement, Some(likeT)).Ok?;
    assert Audit(t, settlement, Some(likeS)).Ok? == Audit(s, settlement, Some(likeS)).Ok?;
    MembersAreLists(s, t, settlement);
  }

  /** With suppression the verdict is the same in every order exactly when the
      commitments with the highest sequence agree. */
  lemma SuppressionExactly(s: Stream, settlement: SettlementRecord)
    ensures VerdictFree(s, settlement) <==> OrderFree(s, settlement)
    ensures VerdictFree(s, settlement) <==> (WellFormed(settlement) ==> TopsAgree(s, settlement.settledAmount))
  {
    OrderMattersExactly(s, settlement);
    if VerdictFree(s, settlement) {
      forall t | multiset(t) == multiset(s) ensures Drifts(t, settlement) == Drifts(s, settlement) {
        SuppressOther(s, t, settlement);
      }
    }
    if OrderFree(s, settlement) {
      forall t: Stream, suppress: Suppress | multiset(t) == multiset(s)
        ensures Audit(t, settlement, Some(suppress)).Ok? == Audit(s, settlement, Some(suppress)).Ok?
      {
        assert Drifts(t, settlement) == Drifts(s, settlement);
      }
    }
  }

  predicate IgnoreGaps(d: Drift, channelId: Text) {
    d.SequenceGap?
  }

  lemma PairDrifts(a: Commitment, b: Commitment, settlement: SettlementRecord)
    requires a.sequence == b.sequence == 0 && WellFormed(settlement)
    ensures Drifts([a, b], settlement) ==
              [SequenceGap(1, 0)] + AmountDrifts(0, b.cumulativeAmount, settlement.settledAmount, settlement.returnedRemainder)
  {
    SortOfSorted([a, b]);
    GapFrom([a, b], 0, 1);
  }

  lemma GapIgnored(rest: seq<Drift>, channelId: Text)
    ensures Kept([SequenceGap(1, 0)] + rest, channelId, IgnoreGaps) == Kept(rest, channelId, IgnoreGaps)
  {
    assert ([SequenceGap(1, 0)] + rest)[1..] == rest;
  }

  lemma {:induction false} KeptNothing(drifts: seq<Drift>, channelId: Text, suppress: Suppress)
    ensures Kept(drifts, channelId, suppress) == [] <==> forall d :: d in drifts ==> suppress(d, channelId)
  {
    if drifts != [] {
      KeptNothing(drifts[1..], channelId, suppress);
      assert drifts == [drifts[0]] + drifts[1..];
    }
  }

  /** With suppression the verdict is ok exactly when every drift is suppressed. */
  lemma SuppressedVerdict(commitments: Stream, settlement: SettlementRecord, suppress: Suppress)
    ensures Audit(commitments, settlement, Some(suppress)).Ok? <==>
            forall d :: d in Drifts(commitments, settlement) ==> suppress(d, settlement.channelId)
  {
    KeptNothing(Drifts(commitments, settlement), settlement.channelId, suppress);
  }

  /** Two commitments under sequence 0: when gaps are suppressed, their order
      decides between ok and under-settled. */
  lemma SuppressedGapRevealsOrder()
    ensures var a, b := Commitment([], 0, FIVE, []), Commitment([], 0, SEVEN, []);
            var settlement := SettlementRecord([], FIVE, FIVE, []);
            Audit([b, a], settlement, Some(IgnoreGaps)).Ok? && !Audit([a, b], settlement, Some(IgnoreGaps)).Ok?
  {
    Decimal.PrintThenParse(5);
    Decimal.PrintThenParse(7);
    assert Decimal.Print(5) == FIVE && Decimal.Print(7) == SEVEN;
    var a, b := Commitment([], 0, FIVE, []), Commitment([], 0, SEVEN, []);
    var settlement := SettlementRecord([], FIVE, FIVE, []);
    PairDrifts(b, a, settlement);
    PairDrifts(a, b, settlement);
    GapIgnored(AmountDrifts(0, FIVE, FIVE, FIVE), []);
    GapIgnored(AmountDrifts(0, SEVEN, FIVE, FIVE), []);
    assert AmountDrifts(0, SEVEN, FIVE, FIVE)[0].UnderSettled?;
  }

  /** unexpected-remainder is only ever reported with under-settled. */
  lemma RemainderNeverAlone(commitments: Stream, settlement: SettlementRecord)
    ensures (exists d :: d in Drifts(commitments, settlement) && d.UnexpectedRemainder?) ==>
            (exists d :: d in Drifts(commitments, settlement) && d.UnderSettled?)
  {
    var drifts := Drifts(commitments, settlement);
    if exists d :: d in drifts && d.UnexpectedRemainder? {
      var d :| d in drifts && d.UnexpectedRemainder?;
      var sorted := Sort(commitments);
      SortLength(commitments);
      var last := sorted[|sorted| - 1];
      var amounts := AmountDrifts(last.sequence, last.cumulativeAmount, settlement.settledAmount, settlement.returnedRemainder);
      assert d in amounts;
      assert amounts[0].UnderSettled?;
      assert drifts[|GapDrifts(sorted)|] == amounts[0];
    }
  }

  // ----- What is reported -----

  /** The order in which the kinds of drift are found. */
  function Kind(d: Drift): nat {
    match d
    case MalformedSettled(_) => 0
    case MalformedRemainder(_) => 1
    case MissingCommitment(_, _) => 2
    case SequenceGap(_, _) => 3
    case MalformedCumulative(_, _) => 4
    case UnderSettled(_, _, _, _) => 5
    case OverSettled(_, _, _, _) => 5
    case UnexpectedRemainder(_, _, _) => 6
  }

  ghost predicate ByKind(drifts: seq<Drift>) {
    forall i, j :: 0 <= i < j < |drifts| ==> Kind(drifts[i]) < Kind(drifts[j])
  }

  lemma DriftsByKind(commitments: Stream, settlement: SettlementRecord)
    ensures ByKind(Drifts(commitments, settlement))
  {
  }

  lemma {:induction false} KeptByKind(drifts: seq<Drift>, channelId: Text, suppress: Suppress)
    requires ByKind(drifts)
    ensures ByKind(Kept(drifts, channelId, suppress))
    ensures forall d :: d in Kept(drifts, channelId, suppress) <==> d in drifts && !suppress(d, channelId)
  {
    if drifts != [] {
      var rest := drifts[1..];
      KeptByKind(rest, channelId, suppress);
      assert drifts == [drifts[0]] + rest;
      assert forall d :: d in rest ==> Kind(drifts[0]) < Kind(d);
    }
  }

  /** The drifts that are reported are exactly those that are not suppressed, in the
      order of their kinds and each kind once, under the settlement's channel. */
  lemma ReportIsWhatIsNotSuppressed(commitments: Stream, settlement: SettlementRecord, suppress: Option<Suppress>)
    ensures var verdict := Audit(commitments, settlement, suppress);
            && verdict.channelId == settlement.channelId
            && (verdict.Drifted? ==>
                  && verdict.drift != [] && ByKind(verdict.drift)
                  && forall d :: d in verdict.drift <==>
                       d in Drifts(commitments, settlement) && (suppress.Some? ==> !suppress.value(d, settlement.channelId)))
  {
    DriftsByKind(commitments, settlement);
    if suppress.Some? {
      KeptByKind(Drifts(commitments, settlement), settlement.channelId, suppress.value);
    }
  }
}
