/** A stream of cumulative commitments, as packages/channels stores it and
    packages/reconcile audits it, and its stable sort by sequence. */
module Commitments {
  import opened JsText

  /** The reconciler reads only the first three fields. */
  datatype Commitment = Commitment(channelId: Text, sequence: int, cumulativeAmount: Text, blob: Text)

  type Stream = seq<Commitment>

  function Insert(c: Commitment, sorted: Stream): Stream {
    if sorted == [] || c.sequence <= sorted[0].sequence then [c] + sorted
    else [sorted[0]] + Insert(c, sorted[1..])
  }

  /** [...stream].sort((a, b) => a.sequence - b.sequence), a stable sort. */
  function Sort(stream: Stream): Stream {
    if stream == [] then [] else Insert(stream[0], Sort(stream[1..]))
  }

  predicate Sorted(stream: Stream) {
    |stream| <= 1 || (stream[0].sequence <= stream[1].sequence && Sorted(stream[1..]))
  }

  /** The commitments with sequence n, in their order in the stream. */
  function Numbered(stream: Stream, n: int): Stream {
    if stream == [] then []
    else if stream[0].sequence == n then [stream[0]] + Numbered(stream[1..], n)
    else Numbered(stream[1..], n)
  }

  ghost predicate DistinctSequences(stream: Stream) {
    forall i, j :: 0 <= i < j < |stream| ==> stream[i].sequence != stream[j].sequence
  }

  lemma {:induction false} SortedFrom(s: Stream, i: nat, j: nat)
    requires Sorted(s) && i <= j < |s|
    ensures s[i].sequence <= s[j].sequence
  {
    if i > 0 {
      SortedFrom(s[1..], i - 1, j - 1);
    } else if j > 0 {
      SortedFrom(s[1..], 0, j - 1);
    }
  }

  lemma {:induction false} InsertSorts(c: Commitment, s: Stream)
    requires Sorted(s)
    ensures Sorted(Insert(c, s))
  {
    if s == [] || c.sequence <= s[0].sequence {
      assert ([c] + s)[1..] == s;
    } else {
      InsertSorts(c, s[1..]);
      var rest := Insert(c, s[1..]);
      assert ([s[0]] + rest)[1..] == rest;
      assert rest[0] == c || (|s| > 1 && rest[0] == s[1]);
    }
  }

  lemma {:induction false} InsertAdds(c: Commitment, s: Stream)
    ensures multiset(Insert(c, s)) == multiset(s) + multiset{c} && |Insert(c, s)| == |s| + 1
  {
    if s != [] && c.sequence > s[0].sequence {
      InsertAdds(c, s[1..]);
      assert s == [s[0]] + s[1..];
    }
  }

  lemma HeadAndTail(s: Stream)
    requires s != []
    ensures multiset(s) == multiset(s[1..]) + multiset{s[0]}
  {
    assert s == [s[0]] + s[1..];
  }

  lemma {:induction false} SortAdds(s: Stream)
    ensures multiset(Sort(s)) == multiset(s) && |Sort(s)| == |s|
  {
    if s != [] {
      SortAdds(s[1..]);
      InsertAdds(s[0], Sort(s[1..]));
      HeadAndTail(s);
    }
  }

  lemma {:induction false} SortIsSorted(s: Stream)
    ensures Sorted(Sort(s))
  {
    if s != [] {
      SortIsSorted(s[1..]);
      InsertSorts(s[0], Sort(s[1..]));
    }
  }

  /** The sort orders its input and neither loses nor adds a commitment. */
  lemma SortSorts(s: Stream)
    ensures Sorted(Sort(s)) && multiset(Sort(s)) == multiset(s) && |Sort(s)| == |s|
  {
    SortIsSorted(s);
    SortAdds(s);
  }

  lemma {:induction false} SortOfSorted(s: Stream)
    requires Sorted(s)
    ensures Sort(s) == s
  {
    if s != [] {
      SortOfSorted(s[1..]);
      assert s == [s[0]] + s[1..];
    }
  }

  // ----- Stability -----

  lemma {:induction false} NumberedBelow(s: Stream, n: int)
    requires Sorted(s) && (s == [] || n < s[0].sequence)
    ensures Numbered(s, n) == []
  {
    if s != [] {
      NumberedBelow(s[1..], n);
    }
  }

  lemma NumberedCons(c: Commitment, s: Stream, n: int)
    ensures Numbered([c] + s, n) == if c.sequence == n then [c] + Numbered(s, n) else Numbered(s, n)
  {
    assert ([c] + s)[1..] == s;
  }

  lemma {:induction false} InsertIsStable(c: Commitment, s: Stream, n: int)
    requires Sorted(s)
    ensures Numbered(Insert(c, s), n) == Numbered([c] + s, n)
  {
    if s != [] && c.sequence > s[0].sequence {
      InsertIsStable(c, s[1..], n);
      NumberedCons(s[0], Insert(c, s[1..]), n);
      NumberedCons(c, s[1..], n);
      NumberedCons(c, s, n);
    }
  }

  /** Commitments that share a sequence keep their order. */
  lemma {:induction false} SortIsStable(s: Stream, n: int)
    ensures Numbered(Sort(s), n) == Numbered(s, n)
  {
    if s != [] {
      SortIsStable(s[1..], n);
      SortSorts(s[1..]);
      InsertIsStable(s[0], Sort(s[1..]), n);
      NumberedCons(s[0], Sort(s[1..]), n);
    }
  }

  lemma SameHead(a: Stream, b: Stream)
    requires Sorted(a) && Sorted(b) && a != []
    requires Numbered(a, a[0].sequence) == Numbered(b, a[0].sequence)
    requires b != [] ==> Numbered(a, b[0].sequence) == Numbered(b, b[0].sequence)
    ensures b != [] && a[0] == b[0]
  {
    var n := a[0].sequence;
    assert Numbered(a, n)[0] == a[0];
    if b == [] || n < b[0].sequence {
      NumberedBelow(b, n);
    } else if b[0].sequence < n {
      NumberedBelow(a, b[0].sequence);
    } else {
      assert Numbered(b, n)[0] == b[0];
    }
  }

  /** Order and stability determine the result of the sort. */
  lemma {:induction false} StableSortIsUnique(a: Stream, b: Stream)
    requires Sorted(a) && Sorted(b)
    requires forall n :: Numbered(a, n) == Numbered(b, n)
    ensures a == b
    decreases |a|
  {
    if a != [] {
      SameHead(a, b);
      forall n ensures Numbered(a[1..], n) == Numbered(b[1..], n) {
        NumberedCons(a[0], a[1..], n);
        NumberedCons(b[0], b[1..], n);
        assert a == [a[0]] + a[1..] && b == [b[0]] + b[1..];
        assert Numbered(a, n) == Numbered(b, n);
        if a[0].sequence == n {
          assert Numbered(a, n)[1..] == Numbered(a[1..], n) && Numbered(b, n)[1..] == Numbered(b[1..], n);
        }
      }
      StableSortIsUnique(a[1..], b[1..]);
      assert a == [a[0]] + a[1..] && b == [b[0]] + b[1..];
    } else if b != [] {
      SameHead(b, a);
    }
  }

  // ----- Reordering -----

  lemma {:induction false} NumberedCounts(s: Stream, n: int, c: Commitment)
    ensures multiset(Numbered(s, n))[c] == if c.sequence == n then multiset(s)[c] else 0
  {
    if s != [] {
      NumberedCounts(s[1..], n, c);
      assert s == [s[0]] + s[1..];
    }
  }

  lemma {:induction false} NumberedMember(s: Stream, n: int)
    requires Numbered(s, n) != []
    ensures exists i :: 0 <= i < |s| && s[i].sequence == n
  {
    if s[0].sequence != n {
      NumberedMember(s[1..], n);
    }
  }

  lemma {:induction false} NumberedOnce(s: Stream, n: int)
    requires DistinctSequences(s)
    ensures |Numbered(s, n)| <= 1
  {
    if s != [] {
      var tail := s[1..];
      assert forall i :: 0 <= i < |tail| ==> tail[i] == s[i + 1];
      NumberedOnce(tail, n);
      if Numbered(tail, n) != [] {
        NumberedMember(tail, n);
      }
    }
  }

  lemma SmallSeqOfMultiset(a: Stream, b: Stream)
    requires |a| <= 1 && multiset(a) == multiset(b)
    ensures a == b
  {
    assert |multiset(a)| == |a| && |multiset(b)| == |b|;
    if |a| == 1 {
      assert a[0] in multiset(b);
      assert a == [a[0]] && b == [b[0]];
    }
  }

  /** With distinct sequences the sort forgets the order of its input. */
  lemma SortForgetsOrder(a: Stream, b: Stream)
    requires DistinctSequences(a) && multiset(a) == multiset(b)
    ensures Sort(a) == Sort(b)
  {
    SortSorts(a);
    SortSorts(b);
    forall n ensures Numbered(Sort(a), n) == Numbered(Sort(b), n) {
      SortIsStable(a, n);
      SortIsStable(b, n);
      NumberedOnce(a, n);
      forall c ensures multiset(Numbered(a, n))[c] == multiset(Numbered(b, n))[c] {
        NumberedCounts(a, n, c);
        NumberedCounts(b, n, c);
      }
      SmallSeqOfMultiset(Numbered(a, n), Numbered(b, n));
    }
    StableSortIsUnique(Sort(a), Sort(b));
  }

  lemma {:induction false} InsertKeepsLast(c: Commitment, s: Stream)
    requires Sorted(s) && s != [] && c.sequence <= s[|s| - 1].sequence
    ensures |Insert(c, s)| == |s| + 1 && Insert(c, s)[|s|] == s[|s| - 1]
  {
    if c.sequence > s[0].sequence {
      InsertKeepsLast(c, s[1..]);
    }
  }

  lemma {:induction false} InsertAtEnd(c: Commitment, s: Stream)
    requires Sorted(s) && forall d :: d in s ==> d.sequence < c.sequence
    ensures Insert(c, s) == s + [c]
  {
    if s != [] {
      InsertAtEnd(c, s[1..]);
      assert s == [s[0]] + s[1..];
    }
  }

  /** The latest commitment at position i: none has a higher sequence, and none after it
      the same. */
  ghost predicate IsLatest(s: Stream, i: int) {
    0 <= i < |s| && forall j :: 0 <= j < |s| && j != i ==> if j < i then s[j].sequence <= s[i].sequence else s[j].sequence < s[i].sequence
  }

  lemma LatestOfTail(s: Stream, i: int)
    requires IsLatest(s, i) && i > 0
    ensures IsLatest(s[1..], i - 1) && s[1..][i - 1] == s[i] && s[0].sequence <= s[i].sequence
  {
    assert forall j :: 0 <= j < |s| - 1 ==> s[1..][j] == s[j + 1];
  }

  lemma LatestIsFirst(s: Stream)
    requires IsLatest(s, 0)
    ensures forall d :: d in Sort(s[1..]) ==> d.sequence < s[0].sequence
  {
    SortAdds(s[1..]);
    forall d | d in Sort(s[1..]) ensures d.sequence < s[0].sequence {
      assert d in multiset(s[1..]);
    }
  }

  /** The sort lists the latest commitment last. */
  lemma {:induction false} SortEndsWithLatest(s: Stream, i: int)
    requires IsLatest(s, i)
    ensures |Sort(s)| == |s| && Sort(s)[|s| - 1] == s[i]
  {
    SortSorts(s[1..]);
    if i > 0 {
      LatestOfTail(s, i);
      SortEndsWithLatest(s[1..], i - 1);
      InsertKeepsLast(s[0], Sort(s[1..]));
    } else {
      SortAdds(s[1..]);
      LatestIsFirst(s);
      InsertAtEnd(s[0], Sort(s[1..]));
    }
  }

  lemma {:induction false} HasLatest(s: Stream) returns (i: int)
    requires s != []
    ensures IsLatest(s, i)
  {
    if |s| == 1 {
      i := 0;
    } else {
      var tail := s[1..];
      i := HasLatest(tail);
      assert forall j :: 0 <= j < |tail| ==> tail[j] == s[j + 1];
      i := if tail[i].sequence >= s[0].sequence then i + 1 else 0;
    }
  }
}
