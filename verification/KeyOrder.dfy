/** Object.keys(value).sort(): code-unit order (section 3.2.3 of RFC 8785). */
module KeyOrder {
  import opened JsText

  function Insert(key: Text, keys: seq<Text>): seq<Text> {
    if keys == [] || Less(key, keys[0]) then [key] + keys
    else [keys[0]] + Insert(key, keys[1..])
  }

  function Sort(keys: seq<Text>): seq<Text> {
    if keys == [] then [] else Insert(keys[0], Sort(keys[1..]))
  }

  ghost predicate StrictlySorted(keys: seq<Text>) {
    forall i, j :: 0 <= i < j < |keys| ==> Less(keys[i], keys[j])
  }

  ghost predicate Distinct(keys: seq<Text>) {
    forall i, j :: 0 <= i < j < |keys| ==> keys[i] != keys[j]
  }

  ghost function KeySet(keys: seq<Text>): set<Text> {
    set i | 0 <= i < |keys| :: keys[i]
  }

  lemma KeySetCons(keys: seq<Text>)
    requires keys != []
    ensures KeySet(keys) == {keys[0]} + KeySet(keys[1..])
  {
    forall k | k in KeySet(keys) ensures k in {keys[0]} + KeySet(keys[1..]) {
      var i :| 0 <= i < |keys| && keys[i] == k;
      if i > 0 {
        assert keys[1..][i - 1] == k;
      }
    }
    forall k | k in KeySet(keys[1..]) ensures k in KeySet(keys) {
      var i :| 0 <= i < |keys[1..]| && keys[1..][i] == k;
      assert keys[i + 1] == k;
    }
  }

  /** Strict order with the head below everything in the tail. */
  lemma SortedCons(keys: seq<Text>)
    requires keys != []
    ensures StrictlySorted(keys) <==>
            StrictlySorted(keys[1..]) && forall k :: k in KeySet(keys[1..]) ==> Less(keys[0], k)
  {
    var tail := keys[1..];
    assert forall i :: 0 < i < |keys| ==> keys[i] == tail[i - 1];
    if StrictlySorted(keys) {
      forall k | k in KeySet(tail) ensures Less(keys[0], k) {
        var i :| 0 <= i < |tail| && tail[i] == k;
        assert keys[i + 1] == k;
      }
      assert forall i :: 0 <= i < |tail| ==> tail[i] == keys[i + 1];
    }
    if StrictlySorted(tail) && forall k :: k in KeySet(tail) ==> Less(keys[0], k) {
      forall i, j | 0 <= i < j < |keys| ensures Less(keys[i], keys[j]) {
        assert keys[j] == tail[j - 1] && keys[j] in KeySet(tail);
        assert i > 0 ==> keys[i] == tail[i - 1];
      }
    }
  }

  lemma {:induction false} InsertSorts(key: Text, keys: seq<Text>)
    requires StrictlySorted(keys) && key !in KeySet(keys)
    ensures StrictlySorted(Insert(key, keys))
    ensures KeySet(Insert(key, keys)) == {key} + KeySet(keys)
  {
    var result := Insert(key, keys);
    KeySetCons(result);
    SortedCons(result);
    if keys != [] {
      KeySetCons(keys);
      SortedCons(keys);
      if Less(key, keys[0]) {
        assert result[1..] == keys;
        forall k | k in KeySet(keys) ensures Less(key, k) {
          if k != keys[0] { LessIsTransitive(key, keys[0], k); }
        }
      } else {
        assert result[1..] == Insert(key, keys[1..]);
        InsertSorts(key, keys[1..]);
        LessIsTotal(key, keys[0]);
      }
    } else {
      assert result[1..] == [];
    }
  }

  lemma {:induction false} SortSorts(keys: seq<Text>)
    requires Distinct(keys)
    ensures StrictlySorted(Sort(keys)) && KeySet(Sort(keys)) == KeySet(keys)
  {
    if keys != [] {
      var tail := keys[1..];
      assert forall i :: 0 <= i < |tail| ==> tail[i] == keys[i + 1];
      assert keys[0] !in KeySet(tail);
      SortSorts(tail);
      InsertSorts(keys[0], Sort(tail));
      KeySetCons(keys);
    }
  }

  /** A set of keys has one strictly sorted listing. */
  lemma {:induction false} SortedUnique(a: seq<Text>, b: seq<Text>)
    requires StrictlySorted(a) && StrictlySorted(b) && KeySet(a) == KeySet(b)
    ensures a == b
  {
    if a == [] {
      if b != [] { KeySetCons(b); }
    } else if b == [] {
      KeySetCons(a);
    } else {
      KeySetCons(a);
      KeySetCons(b);
      SortedCons(a);
      SortedCons(b);
      if a[0] != b[0] {
        LessIsTransitive(a[0], b[0], a[0]);
      }
      LessIsIrreflexive(a[0]);
      SortedUnique(a[1..], b[1..]);
      assert a == [a[0]] + a[1..] && b == [b[0]] + b[1..];
    }
  }

  // ----- The order, unit by unit -----

  /** One text is a proper prefix of the other, or at the first unit where they
      differ its own is the smaller number. */
  ghost predicate Ascends(a: Text, b: Text) {
    || (|a| < |b| && a == b[..|a|])
    || (exists k :: 0 <= k < |a| && k < |b| && a[..k] == b[..k] && (a[k] as int) < (b[k] as int))
  }

  lemma AscendsCons(c: CodeUnit, a: Text, b: Text)
    requires Ascends(a, b)
    ensures Ascends([c] + a, [c] + b)
  {
    if |a| < |b| && a == b[..|a|] {
      assert ([c] + b)[..|a| + 1] == [c] + a;
    } else {
      var k :| 0 <= k < |a| && k < |b| && a[..k] == b[..k] && (a[k] as int) < (b[k] as int);
      assert ([c] + a)[..k + 1] == [c] + a[..k] && ([c] + b)[..k + 1] == [c] + b[..k];
      assert ([c] + a)[k + 1] == a[k] && ([c] + b)[k + 1] == b[k];
    }
  }

  lemma {:induction false} LessAscends(a: Text, b: Text)
    requires Less(a, b)
    ensures Ascends(a, b)
  {
    if a != [] && a[0] == b[0] {
      LessAscends(a[1..], b[1..]);
      AscendsCons(a[0], a[1..], b[1..]);
      assert a == [a[0]] + a[1..] && b == [b[0]] + b[1..];
    } else if a != [] {
      assert a[..0] == b[..0] && (a[0] as int) < (b[0] as int);
    }
  }

  /** Sorted keys ascend by UTF-16 code units: section 3.2.3 of RFC 8785. */
  lemma SortAscends(keys: seq<Text>, i: nat, j: nat)
    requires Distinct(keys) && i < j < |Sort(keys)|
    ensures Ascends(Sort(keys)[i], Sort(keys)[j])
  {
    SortSorts(keys);
    LessAscends(Sort(keys)[i], Sort(keys)[j]);
  }
}
