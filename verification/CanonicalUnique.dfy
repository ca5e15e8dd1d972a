/** Canonical JSON is unambiguous: two values print to the same text exactly
    when they are equal up to key order and dropped undefined properties. */
module CanonicalUnique {
  import opened JsText
  import Decimal
  import opened JsonString
  import opened Canonical
  import KeyOrder

  /** What may follow a printed value: nothing, a comma or a closing bracket. */
  predicate Delimited(r: Text) {
    r == [] || r[0] == COMMA || r[0] == 93 || r[0] == 125
  }

  /** The keys that are printed, in order. */
  function Printed(props: seq<Property>, keys: seq<Text>): seq<Text> {
    if keys == [] then []
    else if Defines(props, keys[0]) then [keys[0]] + Printed(props, keys[1..])
    else Printed(props, keys[1..])
  }

  function PrintedKeys(props: seq<Property>): seq<Text> {
    Printed(props, KeyOrder.Sort(Keys(props)))
  }

  // ----- The printed keys are the sorted listing of the defined ones -----

  lemma {:induction false} PrintedSet(props: seq<Property>, keys: seq<Text>)
    ensures forall k :: k in KeyOrder.KeySet(Printed(props, keys)) <==> k in KeyOrder.KeySet(keys) && Defines(props, k)
  {
    if keys != [] {
      PrintedSet(props, keys[1..]);
      KeyOrder.KeySetCons(keys);
      if Defines(props, keys[0]) {
        var p := Printed(props, keys);
        KeyOrder.KeySetCons(p);
        assert p[1..] == Printed(props, keys[1..]);
      }
    }
  }

  lemma {:induction false} PrintedSorted(props: seq<Property>, keys: seq<Text>)
    requires KeyOrder.StrictlySorted(keys)
    ensures KeyOrder.StrictlySorted(Printed(props, keys))
  {
    if keys != [] {
      KeyOrder.SortedCons(keys);
      PrintedSorted(props, keys[1..]);
      PrintedSet(props, keys[1..]);
      if Defines(props, keys[0]) {
        var p := Printed(props, keys);
        KeyOrder.SortedCons(p);
        assert p[1..] == Printed(props, keys[1..]);
      }
    }
  }

  lemma DefinesByKeySet(props: seq<Property>)
    requires KeyOrder.Distinct(Keys(props))
    ensures forall k :: k in DefinedKeys(props) <==> k in KeyOrder.KeySet(Keys(props)) && Defines(props, k)
  {
    forall k | k in DefinedKeys(props) ensures k in KeyOrder.KeySet(Keys(props)) && Defines(props, k) {
      var i :| 0 <= i < |props| && props[i].value.Some? && props[i].key == k;
      assert Keys(props)[i] == k;
      FindDistinct(props, i);
    }
  }

  lemma PrintedKeysSpec(props: seq<Property>)
    requires KeyOrder.Distinct(Keys(props))
    ensures KeyOrder.StrictlySorted(PrintedKeys(props))
    ensures KeyOrder.KeySet(PrintedKeys(props)) == DefinedKeys(props)
    ensures forall i :: 0 <= i < |PrintedKeys(props)| ==> Defines(props, PrintedKeys(props)[i])
  {
    var sorted := KeyOrder.Sort(Keys(props));
    KeyOrder.SortSorts(Keys(props));
    PrintedSorted(props, sorted);
    PrintedSet(props, sorted);
    DefinesByKeySet(props);
    forall i | 0 <= i < |PrintedKeys(props)| ensures Defines(props, PrintedKeys(props)[i]) {
      assert PrintedKeys(props)[i] in KeyOrder.KeySet(PrintedKeys(props));
    }
  }

  lemma {:induction false} PartsOfPrinted(props: seq<Property>, keys: seq<Text>)
    ensures Parts(props, keys) == Parts(props, Printed(props, keys))
    decreases |keys|
  {
    if keys != [] {
      PartsOfPrinted(props, keys[1..]);
      if Defines(props, keys[0]) {
        var p := Printed(props, keys);
        assert p[0] == keys[0] && p[1..] == Printed(props, keys[1..]);
      }
    }
  }

  /** The value printed under a key. */
  function ValueOf(props: seq<Property>, key: Text): (v: Json)
    requires Defines(props, key)
  {
    props[Find(props, key)].value.value
  }

  /** Two objects agree on their values when they agree key by key. */
  lemma EquivByKeys(p: seq<Property>, q: seq<Property>)
    requires KeyOrder.Distinct(Keys(p)) && KeyOrder.Distinct(Keys(q))
    requires PrintedKeys(p) == PrintedKeys(q)
    requires forall k :: k in PrintedKeys(p) && Defines(p, k) && Defines(q, k) ==> Equiv(ValueOf(p, k), ValueOf(q, k))
    ensures Equiv(Obj(p), Obj(q))
  {
    PrintedKeysSpec(p);
    PrintedKeysSpec(q);
    forall i, j | 0 <= i < |p| && 0 <= j < |q| && p[i].key == q[j].key && p[i].value.Some? && q[j].value.Some?
      ensures Equiv(p[i].value.value, q[j].value.value)
    {
      FindDistinct(p, i);
      FindDistinct(q, j);
      assert p[i].key in DefinedKeys(p);
      assert p[i].key in KeyOrder.KeySet(PrintedKeys(p));
      var n :| 0 <= n < |PrintedKeys(p)| && PrintedKeys(p)[n] == p[i].key;
      assert Equiv(ValueOf(p, p[i].key), ValueOf(q, p[i].key));
    }
  }

  // ----- Equal text, equal values -----

  /** The first unit of a printed value tells its kind. */
  lemma PrintHead(v: Json)
    requires Printable(v)
    ensures Print(v) != [] && !Delimited(Print(v))
    ensures Print(v)[0] == 110 <==> v.Null?
    ensures Print(v)[0] == 116 <==> v == Bool(true)
    ensures Print(v)[0] == 102 <==> v == Bool(false)
    ensures Print(v)[0] == QUOTE <==> v.Str?
    ensures Print(v)[0] == 91 <==> v.Arr?
    ensures Print(v)[0] == 123 <==> v.Obj?
  {
    if v.Num? {
      Decimal.PrintIntHead(v.num.n);
    }
  }

  lemma PrintConcatHead(v: Json, r: Text)
    requires Printable(v)
    ensures Print(v) + r != [] && (Print(v) + r)[0] == Print(v)[0]
  {
    PrintHead(v);
  }

  /** A printed value is read back from any text it starts, so equal texts have
      equivalent values and equal remainders. */
  lemma {:induction false} PrintUnique(a: Json, b: Json, r: Text, s: Text)
    requires Good(a) && Good(b) && Delimited(r) && Delimited(s)
    requires Print(a) + r == Print(b) + s
    ensures Equiv(a, b) && r == s
    decreases a, 0
  {
    PrintHead(a);
    PrintHead(b);
    PrintConcatHead(a, r);
    PrintConcatHead(b, s);
    match a
    case Null => SameHeadSameTail(Print(a), Print(b), r, s);
    case Bool(_) => SameHeadSameTail(Print(a), Print(b), r, s);
    case Num(m) => Decimal.PrintIntUnique(m.n, b.num.n, r, s);
    case Str(t) => QuoteUnique(t, b.s, r, s);
    case Arr(xs) =>
      BracketText(Join(PrintAll(xs), COMMA), 91, [93], r);
      BracketText(Join(PrintAll(b.items), COMMA), 91, [93], s);
      SameHeadSameTail([91], [91], Join(PrintAll(xs), COMMA) + ([93] + r), Join(PrintAll(b.items), COMMA) + ([93] + s));
      ItemsUnique(xs, b.items, r, s);
    case Obj(p) =>
      ObjectText(p, r);
      ObjectText(b.props, s);
      var ks, ls := PrintedKeys(p), PrintedKeys(b.props);
      SameHeadSameTail([123], [123], Join(Parts(p, ks), COMMA) + ([125] + r), Join(Parts(b.props, ls), COMMA) + ([125] + s));
      PrintedKeysSpec(p);
      PrintedKeysSpec(b.props);
      MembersUnique(p, ks, b.props, ls, r, s);
      EquivByKeys(p, b.props);
  }

  lemma BracketText(body: Text, open: CodeUnit, close: Text, r: Text)
    ensures [open] + body + close + r == [open] + (body + (close + r))
  {
  }

  lemma ObjectText(p: seq<Property>, r: Text)
    ensures Print(Obj(p)) + r == [123] + (Join(Parts(p, PrintedKeys(p)), COMMA) + ([125] + r))
  {
    PartsOfPrinted(p, KeyOrder.Sort(Keys(p)));
    BracketText(Join(Parts(p, PrintedKeys(p)), COMMA), 123, [125], r);
  }

  /** The rest of a joined list after its first part is delimited text. */
  lemma AfterFirstDelimited(parts: seq<Text>, close: Text)
    requires parts != [] && Delimited(close) && close != [] && close[0] != COMMA
    ensures Delimited(AfterFirst(parts, COMMA, close))
    ensures |parts| == 1 <==> AfterFirst(parts, COMMA, close)[0] != COMMA
  {
  }

  lemma {:induction false} ItemsUnique(xs: seq<Json>, ys: seq<Json>, r: Text, s: Text)
    requires forall i :: 0 <= i < |xs| ==> Good(xs[i])
    requires forall i :: 0 <= i < |ys| ==> Good(ys[i])
    requires Join(PrintAll(xs), COMMA) + ([93] + r) == Join(PrintAll(ys), COMMA) + ([93] + s)
    ensures |xs| == |ys| && r == s
    ensures forall i :: 0 <= i < |xs| ==> Equiv(xs[i], ys[i])
    decreases xs, 0
  {
    var cr, cs := [93] + r, [93] + s;
    ItemsHead(xs, cr);
    ItemsHead(ys, cs);
    if xs == [] {
      SameHeadSameTail([93], [93], r, s);
    } else {
      var px, py := PrintAll(xs), PrintAll(ys);
      AfterFirstDelimited(px, cr);
      AfterFirstDelimited(py, cs);
      PrintUnique(xs[0], ys[0], AfterFirst(px, COMMA, cr), AfterFirst(py, COMMA, cs));
      if |xs| == 1 {
        SameHeadSameTail([93], [93], r, s);
      } else {
        assert px[1..] == PrintAll(xs[1..]) && py[1..] == PrintAll(ys[1..]);
        SameHeadSameTail([COMMA], [COMMA], Join(px[1..], COMMA) + cr, Join(py[1..], COMMA) + cs);
        ItemsUnique(xs[1..], ys[1..], r, s);
      }
    }
  }

  lemma ItemsHead(xs: seq<Json>, close: Text)
    requires forall i :: 0 <= i < |xs| ==> Good(xs[i])
    requires close != [] && close[0] == 93
    ensures xs == [] ==> Join(PrintAll(xs), COMMA) + close == close
    ensures xs != [] ==> Join(PrintAll(xs), COMMA) + close == Print(xs[0]) + AfterFirst(PrintAll(xs), COMMA, close)
    ensures xs == [] <==> (Join(PrintAll(xs), COMMA) + close)[0] == 93
  {
    if xs == [] {
      assert Join(PrintAll(xs), COMMA) + close == close;
    } else {
      JoinHead(PrintAll(xs), COMMA, close);
      PrintHead(xs[0]);
      PrintConcatHead(xs[0], AfterFirst(PrintAll(xs), COMMA, close));
    }
  }

  ghost predicate AllDefined(p: seq<Property>, ks: seq<Text>) {
    forall i :: 0 <= i < |ks| ==> Defines(p, ks[i])
  }

  lemma {:induction false} PartsLength(p: seq<Property>, ks: seq<Text>)
    requires AllDefined(p, ks)
    ensures |Parts(p, ks)| == |ks|
    decreases |ks|
  {
    if ks != [] {
      PartsLength(p, ks[1..]);
    }
  }

  lemma {:induction false} MembersUnique(p: seq<Property>, ks: seq<Text>, q: seq<Property>, ls: seq<Text>, r: Text, s: Text)
    requires Good(Obj(p)) && Good(Obj(q)) && AllDefined(p, ks) && AllDefined(q, ls)
    requires Join(Parts(p, ks), COMMA) + ([125] + r) == Join(Parts(q, ls), COMMA) + ([125] + s)
    ensures ks == ls && r == s
    ensures forall k :: k in ks ==> Equiv(ValueOf(p, k), ValueOf(q, k))
    decreases p, |ks|
  {
    var cr, cs := [125] + r, [125] + s;
    MembersHead(p, ks, cr);
    MembersHead(q, ls, cs);
    if ks == [] {
      SameHeadSameTail([125], [125], r, s);
    } else {
      var pp, pq := Parts(p, ks), Parts(q, ls);
      PartsLength(p, ks);
      PartsLength(q, ls);
      var tp, tq := AfterFirst(pp, COMMA, cr), AfterFirst(pq, COMMA, cs);
      AfterFirstDelimited(pp, cr);
      AfterFirstDelimited(pq, cs);
      var v, w := ValueOf(p, ks[0]), ValueOf(q, ls[0]);
      QuoteUnique(ks[0], ls[0], [COLON] + (Print(v) + tp), [COLON] + (Print(w) + tq));
      SameHeadSameTail([COLON], [COLON], Print(v) + tp, Print(w) + tq);
      PrintUnique(v, w, tp, tq);
      if |ks| == 1 {
        SameHeadSameTail([125], [125], r, s);
      } else {
        SameHeadSameTail([COMMA], [COMMA], Join(pp[1..], COMMA) + cr, Join(pq[1..], COMMA) + cs);
        MembersUnique(p, ks[1..], q, ls[1..], r, s);
      }
      assert ks == [ks[0]] + ks[1..] && ls == [ls[0]] + ls[1..];
    }
  }

  lemma MembersHead(p: seq<Property>, ks: seq<Text>, close: Text)
    requires AllDefined(p, ks)
    requires close != [] && close[0] == 125
    ensures ks == [] ==> Join(Parts(p, ks), COMMA) + close == close
    ensures ks != [] ==> |Parts(p, ks)| > 0
    ensures ks != [] ==> Join(Parts(p, ks), COMMA) + close ==
                         Quote(ks[0]) + ([COLON] + (Print(ValueOf(p, ks[0])) + AfterFirst(Parts(p, ks), COMMA, close)))
    ensures ks == [] <==> (Join(Parts(p, ks), COMMA) + close)[0] == 125
  {
    if ks == [] {
      assert Join(Parts(p, ks), COMMA) + close == close;
    } else {
      var parts := Parts(p, ks);
      JoinHead(parts, COMMA, close);
      var v, after := Print(ValueOf(p, ks[0])), AfterFirst(parts, COMMA, close);
      assert Quote(ks[0]) + [COLON] + v + after == Quote(ks[0]) + ([COLON] + (v + after));
    }
  }

  // ----- Equivalent values, equal text -----

  lemma {:induction false} EquivPrints(a: Json, b: Json)
    requires WellFormed(a) && WellFormed(b) && Equiv(a, b)
    ensures Print(a) == Print(b)
    decreases a, 0
  {
    match a
    case Arr(xs) => ItemsPrint(xs, b.items);
    case Obj(p) =>
      var q := b.props;
      PrintedKeysSpec(p);
      PrintedKeysSpec(q);
      KeyOrder.SortedUnique(PrintedKeys(p), PrintedKeys(q));
      PartsOfPrinted(p, KeyOrder.Sort(Keys(p)));
      PartsOfPrinted(q, KeyOrder.Sort(Keys(q)));
      MembersPrint(p, q, PrintedKeys(p));
    case _ =>
  }

  lemma {:induction false} ItemsPrint(xs: seq<Json>, ys: seq<Json>)
    requires |xs| == |ys|
    requires forall i :: 0 <= i < |xs| ==> WellFormed(xs[i]) && WellFormed(ys[i]) && Equiv(xs[i], ys[i])
    ensures PrintAll(xs) == PrintAll(ys)
    decreases xs, 0
  {
    if xs != [] {
      EquivPrints(xs[0], ys[0]);
      ItemsPrint(xs[1..], ys[1..]);
    }
  }

  lemma {:induction false} MembersPrint(p: seq<Property>, q: seq<Property>, ks: seq<Text>)
    requires WellFormed(Obj(p)) && WellFormed(Obj(q)) && Equiv(Obj(p), Obj(q))
    requires AllDefined(p, ks) && AllDefined(q, ks)
    ensures Parts(p, ks) == Parts(q, ks)
    decreases p, |ks|
  {
    if ks != [] {
      EquivPrints(ValueOf(p, ks[0]), ValueOf(q, ks[0]));
      MembersPrint(p, q, ks[1..]);
    }
  }

  /** The main result for the printer. */
  lemma CanonicalJsonUnambiguous(a: Json, b: Json)
    requires Good(a) && Good(b)
    ensures Print(a) == Print(b) <==> Equiv(a, b)
  {
    if Print(a) == Print(b) {
      assert Print(a) + [] == Print(b) + [];
      PrintUnique(a, b, [], []);
    }
    if Equiv(a, b) {
      EquivPrints(a, b);
    }
  }
}
