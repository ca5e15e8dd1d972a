/** packages/core/src/receipt/canonical.ts: the deterministic JSON printer that
    signatures and cache bindings are computed over. */
module Canonical {
  import opened JsText
  import opened Decimal
  import opened JsonString
  import KeyOrder

  /** A JavaScript number: an integer, or one of NaN and the infinities. */
  datatype Number = Finite(n: int) | NotFinite

  /** A property of an object; `None` is the value undefined. */
  datatype Property = Property(key: Text, value: Option<Json>)

  datatype Json =
    | Null
    | Bool(b: bool)
    | Num(num: Number)
    | Str(s: Text)
    | Arr(items: seq<Json>)
    | Obj(props: seq<Property>)

  /** Every JavaScript object has distinct property names. */
  ghost predicate WellFormed(v: Json) {
    match v
    case Arr(items) => forall i :: 0 <= i < |items| ==> WellFormed(items[i])
    case Obj(props) =>
      && KeyOrder.Distinct(Keys(props))
      && forall i :: 0 <= i < |props| && props[i].value.Some? ==> WellFormed(props[i].value.value)
    case _ => true
  }

  /** No NaN or infinity anywhere; the printer throws on these. */
  ghost predicate Printable(v: Json) {
    match v
    case Num(num) => num.Finite?
    case Arr(items) => forall i :: 0 <= i < |items| ==> Printable(items[i])
    case Obj(props) => forall i :: 0 <= i < |props| && props[i].value.Some? ==> Printable(props[i].value.value)
    case _ => true
  }

  /** The values the printer accepts. */
  ghost predicate Good(v: Json) {
    WellFormed(v) && Printable(v)
  }

  function Keys(props: seq<Property>): (keys: seq<Text>)
    ensures |keys| == |props|
    ensures forall i :: 0 <= i < |props| ==> keys[i] == props[i].key
  {
    seq(|props|, i requires 0 <= i < |props| => props[i].key)
  }

  /** The position of a property; |props| when there is none. */
  function Find(props: seq<Property>, key: Text): (i: nat)
    ensures i <= |props|
    ensures i < |props| ==> props[i].key == key
    ensures forall j :: 0 <= j < i ==> props[j].key != key
  {
    if props == [] then 0
    else if props[0].key == key then 0
    else 1 + Find(props[1..], key)
  }

  /** Whether value[key] is something other than undefined. */
  predicate Defines(props: seq<Property>, key: Text) {
    var i := Find(props, key);
    i < |props| && props[i].value.Some?
  }

  ghost function DefinedKeys(props: seq<Property>): set<Text> {
    set i | 0 <= i < |props| && props[i].value.Some? :: props[i].key
  }

  /** Equality up to the order of object keys and undefined properties. */
  ghost predicate Equiv(a: Json, b: Json) {
    match (a, b)
    case (Arr(xs), Arr(ys)) => |xs| == |ys| && forall i :: 0 <= i < |xs| ==> Equiv(xs[i], ys[i])
    case (Obj(p), Obj(q)) =>
      && DefinedKeys(p) == DefinedKeys(q)
      && forall i, j :: 0 <= i < |p| && 0 <= j < |q| && p[i].key == q[j].key && p[i].value.Some? && q[j].value.Some?
                        ==> Equiv(p[i].value.value, q[j].value.value)
    case _ => a == b
  }

  /** canonicalJson(v), for a value it does not throw on. */
  function Print(v: Json): Text
    decreases v, 0
  {
    match v
    case Null => Lit("null")
    case Bool(b) => Lit(if b then "true" else "false")
    case Num(num) => if num.Finite? then PrintInt(num.n) else Lit("null")
    case Str(s) => Quote(s)
    case Arr(items) => [91] + Join(PrintAll(items), COMMA) + [93]
    case Obj(props) => [123] + Join(Parts(props, KeyOrder.Sort(Keys(props))), COMMA) + [125]
  }

  function PrintAll(items: seq<Json>): (parts: seq<Text>)
    ensures |parts| == |items|
    decreases items, 0
  {
    if items == [] then [] else [Print(items[0])] + PrintAll(items[1..])
  }

  /** The printed properties, in the order of `keys`, undefined ones skipped. */
  function Parts(props: seq<Property>, keys: seq<Text>): (parts: seq<Text>)
    decreases props, |keys|
  {
    if keys == [] then []
    else if Defines(props, keys[0]) then [Part(props, keys[0])] + Parts(props, keys[1..])
    else Parts(props, keys[1..])
  }

  function Part(props: seq<Property>, key: Text): (part: Text)
    requires Defines(props, key)
    decreases props, 0
  {
    Quote(key) + [COLON] + Print(props[Find(props, key)].value.value)
  }

  // ----- The printer as the source runs it -----

  datatype PrintResult = Printed(text: Text) | CanonicalizationFailed

  /** The object case pushes onto `parts` key by key; the array case maps and
      joins. The result is Print(value), or the failure when a number is not
      finite. */
  method CanonicalJson(value: Json) returns (result: PrintResult)
    requires WellFormed(value)
    ensures result == if Printable(value) then Printed(Print(value)) else CanonicalizationFailed
    decreases value
  {
    match value
    case Null => result := Printed(Lit("null"));
    case Bool(b) => result := Printed(Lit(if b then "true" else "false"));
    case Str(s) => result := Printed(Quote(s));
    case Num(num) =>
      if !num.Finite? {
        return CanonicalizationFailed;
      }
      result := Printed(PrintInt(num.n));
    case Arr(items) =>
      var parts := [];
      for i := 0 to |items|
        invariant parts == PrintAll(items[..i])
        invariant forall j :: 0 <= j < i ==> Printable(items[j])
      {
        var item := CanonicalJson(items[i]);
        if item.CanonicalizationFailed? {
          return CanonicalizationFailed;
        }
        PrintAllStep(items, i);
        parts := parts + [item.text];
      }
      assert items[..|items|] == items;
      result := Printed([91] + Join(parts, COMMA) + [93]);
    case Obj(props) =>
      var keys := KeyOrder.Sort(Keys(props));
      KeyOrder.SortSorts(Keys(props));
      var parts := [];
      for i := 0 to |keys|
        invariant parts == Parts(props, keys[..i])
        invariant forall j :: 0 <= j < i && Defines(props, keys[j]) ==> Printable(props[Find(props, keys[j])].value.value)
      {
        var key := keys[i];
        PartsStep(props, keys, i);
        if !Defines(props, key) {
          continue;
        }
        var item := CanonicalJson(props[Find(props, key)].value.value);
        if item.CanonicalizationFailed? {
          return CanonicalizationFailed;
        }
        parts := parts + [Quote(key) + [COLON] + item.text];
      }
      assert keys[..|keys|] == keys;
      PrintableByKeys(props, keys);
      result := Printed([123] + Join(parts, COMMA) + [125]);
  }

  lemma {:induction false} PrintAllAppend(items: seq<Json>, last: Json)
    ensures PrintAll(items + [last]) == PrintAll(items) + [Print(last)]
  {
    if items != [] {
      assert (items + [last])[1..] == items[1..] + [last];
      PrintAllAppend(items[1..], last);
    }
  }

  lemma {:induction false} PartsAppend(props: seq<Property>, keys: seq<Text>, last: Text)
    ensures Parts(props, keys + [last]) ==
            Parts(props, keys) + if Defines(props, last) then [Part(props, last)] else []
    decreases |keys|
  {
    if keys == [] {
      assert keys + [last] == [last];
      assert [last][1..] == [];
    } else {
      assert (keys + [last])[1..] == keys[1..] + [last];
      PartsAppend(props, keys[1..], last);
    }
  }

  lemma PrintAllStep(items: seq<Json>, i: nat)
    requires i < |items|
    ensures PrintAll(items[..i + 1]) == PrintAll(items[..i]) + [Print(items[i])]
  {
    assert items[..i + 1] == items[..i] + [items[i]];
    PrintAllAppend(items[..i], items[i]);
  }

  lemma PartsStep(props: seq<Property>, keys: seq<Text>, i: nat)
    requires i < |keys|
    ensures Parts(props, keys[..i + 1]) ==
            Parts(props, keys[..i]) + if Defines(props, keys[i]) then [Part(props, keys[i])] else []
  {
    assert keys[..i + 1] == keys[..i] + [keys[i]];
    PartsAppend(props, keys[..i], keys[i]);
  }

  lemma FindDistinct(props: seq<Property>, i: nat)
    requires KeyOrder.Distinct(Keys(props)) && i < |props|
    ensures Find(props, props[i].key) == i
  {
    var keys, j := Keys(props), Find(props, props[i].key);
    assert keys[i] == props[i].key;
    assert j <= i && keys[j] == props[j].key;
  }

  lemma PrintableByKeys(props: seq<Property>, keys: seq<Text>)
    requires KeyOrder.Distinct(Keys(props)) && KeyOrder.KeySet(keys) == KeyOrder.KeySet(Keys(props))
    requires forall j :: 0 <= j < |keys| && Defines(props, keys[j]) ==> Printable(props[Find(props, keys[j])].value.value)
    ensures Printable(Obj(props))
  {
    forall i | 0 <= i < |props| && props[i].value.Some? ensures Printable(props[i].value.value) {
      FindDistinct(props, i);
      assert Keys(props)[i] in KeyOrder.KeySet(keys);
      var j :| 0 <= j < |keys| && keys[j] == props[i].key;
      assert Defines(props, keys[j]);
    }
  }
}
