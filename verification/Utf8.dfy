/** utf8Bytes and canonicalBytes: the bytes a receipt signature covers. */
module Utf8 {
  import opened JsText
  import opened JsonString
  import opened Canonical
  import opened CanonicalUnique
  import Decimal
  import KeyOrder

  /** The code point at the start of a text; a lone surrogate reads as U+FFFD. */
  function CodePoint(t: Text): (p: int)
    requires t != []
    ensures 0 <= p < 0x11_0000
  {
    if StartsWithPair(t) then
      var high: int, low: int := t[0], t[1];
      0x1_0000 + (high - 0xD800) * 0x400 + (low - 0xDC00)
    else if IsHigh(t[0]) || IsLow(t[0]) then 0xFFFD
    else t[0]
  }

  function EncodePoint(p: int): seq<Byte>
    requires 0 <= p < 0x11_0000
  {
    if p < 0x80 then [p]
    else if p < 0x800 then [0xC0 + p / 64, 0x80 + p % 64]
    else if p < 0x1_0000 then [0xE0 + p / 4096, 0x80 + p / 64 % 64, 0x80 + p % 64]
    else [0xF0 + p / 262144, 0x80 + p / 4096 % 64, 0x80 + p / 64 % 64, 0x80 + p % 64]
  }

  /** new TextEncoder().encode(t). */
  function Bytes(t: Text): seq<Byte>
    decreases |t|
  {
    if t == [] then [] else EncodePoint(CodePoint(t)) + Bytes(t[Taken(t)..])
  }

  /** No surrogate stands alone. */
  predicate Paired(t: Text)
    decreases |t|
  {
    t == [] || if StartsWithPair(t) then Paired(t[2..]) else !IsHigh(t[0]) && !IsLow(t[0]) && Paired(t[1..])
  }

  // ----- Encoding loses nothing on paired text -----

  function PointLength(b: Byte): nat {
    if b < 0x80 then 1 else if b < 0xE0 then 2 else if b < 0xF0 then 3 else 4
  }

  function DecodePoint(bytes: seq<int>): int {
    if |bytes| == 1 then bytes[0]
    else if |bytes| == 2 then (bytes[0] - 0xC0) * 64 + (bytes[1] - 0x80)
    else if |bytes| == 3 then (bytes[0] - 0xE0) * 4096 + (bytes[1] - 0x80) * 64 + (bytes[2] - 0x80)
    else if |bytes| == 4 then
      (bytes[0] - 0xF0) * 262144 + (bytes[1] - 0x80) * 4096 + (bytes[2] - 0x80) * 64 + (bytes[3] - 0x80)
    else 0
  }

  lemma PointReadable(p: int)
    requires 0 <= p < 0x11_0000
    ensures EncodePoint(p) != [] && PointLength(EncodePoint(p)[0]) == |EncodePoint(p)|
    ensures DecodePoint(EncodePoint(p)) == p
  {
    assert p / 4096 == p / 64 / 64 && p / 262144 == p / 64 / 64 / 64;
  }

  /** The units a code point stands for. */
  function Units(p: int): Text
    requires 0 <= p < 0x11_0000
  {
    if p < 0x1_0000 then [p] else [0xD800 + (p - 0x1_0000) / 0x400, 0xDC00 + (p - 0x1_0000) % 0x400]
  }

  lemma UnitsOfCodePoint(t: Text)
    requires t != [] && Paired(t)
    ensures Units(CodePoint(t)) + t[Taken(t)..] == t
    ensures Paired(t[Taken(t)..])
  {
  }

  /** One code point off the front of a paired text, with its bytes. */
  lemma FirstPoint(t: Text) returns (p: int, front: seq<Byte>, t': Text)
    requires t != [] && Paired(t)
    ensures 0 <= p < 0x11_0000 && |t'| < |t| && Paired(t') && t == Units(p) + t'
    ensures Bytes(t) == front + Bytes(t')
    ensures front != [] && PointLength(front[0]) == |front| && DecodePoint(front) == p
  {
    p, t' := CodePoint(t), t[Taken(t)..];
    front := EncodePoint(p);
    PointReadable(p);
    UnitsOfCodePoint(t);
  }

  lemma {:induction false} BytesUnique(a: Text, b: Text)
    requires Paired(a) && Paired(b) && Bytes(a) == Bytes(b)
    ensures a == b
    decreases |a|
  {
    if a != [] {
      var p, x, a' := FirstPoint(a);
      assert b != [];
      var q, y, b' := FirstPoint(b);
      assert Bytes(a)[0] == x[0] && Bytes(b)[0] == y[0];
      assert x == Bytes(a)[..|x|] == y && Bytes(a') == Bytes(a)[|x|..] == Bytes(b');
      BytesUnique(a', b');
    } else if b != [] {
      var q, y, b' := FirstPoint(b);
    }
  }

  // ----- What encoding loses on other text -----

  /** Every lone surrogate replaced by U+FFFD. */
  function Repaired(t: Text): Text
    decreases |t|
  {
    if t == [] then []
    else if StartsWithPair(t) then t[..2] + Repaired(t[2..])
    else [if IsHigh(t[0]) || IsLow(t[0]) then 0xFFFD else t[0]] + Repaired(t[1..])
  }

  lemma PairedStep(front: Text, rest: Text)
    requires Paired(rest)
    requires |front| == 1 ==> !IsHigh(front[0]) && !IsLow(front[0])
    requires |front| == 2 ==> StartsWithPair(front)
    requires 1 <= |front| <= 2
    ensures Paired(front + rest) && Taken(front + rest) == |front| && (front + rest)[|front|..] == rest
    ensures CodePoint(front + rest) == CodePoint(front)
  {
  }

  lemma {:induction false} RepairedEncodes(t: Text)
    ensures Paired(Repaired(t)) && Bytes(Repaired(t)) == Bytes(t)
    decreases |t|
  {
    if t != [] {
      var n := Taken(t);
      var front: Text := if n == 2 then t[..2] else [if IsHigh(t[0]) || IsLow(t[0]) then 0xFFFD else t[0]];
      RepairedEncodes(t[n..]);
      PairedStep(front, Repaired(t[n..]));
      assert Repaired(t) == front + Repaired(t[n..]);
      assert CodePoint(front) == CodePoint(t);
    }
  }

  /** Two texts have the same bytes exactly when they are equal after replacing
      lone surrogates by U+FFFD. */
  lemma BytesEqualExactly(a: Text, b: Text)
    ensures Bytes(a) == Bytes(b) <==> Repaired(a) == Repaired(b)
  {
    RepairedEncodes(a);
    RepairedEncodes(b);
    if Bytes(a) == Bytes(b) {
      BytesUnique(Repaired(a), Repaired(b));
    }
  }

  // ----- Reading the bytes back -----

  predicate IsTail(b: Byte) {
    0x80 <= b < 0xC0
  }

  /** The next code point by the byte sequences of section 4 of RFC 3629: shortest
      form, no surrogates, nothing above U+10FFFF. */
  function NextPoint(s: seq<Byte>): Option<int>
    requires s != []
  {
    if s[0] < 0x80 then Some(s[0])
    else if 0xC2 <= s[0] <= 0xDF && |s| >= 2 && IsTail(s[1]) then Some(0x40 * (s[0] as int - 0xC0) + (s[1] as int - 0x80))
    else if 0xE0 <= s[0] <= 0xEF && |s| >= 3 && IsTail(s[1]) && IsTail(s[2])
         && (s[0] == 0xE0 ==> s[1] >= 0xA0) && (s[0] == 0xED ==> s[1] < 0xA0) then
      Some(0x1000 * (s[0] as int - 0xE0) + 0x40 * (s[1] as int - 0x80) + (s[2] as int - 0x80))
    else if 0xF0 <= s[0] <= 0xF4 && |s| >= 4 && IsTail(s[1]) && IsTail(s[2]) && IsTail(s[3])
         && (s[0] == 0xF0 ==> s[1] >= 0x90) && (s[0] == 0xF4 ==> s[1] < 0x90) then
      Some(0x4_0000 * (s[0] as int - 0xF0) + 0x1000 * (s[1] as int - 0x80) + 0x40 * (s[2] as int - 0x80) + (s[3] as int - 0x80))
    else None
  }

  /** How many bytes a code point takes. */
  function Size(p: int): nat {
    if p < 0x80 then 1 else if p < 0x800 then 2 else if p < 0x1_0000 then 3 else 4
  }

  /** The code points of a byte string, if it is UTF-8. */
  function Points(s: seq<Byte>): Option<seq<int>>
    decreases |s|
  {
    if s == [] then Some([])
    else
      var p := NextPoint(s);
      if p.None? || Size(p.value) > |s| then None
      else
        var more := Points(s[Size(p.value)..]);
        if more.None? then None else Some([p.value] + more.value)
  }

  /** The code points of a text, section 3.9 of the Unicode Standard: a surrogate
      pair is one, a lone surrogate is replaced by U+FFFD, any other unit is itself. */
  ghost predicate Spelled(t: Text, points: seq<int>)
    decreases |t|
  {
    if t == [] then points == []
    else if StartsWithPair(t) then
      points != [] && points[0] == 0x1_0000 + 0x400 * (t[0] as int - 0xD800) + (t[1] as int - 0xDC00) && Spelled(t[2..], points[1..])
    else
      points != [] && points[0] == (if 0xD800 <= t[0] < 0xE000 then 0xFFFD else t[0]) && Spelled(t[1..], points[1..])
  }

  lemma PointReadsBack(t: Text, rest: seq<Byte>)
    requires t != []
    ensures var p := CodePoint(t); NextPoint(EncodePoint(p) + rest) == Some(p) && Size(p) == |EncodePoint(p)|
  {
    var p := CodePoint(t);
    assert p / 4096 == p / 64 / 64 && p / 262144 == p / 64 / 64 / 64;
  }

  /** The bytes are UTF-8 for the code points of the text. */
  lemma {:induction false} BytesAreUtf8(t: Text)
    ensures Points(Bytes(t)).Some? && Spelled(t, Points(Bytes(t)).value)
    decreases |t|
  {
    if t != [] {
      var p, rest := CodePoint(t), Bytes(t[Taken(t)..]);
      BytesAreUtf8(t[Taken(t)..]);
      PointReadsBack(t, rest);
      assert Bytes(t)[Size(p)..] == rest;
    }
  }

  // ----- Printed JSON is paired -----

  lemma {:induction false} PairedConcat(a: Text, b: Text)
    requires Paired(a) && Paired(b)
    ensures Paired(a + b)
    decreases |a|
  {
    if a == [] {
      assert a + b == b;
    } else {
      var n := Taken(a);
      PairedConcat(a[n..], b);
      assert (a + b)[n..] == a[n..] + b;
      assert (a + b)[0] == a[0] && (n == 2 ==> (a + b)[1] == a[1]);
    }
  }

  lemma {:induction false} AsciiPaired(t: Text)
    requires forall i :: 0 <= i < |t| ==> t[i] < 0x80
    ensures Paired(t)
    decreases |t|
  {
    if t != [] {
      AsciiPaired(t[1..]);
    }
  }

  lemma {:induction false} EscapePaired(t: Text)
    ensures Paired(Escape(t))
    decreases |t|
  {
    if t != [] {
      var n := Taken(t);
      EscapePaired(t[n..]);
      if n == 2 {
        assert Token(t)[2..] == [];
      } else if |Token(t)| == 1 {
        assert Token(t)[1..] == [];
      } else {
        AsciiPaired(Token(t));
      }
      PairedConcat(Token(t), Escape(t[n..]));
    }
  }

  lemma QuotePaired(t: Text)
    ensures Paired(Quote(t))
  {
    EscapePaired(t);
    AsciiPaired([QUOTE]);
    PairedConcat([QUOTE], Escape(t));
    PairedConcat([QUOTE] + Escape(t), [QUOTE]);
  }

  lemma {:induction false} JoinPaired(parts: seq<Text>)
    requires forall i :: 0 <= i < |parts| ==> Paired(parts[i])
    ensures Paired(Join(parts, COMMA))
  {
    if |parts| > 1 {
      JoinPaired(parts[1..]);
      AsciiPaired([COMMA]);
      PairedConcat(parts[0], [COMMA]);
      PairedConcat(parts[0] + [COMMA], Join(parts[1..], COMMA));
    }
  }

  lemma BracketPaired(body: Text, open: CodeUnit, close: CodeUnit)
    requires Paired(body) && open < 0x80 && close < 0x80
    ensures Paired([open] + body + [close])
  {
    AsciiPaired([open]);
    AsciiPaired([close]);
    PairedConcat([open], body);
    PairedConcat([open] + body, [close]);
  }

  lemma {:induction false} PrintPaired(v: Json)
    ensures Paired(Print(v))
    decreases v, 0
  {
    match v
    case Null => AsciiPaired(Print(v));
    case Bool(b) => AsciiPaired(Print(v));
    case Num(num) =>
      if num.Finite? {
        Decimal.PrintThenParse(if num.n < 0 then -num.n else num.n);
      }
      AsciiPaired(Print(v));
    case Str(s) => QuotePaired(s);
    case Arr(items) =>
      PrintAllPaired(items);
      JoinPaired(PrintAll(items));
      BracketPaired(Join(PrintAll(items), COMMA), 91, 93);
    case Obj(props) =>
      var keys := KeyOrder.Sort(Keys(props));
      PartsPaired(props, keys);
      JoinPaired(Parts(props, keys));
      BracketPaired(Join(Parts(props, keys), COMMA), 123, 125);
  }

  lemma {:induction false} PrintAllPaired(items: seq<Json>)
    ensures forall i :: 0 <= i < |items| ==> Paired(PrintAll(items)[i])
    decreases items, 0
  {
    if items != [] {
      PrintPaired(items[0]);
      PrintAllPaired(items[1..]);
    }
  }

  lemma {:induction false} PartsPaired(props: seq<Property>, keys: seq<Text>)
    ensures forall i :: 0 <= i < |Parts(props, keys)| ==> Paired(Parts(props, keys)[i])
    decreases props, |keys|
  {
    if keys != [] {
      PartsPaired(props, keys[1..]);
      if Defines(props, keys[0]) {
        var v := ValueOf(props, keys[0]);
        PrintPaired(v);
        QuotePaired(keys[0]);
        AsciiPaired([COLON]);
        PairedConcat(Quote(keys[0]), [COLON]);
        PairedConcat(Quote(keys[0]) + [COLON], Print(v));
      }
    }
  }

  // ----- Canonical bytes -----

  /** canonicalBytes(v), for a value the printer accepts. */
  function CanonicalBytes(v: Json): seq<Byte> {
    Bytes(Print(v))
  }

  /** A signature covers a value up to key order and dropped properties, and
      nothing coarser. */
  lemma CanonicalBytesUnambiguous(a: Json, b: Json)
    requires Good(a) && Good(b)
    ensures CanonicalBytes(a) == CanonicalBytes(b) <==> Equiv(a, b)
  {
    CanonicalJsonUnambiguous(a, b);
    if CanonicalBytes(a) == CanonicalBytes(b) {
      PrintPaired(a);
      PrintPaired(b);
      BytesUnique(Print(a), Print(b));
    }
  }
}
