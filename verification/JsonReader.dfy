/** Canonical text is JSON: a reader of the grammar of RFC 8259 (sections 2 to 7,
    for text without insignificant whitespace and with integer numbers), written
    without the printer, gets the printed value back. */
module JsonReader {
  import opened JsText
  import Decimal
  import opened JsonString
  import opened Canonical
  import opened CanonicalUnique
  import KeyOrder

  datatype Read<+T> = Got(value: T, rest: Text) | Malformed

  // ----- Strings -----

  predicate IsHex(c: CodeUnit) {
    '0' as int <= c <= '9' as int || 'a' as int <= c <= 'f' as int || 'A' as int <= c <= 'F' as int
  }

  function HexOf(c: CodeUnit): (d: int)
    requires IsHex(c)
    ensures 0 <= d < 16
  {
    if c <= '9' as int then c - '0' as int
    else if c <= 'F' as int then c - 'A' as int + 10
    else c - 'a' as int + 10
  }

  /** The character behind a one-letter escape. */
  function Unescaped(c: CodeUnit): Option<CodeUnit> {
    if c == '"' as int || c == '\\' as int || c == '/' as int then Some(c)
    else if c == 'b' as int then Some(0x08)
    else if c == 'f' as int then Some(0x0C)
    else if c == 'n' as int then Some(0x0A)
    else if c == 'r' as int then Some(0x0D)
    else if c == 't' as int then Some(0x09)
    else None
  }

  /** One character of a string and what follows it. */
  function ReadChar(t: Text): (r: Read<CodeUnit>)
    requires t != []
    ensures r.Got? ==> |r.rest| < |t|
  {
    if t[0] == '\\' as int then
      if |t| >= 6 && t[1] == 'u' as int && IsHex(t[2]) && IsHex(t[3]) && IsHex(t[4]) && IsHex(t[5]) then
        Got(((HexOf(t[2]) * 16 + HexOf(t[3])) * 16 + HexOf(t[4])) * 16 + HexOf(t[5]), t[6..])
      else if |t| >= 2 && Unescaped(t[1]).Some? then Got(Unescaped(t[1]).value, t[2..])
      else Malformed
    else if t[0] < 0x20 then Malformed
    else Got(t[0], t[1..])
  }

  /** The rest of a string behind its opening quote. */
  function ReadChars(t: Text): (r: Read<Text>)
    ensures r.Got? ==> |r.rest| < |t|
    decreases |t|
  {
    if t == [] then Malformed
    else if t[0] == '"' as int then Got([], t[1..])
    else
      var c := ReadChar(t);
      if c.Malformed? then Malformed
      else
        var more := ReadChars(c.rest);
        if more.Malformed? then Malformed else Got([c.value] + more.value, more.rest)
  }

  lemma HexReadsBack(c: CodeUnit, rest: Text)
    ensures ReadChar(UnicodeEscape(c) + rest) == Got(c, rest)
  {
    var e := UnicodeEscape(c);
    var t := e + rest;
    assert t[0] == e[0] && t[1] == e[1] && t[2] == e[2] && t[3] == e[3] && t[4] == e[4] && t[5] == e[5];
    assert t[6..] == rest;
    HexDigitsRecombine(c);
    HexOfDigit(c / 4096);
    HexOfDigit(c / 256 % 16);
    HexOfDigit(c / 16 % 16);
    HexOfDigit(c % 16);
  }

  lemma HexOfDigit(d: int)
    requires 0 <= d < 16
    ensures IsHex(HexDigit(d)) && HexOf(HexDigit(d)) == d
  {
  }

  lemma ShortReadsBack(c: CodeUnit, rest: Text)
    requires ShortEscape(c).Some?
    ensures ReadChar([BACKSLASH, ShortEscape(c).value] + rest) == Got(c, rest)
  {
    var t := [BACKSLASH, ShortEscape(c).value] + rest;
    assert t[0] == BACKSLASH && t[1] == ShortEscape(c).value && t[2..] == rest;
  }

  lemma PlainReadsBack(c: CodeUnit, rest: Text)
    requires c >= 32 && c != BACKSLASH
    ensures ReadChar([c] + rest) == Got(c, rest)
  {
    Behind(c, rest);
  }

  lemma CharStep(t: Text, c: CodeUnit, rest: Text)
    requires t != [] && t[0] != QUOTE && ReadChar(t) == Got(c, rest)
    ensures var more := ReadChars(rest); more.Got? ==> ReadChars(t) == Got([c] + more.value, more.rest)
  {
  }

  lemma PairReadsBack(c: CodeUnit, d: CodeUnit, rest: Text)
    requires IsHigh(c) && IsLow(d)
    ensures var more := ReadChars(rest); more.Got? ==> ReadChars([c, d] + rest) == Got([c, d] + more.value, more.rest)
  {
    var t := [d] + rest;
    assert [c, d] + rest == [c] + t;
    PlainReadsBack(d, rest);
    CharStep(t, d, rest);
    PlainReadsBack(c, t);
    CharStep([c] + t, c, t);
    assert forall m: Text :: [c] + ([d] + m) == [c, d] + m;
  }

  lemma UnitReadsBack(t: Text, rest: Text)
    requires t != [] && !StartsWithPair(t)
    ensures var more := ReadChars(rest); more.Got? ==> ReadChars(Token(t) + rest) == Got([t[0]] + more.value, more.rest)
  {
    var c := t[0];
    if ShortEscape(c).Some? {
      ShortReadsBack(c, rest);
    } else if c < 32 || IsHigh(c) || IsLow(c) {
      HexReadsBack(c, rest);
    } else {
      PlainReadsBack(c, rest);
    }
    TokenLengthReadable(t, rest);
    CharStep(Token(t) + rest, c, rest);
  }

  lemma TokenReadsBack(t: Text, rest: Text)
    requires t != []
    ensures var more := ReadChars(rest);
            more.Got? ==> ReadChars(Token(t) + rest) == Got(t[..Taken(t)] + more.value, more.rest)
  {
    if StartsWithPair(t) {
      assert Token(t) == [t[0], t[1]] == t[..2];
      PairReadsBack(t[0], t[1], rest);
    } else {
      UnitReadsBack(t, rest);
      assert t[..1] == [t[0]];
    }
  }

  lemma NextToken(t: Text, close: Text)
    requires t != []
    ensures Escape(t) + close == Token(t) + (Escape(t[Taken(t)..]) + close)
    ensures t == t[..Taken(t)] + t[Taken(t)..]
  {
    Reassociate(Token(t), Escape(t[Taken(t)..]), close);
  }

  lemma ClosingQuote(r: Text)
    ensures ReadChars([QUOTE] + r) == Got([], r)
  {
    Behind(QUOTE, r);
  }

  lemma Behind(c: CodeUnit, t: Text)
    ensures ([c] + t)[1..] == t && ([c] + t)[0] == c
  {
  }

  /** An escaped string is read back up to its closing quote. */
  lemma {:induction false} CharsReadBack(t: Text, r: Text)
    ensures ReadChars(Escape(t) + ([QUOTE] + r)) == Got(t, r)
    decreases |t|
  {
    var close := [QUOTE] + r;
    if t == [] {
      ClosingQuote(r);
      assert Escape(t) + close == close;
    } else {
      NextToken(t, close);
      CharsReadBack(t[Taken(t)..], r);
      TokenReadsBack(t, Escape(t[Taken(t)..]) + close);
    }
  }

  /** How long the printed form of a single unit is: itself, a letter behind a
      backslash, or a four-digit escape. */
  lemma UnitLength(c: CodeUnit)
    ensures |Escape([c])| == if c in {0x08, 0x09, 0x0A, 0x0C, 0x0D} || c == '"' as int || c == '\\' as int then 2
                             else if c < 0x20 || 0xD800 <= c < 0xE000 then 6
                             else 1
    ensures |Escape([c])| == 6 ==> forall i :: 0 <= i < 6 ==> !('A' as int <= Escape([c])[i] <= 'F' as int)
  {
    assert [c][1..] == [];
    assert Escape([c]) == Token([c]) + Escape([]);
  }

  /** Text that a string may hold as it is. */
  predicate Plain(t: Text) {
    forall i :: 0 <= i < |t| ==> t[i] >= 0x20 && t[i] != '"' as int && t[i] != '\\' as int && !(0xD800 <= t[i] < 0xE000)
  }

  lemma {:induction false} PlainIsPrintedAsItself(t: Text)
    requires Plain(t)
    ensures Quote(t) == ['"' as int] + t + ['"' as int]
  {
    PlainEscape(t);
  }

  lemma {:induction false} PlainEscape(t: Text)
    requires Plain(t)
    ensures Escape(t) == t
  {
    if t != [] {
      PlainEscape(t[1..]);
      assert t == [t[0]] + t[1..];
    }
  }

  // ----- Values -----

  predicate StartsWith(t: Text, prefix: Text) {
    |t| >= |prefix| && t[..|prefix|] == prefix
  }

  function ReadValue(t: Text): (r: Read<Json>)
    ensures r.Got? ==> |r.rest| < |t|
    decreases |t|, 2
  {
    if t == [] then Malformed
    else if t[0] == '"' as int then
      var s := ReadChars(t[1..]);
      if s.Got? then Got(Str(s.value), s.rest) else Malformed
    else if t[0] == '[' as int then
      if |t| > 1 && t[1] == ']' as int then Got(Arr([]), t[2..])
      else
        var items := ReadItems(t[1..]);
        if items.Got? then Got(Arr(items.value), items.rest) else Malformed
    else if t[0] == '{' as int then
      if |t| > 1 && t[1] == '}' as int then Got(Obj([]), t[2..])
      else
        var members := ReadMembers(t[1..]);
        if members.Got? then Got(Obj(members.value), members.rest) else Malformed
    else if StartsWith(t, Lit("null")) then Got(Null, t[4..])
    else if StartsWith(t, Lit("true")) then Got(Bool(true), t[4..])
    else if StartsWith(t, Lit("false")) then Got(Bool(false), t[5..])
    else ReadInteger(t)
  }

  /** An integer: a minus or not, and digits without a superfluous zero. */
  function ReadInteger(t: Text): (r: Read<Json>)
    requires t != []
    ensures r.Got? ==> |r.rest| < |t|
  {
    var negative := t[0] == '-' as int;
    var digits := Decimal.DigitPrefix(if negative then t[1..] else t);
    DigitsFit(if negative then t[1..] else t);
    if digits == [] || (|digits| > 1 && digits[0] == '0' as int) then Malformed
    else
      var n: int := Decimal.Value(digits);
      if negative then Got(Num(Canonical.Number.Finite(-n)), t[1 + |digits|..]) else Got(Num(Canonical.Number.Finite(n)), t[|digits|..])
  }

  lemma {:induction false} DigitsFit(t: Text)
    ensures |Decimal.DigitPrefix(t)| <= |t| && Decimal.AllDigits(Decimal.DigitPrefix(t))
  {
    if t != [] {
      DigitsFit(t[1..]);
    }
  }

  /** One or more values, separated by commas, up to the closing bracket. */
  function ReadItems(t: Text): (r: Read<seq<Json>>)
    ensures r.Got? ==> |r.rest| < |t|
    decreases |t|, 3
  {
    var item := ReadValue(t);
    if item.Malformed? || item.rest == [] then Malformed
    else if item.rest[0] == ']' as int then Got([item.value], item.rest[1..])
    else if item.rest[0] == ',' as int then
      var more := ReadItems(item.rest[1..]);
      if more.Got? then Got([item.value] + more.value, more.rest) else Malformed
    else Malformed
  }

  /** One or more members, separated by commas, up to the closing brace. */
  function ReadMembers(t: Text): (r: Read<seq<Property>>)
    ensures r.Got? ==> |r.rest| < |t|
    decreases |t|, 3
  {
    if t == [] || t[0] != '"' as int then Malformed
    else
      var key := ReadChars(t[1..]);
      if key.Malformed? || key.rest == [] || key.rest[0] != ':' as int then Malformed
      else
        var item := ReadValue(key.rest[1..]);
        if item.Malformed? || item.rest == [] then Malformed
        else
          var member := Property(key.value, Some(item.value));
          if item.rest[0] == '}' as int then Got([member], item.rest[1..])
          else if item.rest[0] == ',' as int then
            var more := ReadMembers(item.rest[1..]);
            if more.Got? then Got([member] + more.value, more.rest) else Malformed
          else Malformed
  }

  // ----- The printed value is read back -----

  lemma DigitsReadBack(m: nat, r: Text)
    requires Delimited(r)
    ensures var digits := Decimal.Print(m);
            && Decimal.DigitPrefix(digits + r) == digits && (digits + r)[|digits|..] == r
            && Decimal.IsAmount(digits) && Decimal.Value(digits) == m && (|digits| > 1 ==> digits[0] != '0' as int)
  {
    var digits := Decimal.Print(m);
    Decimal.PrintThenParse(m);
    Decimal.ParseThenPrint(digits);
    Decimal.DigitPrefixOfRun(digits, r);
  }

  lemma IntegerReadsBack(n: int, r: Text)
    requires Delimited(r)
    ensures ReadInteger(Decimal.PrintInt(n) + r) == Got(Num(Canonical.Number.Finite(n)), r)
  {
    var m: nat := if n < 0 then -n else n;
    var t := Decimal.Print(m) + r;
    DigitsReadBack(m, r);
    if n < 0 {
      Reassociate([MINUS], Decimal.Print(m), r);
      Behind(MINUS, t);
      assert ([MINUS] + t)[1 + |Decimal.Print(m)|..] == t[|Decimal.Print(m)|..];
    } else {
      assert t[0] == Decimal.Print(m)[0];
    }
  }

  lemma LiteralReadsBack(v: Json, r: Text)
    requires v.Null? || v.Bool?
    ensures ReadValue(Print(v) + r) == Got(v, r)
  {
    var p := Print(v);
    var t := p + r;
    assert t[..|p|] == p && t[|p|..] == r;
    assert t[0] == p[0];
    assert v == Null ==> p == Lit("null");
    assert v == Bool(true) ==> p == Lit("true");
    assert v == Bool(false) ==> p == Lit("false");
  }

  lemma QuotedReadsBack(s: Text, r: Text)
    ensures var t := Quote(s) + r; t[0] == QUOTE && ReadChars(t[1..]) == Got(s, r)
  {
    CharsReadBack(s, r);
    BracketText(Escape(s), QUOTE, [QUOTE], r);
    Behind(QUOTE, Escape(s) + ([QUOTE] + r));
  }

  /** Every object lists its properties in ascending order of their names, by code
      unit, and has no undefined ones. */
  ghost predicate Ordered(v: Json) {
    match v
    case Arr(items) => forall i :: 0 <= i < |items| ==> Ordered(items[i])
    case Obj(props) =>
      && (forall i, j :: 0 <= i < j < |props| ==> KeyOrder.Ascends(props[i].key, props[j].key))
      && forall i :: 0 <= i < |props| ==> props[i].value.Some? && Ordered(props[i].value.value)
    case _ => true
  }

  /** The value, with its properties in order. */
  ghost predicate InOrder(w: Json, v: Json) {
    Equiv(w, v) && Ordered(w)
  }

  /** Every value the printer accepts is read back from the front of any text it
      stands at the front of, with the properties of its objects in ascending order
      and the undefined ones left out. */
  lemma {:induction false} PrintReadsBack(v: Json, r: Text)
    requires Good(v) && Delimited(r)
    ensures var read := ReadValue(Print(v) + r); read.Got? && InOrder(read.value, v) && read.rest == r
    decreases v, 0
  {
    match v
    case Null => LiteralReadsBack(v, r);
    case Bool(_) => LiteralReadsBack(v, r);
    case Str(s) => QuotedReadsBack(s, r);
    case Num(num) =>
      IntegerReadsBack(num.n, r);
      NumberHead(num.n, r);
    case Arr(items) =>
      ArrayText(items, r);
      if items != [] {
        ItemsReadBack(items, r);
      }
    case Obj(props) =>
      var keys := PrintedKeys(props);
      ObjectTextRead(props, r);
      PrintedKeysSpec(props);
      if keys != [] {
        MembersReadBack(props, keys, r);
        var read := ReadMembers(Join(Parts(props, keys), COMMA) + ([125] + r));
        ListedInOrder(read.value, props);
      } else {
        NothingDefined(props);
      }
  }

  lemma NothingDefined(p: seq<Property>)
    requires DefinedKeys(p) == {}
    ensures InOrder(Obj([]), Obj(p))
  {
    assert forall i :: 0 <= i < |p| && p[i].value.Some? ==> p[i].key in DefinedKeys(p);
  }

  lemma ObjectTextRead(p: seq<Property>, r: Text)
    requires Good(Obj(p))
    ensures PrintedKeys(p) == [] ==> ReadValue(Print(Obj(p)) + r) == Got(Obj([]), r)
    ensures PrintedKeys(p) != [] ==>
              var read := ReadMembers(Join(Parts(p, PrintedKeys(p)), COMMA) + ([125] + r));
              ReadValue(Print(Obj(p)) + r) == if read.Got? then Got(Obj(read.value), read.rest) else Malformed
  {
    var ks := PrintedKeys(p);
    var close := [125] + r;
    ObjectText(p, r);
    PrintedKeysSpec(p);
    MembersHead(p, ks, close);
    Behind(123, Join(Parts(p, ks), COMMA) + close);
    Behind(125, r);
  }

  /** q lists the values of p under these keys, each in order. */
  ghost predicate Lists(q: seq<Property>, p: seq<Property>, ks: seq<Text>)
    requires AllDefined(p, ks)
  {
    && |q| == |ks|
    && forall i :: 0 <= i < |ks| ==> q[i].key == ks[i] && q[i].value.Some? && InOrder(q[i].value.value, ValueOf(p, ks[i]))
  }

  lemma ListedInOrder(q: seq<Property>, p: seq<Property>)
    requires Good(Obj(p)) && AllDefined(p, PrintedKeys(p)) && Lists(q, p, PrintedKeys(p))
    ensures InOrder(Obj(q), Obj(p))
  {
    var ks := PrintedKeys(p);
    PrintedKeysSpec(p);
    forall i, j | 0 <= i < j < |q| ensures KeyOrder.Ascends(q[i].key, q[j].key) {
      KeyOrder.LessAscends(ks[i], ks[j]);
    }
    forall k ensures k in DefinedKeys(q) <==> k in KeyOrder.KeySet(ks) {
      if k in KeyOrder.KeySet(ks) {
        var i :| 0 <= i < |ks| && ks[i] == k;
        assert q[i].key == k;
      }
    }
    forall i, j | 0 <= i < |q| && 0 <= j < |p| && q[i].key == p[j].key && q[i].value.Some? && p[j].value.Some?
      ensures Equiv(q[i].value.value, p[j].value.value)
    {
      FindDistinct(p, j);
      assert InOrder(q[i].value.value, ValueOf(p, ks[i]));
    }
  }

  lemma MemberReadsBack(key: Text, body: Text, w: Json, after: Text)
    requires ReadValue(body) == Got(w, after) && after != []
    ensures var t, member := Quote(key) + ([COLON] + body), Property(key, Some(w));
            && (after[0] == 125 ==> ReadMembers(t) == Got([member], after[1..]))
            && (after[0] == COMMA ==>
                  var more := ReadMembers(after[1..]); more.Got? ==> ReadMembers(t) == Got([member] + more.value, more.rest))
  {
    QuotedReadsBack(key, [COLON] + body);
    Behind(COLON, body);
  }

  lemma ListsMore(member: Property, q: seq<Property>, p: seq<Property>, ks: seq<Text>)
    requires ks != [] && AllDefined(p, ks) && AllDefined(p, ks[1..]) && Lists(q, p, ks[1..])
    requires member.key == ks[0] && member.value.Some? && InOrder(member.value.value, ValueOf(p, ks[0]))
    ensures Lists([member] + q, p, ks)
  {
    var all := [member] + q;
    forall i | 0 < i < |ks|
      ensures all[i].key == ks[i] && all[i].value.Some? && InOrder(all[i].value.value, ValueOf(p, ks[i]))
    {
      assert ks[i] == ks[1..][i - 1] && all[i] == q[i - 1];
    }
  }

  lemma {:induction false} MembersReadBack(p: seq<Property>, ks: seq<Text>, r: Text)
    requires Good(Obj(p)) && ks != [] && AllDefined(p, ks)
    ensures var read := ReadMembers(Join(Parts(p, ks), COMMA) + ([125] + r)); read.Got? && Lists(read.value, p, ks) && read.rest == r
    decreases p, |ks|
  {
    var close := [125] + r;
    var parts := Parts(p, ks);
    MembersHead(p, ks, close);
    PartsLength(p, ks);
    AfterFirstDelimited(parts, close);
    var after, v := AfterFirst(parts, COMMA, close), ValueOf(p, ks[0]);
    PrintReadsBack(v, after);
    var w := ReadValue(Print(v) + after).value;
    MemberReadsBack(ks[0], Print(v) + after, w, after);
    if |ks| == 1 {
      Behind(125, r);
    } else {
      Behind(COMMA, Join(parts[1..], COMMA) + close);
      MembersReadBack(p, ks[1..], r);
      ListsMore(Property(ks[0], Some(w)), ReadMembers(Join(Parts(p, ks[1..]), COMMA) + close).value, p, ks);
    }
  }

  /** A printed number starts like nothing else. */
  lemma NumberHead(n: int, r: Text)
    requires Delimited(r)
    ensures var t := Decimal.PrintInt(n) + r; t != [] && ReadValue(t) == ReadInteger(t)
  {
    Decimal.PrintIntHead(n);
    var t := Decimal.PrintInt(n) + r;
    assert t[0] == Decimal.PrintInt(n)[0];
    PrefixHead(t, Lit("null"));
    PrefixHead(t, Lit("true"));
    PrefixHead(t, Lit("false"));
  }

  lemma PrefixHead(t: Text, prefix: Text)
    requires t != [] && prefix != []
    ensures StartsWith(t, prefix) ==> t[0] == prefix[0]
  {
  }

  lemma ArrayText(items: seq<Json>, r: Text)
    requires forall i :: 0 <= i < |items| ==> Good(items[i])
    ensures items == [] ==> ReadValue(Print(Arr(items)) + r) == Got(Arr([]), r)
    ensures items != [] ==>
              var read := ReadItems(Join(PrintAll(items), COMMA) + ([93] + r));
              ReadValue(Print(Arr(items)) + r) == if read.Got? then Got(Arr(read.value), read.rest) else Malformed
  {
    var close := [93] + r;
    BracketText(Join(PrintAll(items), COMMA), 91, [93], r);
    ItemsHead(items, close);
    Behind(91, Join(PrintAll(items), COMMA) + close);
    Behind(93, r);
  }

  lemma {:induction false} ItemsReadBack(items: seq<Json>, r: Text)
    requires items != [] && forall i :: 0 <= i < |items| ==> Good(items[i])
    ensures var read := ReadItems(Join(PrintAll(items), COMMA) + ([93] + r));
            && read.Got? && |read.value| == |items| && read.rest == r
            && forall i :: 0 <= i < |items| ==> InOrder(read.value[i], items[i])
    decreases items, 0
  {
    var close := [93] + r;
    var parts := PrintAll(items);
    ItemsHead(items, close);
    AfterFirstDelimited(parts, close);
    var after := AfterFirst(parts, COMMA, close);
    PrintReadsBack(items[0], after);
    if |items| == 1 {
      assert close[1..] == r;
    } else {
      assert parts[1..] == PrintAll(items[1..]);
      assert after[1..] == Join(parts[1..], COMMA) + close;
      ItemsReadBack(items[1..], r);
    }
  }

  /** Canonical text is JSON for the value it was made from. */
  lemma CanonicalJsonIsJson(v: Json)
    requires Good(v)
    ensures var read := ReadValue(Print(v)); read.Got? && Equiv(read.value, v) && Ordered(read.value) && read.rest == []
  {
    assert Print(v) + [] == Print(v);
    PrintReadsBack(v, []);
  }
}
