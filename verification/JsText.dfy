/** JavaScript strings as sequences of UTF-16 code units, plus the few string
    helpers the packages share. */
module JsText {

  type CodeUnit = c: int | 0 <= c < 0x1_0000

  type Text = seq<CodeUnit>

  type Byte = b: int | 0 <= b < 256

  /** A JavaScript number where it is compared with a count or a ratio. */
  datatype Number = Finite(value: real) | NaN | Infinite(positive: bool)

  datatype Option<+T> = None | Some(value: T)

  const QUOTE: CodeUnit := 34
  const COMMA: CodeUnit := 44
  const MINUS: CodeUnit := 45
  const COLON: CodeUnit := 58
  const BACKSLASH: CodeUnit := 92

  /** The code units of an ASCII literal. */
  function Lit(s: string): (t: Text)
    requires forall i :: 0 <= i < |s| ==> s[i] < '\U{0080}'
    ensures |t| == |s|
    ensures forall i :: 0 <= i < |s| ==> t[i] == s[i] as int
  {
    seq(|s|, i requires 0 <= i < |s| => s[i] as int)
  }

  /** parts.join(separator) for a one-unit separator. */
  function Join(parts: seq<Text>, separator: CodeUnit): Text {
    if |parts| == 0 then []
    else if |parts| == 1 then parts[0]
    else parts[0] + [separator] + Join(parts[1..], separator)
  }

  /** The order of Array.prototype.sort on strings: code unit by code unit. */
  predicate Less(a: Text, b: Text) {
    if b == [] then false
    else if a == [] then true
    else a[0] < b[0] || (a[0] == b[0] && Less(a[1..], b[1..]))
  }

  lemma {:induction false} LessIsTotal(a: Text, b: Text)
    ensures Less(a, b) || a == b || Less(b, a)
  {
    if a == [] || b == [] {
    } else if a[0] == b[0] {
      LessIsTotal(a[1..], b[1..]);
      if a[1..] == b[1..] {
        assert a == [a[0]] + a[1..] == [b[0]] + b[1..] == b;
      }
    }
  }

  lemma {:induction false} LessIsTransitive(a: Text, b: Text, c: Text)
    requires Less(a, b) && Less(b, c)
    ensures Less(a, c)
  {
    if a != [] && a[0] == b[0] == c[0] {
      LessIsTransitive(a[1..], b[1..], c[1..]);
    }
  }

  lemma {:induction false} LessIsIrreflexive(a: Text)
    ensures !Less(a, a)
  {
    if a != [] {
      LessIsIrreflexive(a[1..]);
    }
  }

  /** Where the first part has no colon, the colon tells the parts apart. */
  lemma SplitAtColon(a: Text, m: Text, b: Text, n: Text)
    requires COLON !in a && COLON !in b && a + [COLON] + m == b + [COLON] + n
    ensures a == b && m == n
  {
    var t, u := a + [COLON] + m, b + [COLON] + n;
    assert t[|a|] == COLON && u[|b|] == COLON;
    assert forall i :: 0 <= i < |a| ==> t[i] == a[i] && a[i] in a;
    assert forall i :: 0 <= i < |b| ==> u[i] == b[i] && b[i] in b;
    assert |a| == |b|;
    assert a == t[..|a|] == b && m == t[|a| + 1..] == n;
  }

  lemma SameHeadSameTail(x: Text, y: Text, r: Text, s: Text)
    requires x + r == y + s && |x| == |y|
    ensures x == y && r == s
  {
    assert x == (x + r)[..|x|] && y == (y + s)[..|y|];
    assert r == (x + r)[|x|..] && s == (y + s)[|y|..];
  }

  /** What follows the first part of a joined list that is closed by `close`. */
  function AfterFirst(parts: seq<Text>, separator: CodeUnit, close: Text): Text
    requires parts != []
  {
    if |parts| == 1 then close else [separator] + (Join(parts[1..], separator) + close)
  }

  lemma JoinHead(parts: seq<Text>, separator: CodeUnit, close: Text)
    requires parts != []
    ensures Join(parts, separator) + close == parts[0] + AfterFirst(parts, separator, close)
  {
    if |parts| > 1 {
      var rest := Join(parts[1..], separator);
      Reassociate(parts[0] + [separator], rest, close);
      Reassociate(parts[0], [separator], rest + close);
    }
  }

  lemma Reassociate(a: Text, b: Text, c: Text)
    ensures (a + b) + c == a + (b + c)
  {
  }
}
