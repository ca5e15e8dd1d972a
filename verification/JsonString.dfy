/** JSON.stringify on a string: the escaping of section 7 of RFC 8259, with
    lone surrogates written as escapes. */
module JsonString {
  import opened JsText

  predicate IsHigh(c: CodeUnit) { 0xD800 <= c < 0xDC00 }

  predicate IsLow(c: CodeUnit) { 0xDC00 <= c < 0xE000 }

  /** Whether the text starts with a surrogate pair. */
  predicate StartsWithPair(t: Text) {
    |t| >= 2 && IsHigh(t[0]) && IsLow(t[1])
  }

  function HexDigit(d: int): CodeUnit
    requires 0 <= d < 16
  {
    if d < 10 then 48 + d else 87 + d
  }

  function HexValue(c: CodeUnit): int {
    if c < 58 then c - 48 else c - 87
  }

  function UnicodeEscape(c: CodeUnit): Text {
    [BACKSLASH, 117, HexDigit(c / 4096), HexDigit(c / 256 % 16), HexDigit(c / 16 % 16), HexDigit(c % 16)]
  }

  /** The letter of a two-unit escape, for the seven units that have one. */
  function ShortEscape(c: CodeUnit): Option<CodeUnit> {
    if c == QUOTE || c == BACKSLASH then Some(c)
    else if c == 8 then Some(98)
    else if c == 9 then Some(116)
    else if c == 10 then Some(110)
    else if c == 12 then Some(102)
    else if c == 13 then Some(114)
    else None
  }

  /** How many units the next token stands for. */
  function Taken(t: Text): nat {
    if StartsWithPair(t) then 2 else 1
  }

  /** The printed form of the next character. */
  function Token(t: Text): Text
    requires t != []
  {
    var c := t[0];
    if StartsWithPair(t) then t[..2]
    else if ShortEscape(c).Some? then [BACKSLASH, ShortEscape(c).value]
    else if c < 32 || IsHigh(c) || IsLow(c) then UnicodeEscape(c)
    else [c]
  }

  function Escape(t: Text): Text
    decreases |t|
  {
    if t == [] then [] else Token(t) + Escape(t[Taken(t)..])
  }

  /** JSON.stringify(t). */
  function Quote(t: Text): Text {
    [QUOTE] + Escape(t) + [QUOTE]
  }

  // Reading back: the first units of a token fix its length, and the token
  // fixes the character.

  function TokenLength(t: Text): nat {
    if |t| >= 2 && t[0] == BACKSLASH then if t[1] == 117 then 6 else 2
    else if t != [] && IsHigh(t[0]) then 2
    else 1
  }

  function Untoken(t: Text): Text
    requires t != []
  {
    if |t| == 6 then
      var c := HexValue(t[2]) * 4096 + HexValue(t[3]) * 256 + HexValue(t[4]) * 16 + HexValue(t[5]);
      if 0 <= c < 0x1_0000 then [c] else []
    else if |t| == 2 && t[0] == BACKSLASH then
      if t[1] == 98 then [8]
      else if t[1] == 116 then [9]
      else if t[1] == 110 then [10]
      else if t[1] == 102 then [12]
      else if t[1] == 114 then [13]
      else [t[1]]
    else t
  }

  lemma HexDigitsRecombine(c: CodeUnit)
    ensures c / 4096 * 4096 + c / 256 % 16 * 256 + c / 16 % 16 * 16 + c % 16 == c
  {
    NestedDivision(c);
    var a := c / 16;
    var b := a / 16;
    assert c == 16 * a + c % 16;
    assert a == 16 * b + a % 16;
    assert b == 16 * (b / 16) + b % 16;
  }

  lemma NestedDivision(n: nat)
    ensures n / 256 == n / 16 / 16 && n / 4096 == n / 16 / 16 / 16
  {
    var a := n / 16;
    var b := a / 16;
    assert n == 256 * b + (16 * (a % 16) + n % 16);
    assert n == 4096 * (b / 16) + (256 * (b % 16) + 16 * (a % 16) + n % 16);
  }

  lemma TokenLengthReadable(t: Text, rest: Text)
    requires t != []
    ensures Token(t) != [] && Token(t)[0] != QUOTE
    ensures TokenLength(Token(t) + rest) == |Token(t)|
  {
    assert (Token(t) + rest)[0] == Token(t)[0];
    assert |Token(t)| > 1 ==> (Token(t) + rest)[1] == Token(t)[1];
  }

  lemma UnicodeEscapeReadable(c: CodeUnit)
    ensures Untoken(UnicodeEscape(c)) == [c]
  {
    HexDigitsRecombine(c);
  }

  lemma TokenReadable(t: Text)
    requires t != []
    ensures Untoken(Token(t)) == t[..Taken(t)]
  {
    UnicodeEscapeReadable(t[0]);
  }

  /** Splits one token off escaped text that is followed by `rest`. */
  lemma FirstToken(t: Text, rest: Text) returns (token: Text, t': Text)
    requires t != []
    ensures |t'| < |t| && token != [] && token[0] != QUOTE
    ensures Escape(t) + rest == token + (Escape(t') + rest)
    ensures TokenLength(Escape(t) + rest) == |token|
    ensures t == Untoken(token) + t'
  {
    token, t' := Token(t), t[Taken(t)..];
    assert Escape(t) + rest == token + (Escape(t') + rest);
    TokenLengthReadable(t, Escape(t') + rest);
    TokenReadable(t);
  }

  lemma EscapeHead(t: Text, rest: Text)
    requires rest != [] && rest[0] == QUOTE
    ensures t == [] ==> Escape(t) + rest == rest
    ensures t == [] <==> (Escape(t) + rest)[0] == QUOTE
  {
    if t == [] {
      assert Escape(t) + rest == rest;
    } else {
      var token, t' := FirstToken(t, rest);
    }
  }

  /** Escaped text up to its closing quote determines the text and what follows. */
  lemma {:induction false} EscapeUnique(a: Text, b: Text, r: Text, s: Text)
    requires Escape(a) + ([QUOTE] + r) == Escape(b) + ([QUOTE] + s)
    ensures a == b && r == s
    decreases |a|
  {
    var ra, rb := [QUOTE] + r, [QUOTE] + s;
    EscapeHead(a, ra);
    EscapeHead(b, rb);
    if a == [] {
      SameHeadSameTail([QUOTE], [QUOTE], r, s);
    } else {
      var x, a' := FirstToken(a, ra);
      var y, b' := FirstToken(b, rb);
      SameHeadSameTail(x, y, Escape(a') + ra, Escape(b') + rb);
      EscapeUnique(a', b', r, s);
    }
  }

  lemma QuoteUnique(a: Text, b: Text, r: Text, s: Text)
    requires Quote(a) + r == Quote(b) + s
    ensures a == b && r == s
  {
    assert Quote(a) + r == [QUOTE] + (Escape(a) + ([QUOTE] + r));
    assert Quote(b) + s == [QUOTE] + (Escape(b) + ([QUOTE] + s));
    SameHeadSameTail([QUOTE], [QUOTE], Escape(a) + ([QUOTE] + r), Escape(b) + ([QUOTE] + s));
    EscapeUnique(a, b, r, s);
  }
}
