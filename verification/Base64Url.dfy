/** packages/core/src/encoding.ts: base64url (section 5 of RFC 4648) by way of
    the platform's btoa and atob. */
module Base64Url {
  import opened JsText

  type Sextet = v: int | 0 <= v < 64

  const PAD: CodeUnit := 61
  const PLUS: CodeUnit := 43
  const SLASH: CodeUnit := 47
  const UNDERSCORE: CodeUnit := 95

  // ----- The platform functions -----

  /** The base64 alphabet of section 4 of RFC 4648. */
  function Symbol(v: Sextet): CodeUnit {
    if v < 26 then 65 + v
    else if v < 52 then 71 + v
    else if v < 62 then v - 4
    else if v == 62 then PLUS
    else SLASH
  }

  function SymbolValue(c: CodeUnit): Option<Sextet> {
    if 65 <= c <= 90 then Some(c - 65)
    else if 97 <= c <= 122 then Some(c - 71)
    else if 48 <= c <= 57 then Some(c + 4)
    else if c == PLUS then Some(62)
    else if c == SLASH then Some(63)
    else None
  }

  /** Three bytes as four sextets. */
  function Split(x: int, y: int, z: int): seq<Sextet>
    requires 0 <= x < 256 && 0 <= y < 256 && 0 <= z < 256
  {
    [x / 4, x % 4 * 16 + y / 16, y % 16 * 4 + z / 64, z % 64]
  }

  /** Four sextets as three bytes. */
  function Pack(a: int, b: int, c: int, d: int): seq<Byte>
    requires 0 <= a < 64 && 0 <= b < 64 && 0 <= c < 64 && 0 <= d < 64
  {
    [a * 4 + b / 16, b % 16 * 16 + c / 4, c % 4 * 64 + d]
  }

  /** The sextets of a byte string, zero bits filling the last one. */
  function Sextets(bytes: seq<Byte>): seq<Sextet> {
    if |bytes| == 0 then []
    else if |bytes| == 1 then Split(bytes[0], 0, 0)[..2]
    else if |bytes| == 2 then Split(bytes[0], bytes[1], 0)[..3]
    else Split(bytes[0], bytes[1], bytes[2]) + Sextets(bytes[3..])
  }

  /** The bytes of a sextet string; left-over bits are dropped. */
  function Octets(s: seq<Sextet>): seq<Byte> {
    if |s| < 2 then []
    else if |s| == 2 then Pack(s[0], s[1], 0, 0)[..1]
    else if |s| == 3 then Pack(s[0], s[1], s[2], 0)[..2]
    else Pack(s[0], s[1], s[2], s[3]) + Octets(s[4..])
  }

  function Symbols(sextets: seq<Sextet>): Text {
    seq(|sextets|, i requires 0 <= i < |sextets| => Symbol(sextets[i]))
  }

  /** The number of padding characters after `length` symbols. */
  function Missing(length: nat): nat {
    (4 - length % 4) % 4
  }

  function Repeat(c: CodeUnit, n: nat): Text {
    seq(n, _ => c)
  }

  function Btoa(binary: seq<Byte>): Text {
    var symbols := Symbols(Sextets(binary));
    symbols + Repeat(PAD, Missing(|symbols|))
  }

  predicate IsWhitespace(c: CodeUnit) {
    c == 9 || c == 10 || c == 12 || c == 13 || c == 32
  }

  function WithoutWhitespace(t: Text): Text {
    if t == [] then []
    else (if IsWhitespace(t[0]) then [] else [t[0]]) + WithoutWhitespace(t[1..])
  }

  function WithoutPad(t: Text): Text {
    if t != [] && t[|t| - 1] == PAD then t[..|t| - 1] else t
  }

  /** Up to two padding characters come off a text of full groups. */
  function Unpadded(t: Text): Text {
    if |t| % 4 == 0 then WithoutPad(WithoutPad(t)) else t
  }

  predicate AllSymbols(body: Text) {
    forall i :: 0 <= i < |body| ==> SymbolValue(body[i]).Some?
  }

  function AtobSymbols(body: Text): Option<seq<Byte>> {
    if |body| % 4 == 1 || !AllSymbols(body) then None else Some(Octets(Values(body)))
  }

  /** The forgiving decoder of the web platform; None is its InvalidCharacterError. */
  function Atob(t: Text): Option<seq<Byte>> {
    AtobSymbols(Unpadded(WithoutWhitespace(t)))
  }

  function Values(body: Text): seq<Sextet>
    requires AllSymbols(body)
  {
    seq(|body|, i requires 0 <= i < |body| => SymbolValue(body[i]).value)
  }

  function ReplaceAll(t: Text, from: CodeUnit, to: CodeUnit): Text {
    seq(|t|, i requires 0 <= i < |t| => if t[i] == from then to else t[i])
  }

  /** replace(/=+$/, ""). */
  function StripPads(t: Text): Text {
    if t != [] && t[|t| - 1] == PAD then StripPads(t[..|t| - 1]) else t
  }

  // ----- encoding.ts -----

  function Encode(bytes: seq<Byte>): Text {
    StripPads(ReplaceAll(ReplaceAll(Btoa(bytes), PLUS, MINUS), SLASH, UNDERSCORE))
  }

  function Decode(t: Text): Option<seq<Byte>> {
    var base64 := ReplaceAll(ReplaceAll(t, MINUS, PLUS), UNDERSCORE, SLASH);
    Atob(base64 + Repeat(PAD, Missing(|base64|)))
  }

  method BytesToBase64Url(bytes: array<Byte>) returns (text: Text)
    ensures text == Encode(bytes[..])
  {
    var binary: seq<Byte> := [];
    for i := 0 to bytes.Length
      invariant binary == bytes[..i]
    {
      binary := binary + [bytes[i]];
    }
    assert binary == bytes[..];
    text := StripPads(ReplaceAll(ReplaceAll(Btoa(binary), PLUS, MINUS), SLASH, UNDERSCORE));
  }

  /** `ok` is false when atob throws. */
  method Base64UrlToBytes(text: Text) returns (ok: bool, bytes: array<Byte>)
    ensures ok <==> Decode(text).Some?
    ensures ok ==> bytes[..] == Decode(text).value
  {
    var base64 := ReplaceAll(ReplaceAll(text, MINUS, PLUS), UNDERSCORE, SLASH);
    var padded := base64 + Repeat(PAD, Missing(|base64|));
    var decoded := Atob(padded);
    ok := decoded.Some?;
    bytes := CharCodes(if ok then decoded.value else []);
  }

  /** Fills a new array index by index. */
  method CharCodes(binary: seq<Byte>) returns (bytes: array<Byte>)
    ensures bytes[..] == binary
  {
    bytes := new Byte[|binary|];
    for i := 0 to |binary|
      invariant bytes[..i] == binary[..i]
    {
      bytes[i] := binary[i];
    }
  }

  // ----- Sextets and octets undo each other -----

  lemma DivMod(q: int, r: int, k: int)
    requires 0 <= r < k && (k == 4 || k == 16 || k == 64)
    ensures (q * k + r) / k == q && (q * k + r) % k == r
  {
  }

  lemma PackSplit(x: Byte, y: Byte, z: Byte)
    ensures var s := Split(x, y, z); |s| == 4 && Pack(s[0], s[1], s[2], s[3]) == [x, y, z]
  {
    DivMod(x % 4, y / 16, 16);
    DivMod(y % 16, z / 64, 4);
  }

  lemma SplitPack(a: Sextet, b: Sextet, c: Sextet, d: Sextet)
    ensures var p := Pack(a, b, c, d); |p| == 3 && Split(p[0], p[1], p[2]) == [a, b, c, d]
  {
    DivMod(a, b / 16, 4);
    DivMod(b % 16, c / 4, 16);
    DivMod(c % 4, d, 64);
  }

  /** One full group of three bytes, there and back. */
  lemma ByteGroup(bytes: seq<Byte>) returns (group: seq<Sextet>)
    requires |bytes| >= 3
    ensures |group| == 4 && Sextets(bytes) == group + Sextets(bytes[3..])
    ensures Octets(Sextets(bytes)) == bytes[..3] + Octets(Sextets(bytes[3..]))
  {
    group := Split(bytes[0], bytes[1], bytes[2]);
    PackSplit(bytes[0], bytes[1], bytes[2]);
    var s := Sextets(bytes);
    assert s == group + Sextets(bytes[3..]) && s[4..] == Sextets(bytes[3..]);
  }

  lemma {:induction false} OctetsOfSextets(bytes: seq<Byte>)
    ensures Octets(Sextets(bytes)) == bytes
    ensures |Sextets(bytes)| % 4 != 1
    ensures |Sextets(bytes)| == (4 * |bytes| + 2) / 3
  {
    if |bytes| >= 3 {
      OctetsOfSextets(bytes[3..]);
      var group := ByteGroup(bytes);
    }
  }

  /** The sextet strings an encoder produces: no single left-over sextet, and
      zero fill bits. */
  predicate ZeroFilled(sextets: seq<Sextet>) {
    && |sextets| % 4 != 1
    && (|sextets| % 4 == 2 ==> sextets[|sextets| - 1] % 16 == 0)
    && (|sextets| % 4 == 3 ==> sextets[|sextets| - 1] % 4 == 0)
  }

  lemma SextetsStep(group: seq<Byte>, rest: seq<Byte>, s: seq<Sextet>)
    requires |group| == 3 && Split(group[0], group[1], group[2]) == s
    ensures Sextets(group + rest) == s + Sextets(rest)
  {
    assert (group + rest)[3..] == rest;
  }

  lemma PackGroup(s: seq<Sextet>) returns (group: seq<Byte>)
    requires |s| >= 4
    ensures |group| == 3 && Split(group[0], group[1], group[2]) == s[..4]
    ensures Octets(s) == group + Octets(s[4..])
  {
    group := Pack(s[0], s[1], s[2], s[3]);
    SplitPack(s[0], s[1], s[2], s[3]);
  }

  lemma {:induction false} SextetsOfOctets(s: seq<Sextet>)
    requires ZeroFilled(s)
    ensures Sextets(Octets(s)) == s
  {
    if |s| >= 4 {
      SextetsOfOctets(s[4..]);
      var group := PackGroup(s);
      SextetsStep(group, Octets(s[4..]), s[..4]);
    } else if |s| >= 2 {
      ShortGroup(s);
    }
  }

  lemma OneByte(a: Sextet, b: Sextet) returns (x: Byte)
    requires b % 16 == 0
    ensures Octets([a, b]) == [x] && Sextets([x]) == [a, b]
  {
    var ai: int := a;
    x := ai * 4 + b / 16;
    DivMod(a, b / 16, 4);
    assert Split(x, 0, 0)[..2] == [a, b];
  }

  lemma TwoBytes(a: Sextet, b: Sextet, c: Sextet) returns (x: Byte, y: Byte)
    requires c % 4 == 0
    ensures Octets([a, b, c]) == [x, y] && Sextets([x, y]) == [a, b, c]
  {
    var ai: int, bi: int := a, b;
    x, y := ai * 4 + bi / 16, bi % 16 * 16 + c / 4;
    DivMod(a, b / 16, 4);
    DivMod(b % 16, c / 4, 16);
    assert Split(x, y, 0)[..3] == [a, b, c];
  }

  lemma ShortGroup(s: seq<Sextet>)
    requires ZeroFilled(s) && 2 <= |s| <= 3
    ensures Sextets(Octets(s)) == s
  {
    if |s| == 2 {
      var x := OneByte(s[0], s[1]);
      assert s == [s[0], s[1]];
    } else {
      var x, y := TwoBytes(s[0], s[1], s[2]);
      assert s == [s[0], s[1], s[2]];
    }
  }

  lemma {:induction false} SextetsZeroFilled(bytes: seq<Byte>)
    ensures ZeroFilled(Sextets(bytes))
  {
    if |bytes| >= 3 {
      SextetsZeroFilled(bytes[3..]);
      assert Sextets(bytes)[4..] == Sextets(bytes[3..]);
    }
  }

  // ----- Text around the sextets -----

  /** The URL-safe alphabet. */
  predicate IsUrlSafe(c: CodeUnit) {
    65 <= c <= 90 || 97 <= c <= 122 || 48 <= c <= 57 || c == MINUS || c == UNDERSCORE
  }

  function UrlSymbol(v: Sextet): CodeUnit {
    if v == 62 then MINUS else if v == 63 then UNDERSCORE else Symbol(v)
  }

  lemma {:induction false} StripsExactly(body: Text, n: nat)
    requires forall i :: 0 <= i < |body| ==> body[i] != PAD
    ensures StripPads(body + Repeat(PAD, n)) == body
  {
    if n == 0 {
      assert body + Repeat(PAD, n) == body;
    } else {
      var t := body + Repeat(PAD, n);
      assert t[..|t| - 1] == body + Repeat(PAD, n - 1);
      StripsExactly(body, n - 1);
    }
  }

  lemma {:induction false} NoWhitespace(t: Text)
    requires forall i :: 0 <= i < |t| ==> !IsWhitespace(t[i])
    ensures WithoutWhitespace(t) == t
  {
    if t != [] {
      NoWhitespace(t[1..]);
    }
  }

  /** The text is the URL-safe spelling of the sextets, nothing else. */
  lemma EncodeIsUrlSymbols(bytes: seq<Byte>)
    ensures |Encode(bytes)| == |Sextets(bytes)|
    ensures forall i :: 0 <= i < |Sextets(bytes)| ==> Encode(bytes)[i] == UrlSymbol(Sextets(bytes)[i])
  {
    var s := Sextets(bytes);
    var body: Text := seq(|s|, i requires 0 <= i < |s| => UrlSymbol(s[i]));
    var n := Missing(|s|);
    assert ReplaceAll(ReplaceAll(Btoa(bytes), PLUS, MINUS), SLASH, UNDERSCORE) == body + Repeat(PAD, n);
    StripsExactly(body, n);
  }

  lemma SymbolReadable(v: Sextet)
    ensures SymbolValue(Symbol(v)) == Some(v)
    ensures Symbol(v) != PAD && !IsWhitespace(Symbol(v))
  {
  }

  /** What the decoder needs to know about the symbols of a text. */
  ghost predicate Spells(body: Text, s: seq<Sextet>) {
    && |body| == |s|
    && forall i :: 0 <= i < |body| ==> body[i] != PAD && !IsWhitespace(body[i]) && SymbolValue(body[i]) == Some(s[i])
  }

  lemma MissingFillsGroup(length: nat)
    requires length % 4 != 1
    ensures Missing(length) <= 2 && (length + Missing(length)) % 4 == 0
  {
  }

  lemma PaddedIsCompact(body: Text, s: seq<Sextet>)
    requires Spells(body, s) && |s| % 4 != 1
    ensures Unpadded(WithoutWhitespace(body + Repeat(PAD, Missing(|s|)))) == body
  {
    var n := Missing(|s|);
    MissingFillsGroup(|s|);
    NoWhitespace(body + Repeat(PAD, n));
    UnpadTwice(body, n);
  }

  lemma AtobOfPadded(body: Text, s: seq<Sextet>)
    requires Spells(body, s) && |s| % 4 != 1
    ensures Atob(body + Repeat(PAD, Missing(|s|))) == Some(Octets(s))
  {
    PaddedIsCompact(body, s);
    AtobOfSymbols(body, s);
  }

  lemma AtobOfSymbols(body: Text, s: seq<Sextet>)
    requires Spells(body, s) && |s| % 4 != 1
    ensures AtobSymbols(body) == Some(Octets(s))
  {
    assert AllSymbols(body);
    assert Values(body) == s;
  }

  lemma SymbolsSpell(s: seq<Sextet>)
    ensures Spells(Symbols(s), s)
  {
    forall i | 0 <= i < |s|
      ensures SymbolValue(Symbols(s)[i]) == Some(s[i]) && Symbols(s)[i] != PAD && !IsWhitespace(Symbols(s)[i])
    {
      SymbolReadable(s[i]);
    }
  }

  /** Decoding a URL-safe spelling yields the octets of its sextets. */
  lemma DecodeUrlSymbols(t: Text, s: seq<Sextet>)
    requires |t| == |s| && |s| % 4 != 1
    requires forall i :: 0 <= i < |s| ==> t[i] == UrlSymbol(s[i])
    ensures Decode(t) == Some(Octets(s))
  {
    assert ReplaceAll(ReplaceAll(t, MINUS, PLUS), UNDERSCORE, SLASH) == Symbols(s);
    SymbolsSpell(s);
    AtobOfPadded(Symbols(s), s);
  }

  lemma UnpadTwice(body: Text, n: nat)
    requires forall i :: 0 <= i < |body| ==> body[i] != PAD
    requires n <= 2
    ensures WithoutPad(WithoutPad(body + Repeat(PAD, n))) == body
  {
    var t := body + Repeat(PAD, n);
    if n == 0 {
      assert t == body;
    } else if n == 1 {
      assert WithoutPad(t) == body;
    } else {
      assert WithoutPad(t) == body + [PAD];
      assert WithoutPad(body + [PAD]) == body;
    }
  }

  // ----- Main results -----

  lemma RoundTrip(bytes: seq<Byte>)
    ensures Decode(Encode(bytes)) == Some(bytes)
  {
    OctetsOfSextets(bytes);
    EncodeIsUrlSymbols(bytes);
    DecodeUrlSymbols(Encode(bytes), Sextets(bytes));
  }

  /** The decoder restores exactly the padding the encoder stripped, because an
      unpadded length is never 1 mod 4. */
  lemma PaddingRestored(bytes: seq<Byte>)
    ensures |Encode(bytes)| == (4 * |bytes| + 2) / 3 && |Encode(bytes)| % 4 != 1
    ensures |Encode(bytes)| + Missing(|Encode(bytes)|) == |Btoa(bytes)|
    ensures forall i :: 0 <= i < |Encode(bytes)| ==> IsUrlSafe(Encode(bytes)[i])
  {
    OctetsOfSextets(bytes);
    EncodeIsUrlSymbols(bytes);
  }

  function UrlValue(c: CodeUnit): Sextet
    requires IsUrlSafe(c)
  {
    if c == MINUS then 62 else if c == UNDERSCORE then 63 else SymbolValue(c).value
  }

  function UrlValues(t: Text): seq<Sextet>
    requires forall i :: 0 <= i < |t| ==> IsUrlSafe(t[i])
  {
    seq(|t|, i requires 0 <= i < |t| => UrlValue(t[i]))
  }

  /** The canonical spellings: URL-safe, no stray symbol, zero fill bits. */
  predicate IsCanonical(t: Text) {
    (forall i :: 0 <= i < |t| ==> IsUrlSafe(t[i])) && ZeroFilled(UrlValues(t))
  }

  lemma UrlSymbolReadable(v: Sextet)
    ensures IsUrlSafe(UrlSymbol(v)) && UrlValue(UrlSymbol(v)) == v
  {
  }

  lemma EncodeIsCanonical(bytes: seq<Byte>)
    ensures IsCanonical(Encode(bytes))
  {
    var t, s := Encode(bytes), Sextets(bytes);
    EncodeIsUrlSymbols(bytes);
    SextetsZeroFilled(bytes);
    forall i | 0 <= i < |t| ensures IsUrlSafe(t[i]) && UrlValue(t[i]) == s[i] {
      UrlSymbolReadable(s[i]);
    }
    assert UrlValues(t) == s;
  }

  /** The decoder is lenient; a text survives decode-then-encode exactly when it
      is a canonical spelling. */
  lemma ReencodesExactlyCanonical(t: Text)
    ensures (Decode(t).Some? && Encode(Decode(t).value) == t) <==> IsCanonical(t)
  {
    if IsCanonical(t) {
      var s := UrlValues(t);
      DecodeUrlSymbols(t, s);
      SextetsOfOctets(s);
      EncodeIsUrlSymbols(Octets(s));
      assert Encode(Octets(s)) == t;
    }
    if Decode(t).Some? {
      EncodeIsCanonical(Decode(t).value);
    }
  }

  // ----- The same bits -----

  /** The number whose bits are the bits of `front` followed by the bytes, the most
      significant ones first. */
  function NumberOf(front: nat, bytes: seq<Byte>): nat
    decreases |bytes|
  {
    if bytes == [] then front else NumberOf(front * 256 + bytes[0], bytes[1..])
  }

  /** The same for groups of six bits. */
  function NumberOfGroups(front: nat, groups: seq<Sextet>): nat
    decreases |groups|
  {
    if groups == [] then front else NumberOfGroups(front * 64 + groups[0], groups[1..])
  }

  /** The alphabet of section 5 of RFC 4648. */
  function Letter(v: Sextet): CodeUnit {
    if v < 26 then 'A' as int + v
    else if v < 52 then 'a' as int + (v - 26)
    else if v < 62 then '0' as int + (v - 52)
    else if v == 62 then '-' as int
    else '_' as int
  }

  lemma NextGroup(front: nat, v: Sextet, rest: seq<Sextet>)
    ensures NumberOfGroups(front, [v] + rest) == NumberOfGroups(front * 64 + v, rest)
  {
    assert ([v] + rest)[1..] == rest;
  }

  lemma NextByte(front: nat, x: Byte, rest: seq<Byte>)
    ensures NumberOf(front, [x] + rest) == NumberOf(front * 256 + x, rest)
  {
    assert ([x] + rest)[1..] == rest;
  }

  lemma FullGroup(front: nat, s: seq<Sextet>, rest: seq<Sextet>)
    requires |s| == 4
    ensures NumberOfGroups(front, s + rest) == NumberOfGroups((((front * 64 + s[0]) * 64 + s[1]) * 64 + s[2]) * 64 + s[3], rest)
  {
    assert s + rest == [s[0]] + ([s[1]] + ([s[2]] + ([s[3]] + rest)));
    NextGroup(front, s[0], [s[1]] + ([s[2]] + ([s[3]] + rest)));
    NextGroup(front * 64 + s[0], s[1], [s[2]] + ([s[3]] + rest));
    NextGroup((front * 64 + s[0]) * 64 + s[1], s[2], [s[3]] + rest);
    NextGroup(((front * 64 + s[0]) * 64 + s[1]) * 64 + s[2], s[3], rest);
  }

  lemma SameNumber(front: nat, x: Byte, y: Byte, z: Byte)
    ensures (((front * 64 + x / 4) * 64 + (x % 4 * 16 + y / 16)) * 64 + (y % 16 * 4 + z / 64)) * 64 + z % 64 ==
            ((front * 256 + x) * 256 + y) * 256 + z
  {
    assert x == x / 4 * 4 + x % 4 && y == y / 16 * 16 + y % 16 && z == z / 64 * 64 + z % 64;
  }

  lemma FullBytes(front: nat, bytes: seq<Byte>)
    requires |bytes| >= 3
    ensures NumberOf(front, bytes) == NumberOf(((front * 256 + bytes[0]) * 256 + bytes[1]) * 256 + bytes[2], bytes[3..])
  {
    assert bytes == [bytes[0]] + ([bytes[1]] + ([bytes[2]] + bytes[3..]));
    NextByte(front, bytes[0], [bytes[1]] + ([bytes[2]] + bytes[3..]));
    NextByte(front * 256 + bytes[0], bytes[1], [bytes[2]] + bytes[3..]);
    NextByte((front * 256 + bytes[0]) * 256 + bytes[1], bytes[2], bytes[3..]);
  }

  lemma LastByte(front: nat, bytes: seq<Byte>)
    requires |bytes| == 1
    ensures NumberOfGroups(front, Sextets(bytes)) == NumberOf(front, bytes) * 16
  {
    var s := Sextets(bytes);
    assert s == [s[0]] + ([s[1]] + []);
    NextGroup(front, s[0], [s[1]] + []);
    NextGroup(front * 64 + s[0], s[1], []);
    assert bytes == [bytes[0]] + [];
    NextByte(front, bytes[0], []);
    assert bytes[0] == bytes[0] / 4 * 4 + bytes[0] % 4;
  }

  lemma LastBytes(front: nat, bytes: seq<Byte>)
    requires |bytes| == 2
    ensures NumberOfGroups(front, Sextets(bytes)) == NumberOf(front, bytes) * 4
  {
    var s, x, y := Sextets(bytes), bytes[0], bytes[1];
    assert s == [s[0]] + ([s[1]] + ([s[2]] + []));
    NextGroup(front, s[0], [s[1]] + ([s[2]] + []));
    NextGroup(front * 64 + s[0], s[1], [s[2]] + []);
    NextGroup((front * 64 + s[0]) * 64 + s[1], s[2], []);
    assert bytes == [x] + ([y] + []);
    NextByte(front, x, [y] + []);
    NextByte(front * 256 + x, y, []);
    assert x == x / 4 * 4 + x % 4 && y == y / 16 * 16 + y % 16;
  }

  lemma {:induction false} SextetsAreTheBits(front: nat, bytes: seq<Byte>)
    ensures NumberOfGroups(front, Sextets(bytes)) ==
            NumberOf(front, bytes) * (if |bytes| % 3 == 0 then 1 else if |bytes| % 3 == 1 then 16 else 4)
    decreases |bytes|
  {
    if |bytes| >= 3 {
      var x, y, z := bytes[0], bytes[1], bytes[2];
      FullBytes(front, bytes);
      FullGroup(front, Split(x, y, z), Sextets(bytes[3..]));
      SameNumber(front, x, y, z);
      SextetsAreTheBits(((front * 256 + x) * 256 + y) * 256 + z, bytes[3..]);
    } else if |bytes| == 1 {
      LastByte(front, bytes);
    } else if |bytes| == 2 {
      LastBytes(front, bytes);
    }
  }

  /** The text is the bits of the bytes in groups of six, each written as its letter,
      with zero bits after them to fill the last group. */
  lemma EncodesTheBits(bytes: seq<Byte>) returns (groups: seq<Sextet>)
    ensures |Encode(bytes)| == |groups| == (8 * |bytes| + 5) / 6
    ensures forall i :: 0 <= i < |groups| ==> Encode(bytes)[i] == Letter(groups[i])
    ensures NumberOfGroups(0, groups) ==
            NumberOf(0, bytes) * (if |bytes| % 3 == 0 then 1 else if |bytes| % 3 == 1 then 16 else 4)
  {
    groups := Sextets(bytes);
    SextetsAreTheBits(0, bytes);
    EncodeIsUrlSymbols(bytes);
    PaddingRestored(bytes);
  }
}
