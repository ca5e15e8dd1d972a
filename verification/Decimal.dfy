/** Amounts travel as decimal strings: the digit test `/^[0-9]+$/`, BigInt(s)
    and n.toString(). */
module Decimal {
  import opened JsText

  const ZERO: CodeUnit := 48

  predicate IsDigit(c: CodeUnit) {
    48 <= c <= 57
  }

  predicate AllDigits(t: Text) {
    forall i :: 0 <= i < |t| ==> IsDigit(t[i])
  }

  /** The shared amount pattern: one or more ASCII digits. */
  predicate IsAmount(t: Text) {
    t != [] && AllDigits(t)
  }

  /** BigInt(t) for a digit string; leading zeros are allowed. */
  function Value(t: Text): nat
    requires AllDigits(t)
  {
    if t == [] then 0 else Value(t[..|t| - 1]) * 10 + (t[|t| - 1] - ZERO)
  }

  /** n.toString() for a non-negative integer. */
  function Print(n: nat): Text {
    if n < 10 then [ZERO + n] else Print(n / 10) + [ZERO + n % 10]
  }

  /** Number.prototype.toString for an integer of either sign. */
  function PrintInt(n: int): Text {
    if n < 0 then [MINUS] + Print(-n) else Print(n)
  }

  lemma {:induction false} PrintThenParse(n: nat)
    ensures IsAmount(Print(n)) && Value(Print(n)) == n
  {
    if n < 10 {
      assert Print(n)[..0] == [];
    } else {
      PrintThenParse(n / 10);
      assert Print(n)[..|Print(n)| - 1] == Print(n / 10);
    }
  }

  /** Printing is canonical: the printed form of a parsed amount is that amount
      exactly when the amount has no superfluous leading zero. */
  lemma {:induction false} ParseThenPrint(t: Text)
    requires IsAmount(t)
    ensures Print(Value(t)) == t <==> |t| == 1 || t[0] != ZERO
  {
    if |t| == 1 {
      assert t[..0] == [];
    } else {
      var front, last := t[..|t| - 1], t[|t| - 1];
      ParseThenPrint(front);
      assert t == front + [last];
      if t[0] != ZERO {
        ValuePositive(front);
      } else if Value(front) > 0 {
        var p := Print(Value(t));
        assert p == Print(Value(front)) + [last];
        assert p[..|p| - 1] == Print(Value(front));
      }
    }
  }

  lemma {:induction false} ValuePositive(t: Text)
    requires IsAmount(t) && t[0] != ZERO
    ensures Value(t) > 0
  {
    if |t| > 1 {
      ValuePositive(t[..|t| - 1]);
    }
  }

  /** The longest run of digits at the start of a text. */
  function DigitPrefix(t: Text): Text {
    if t == [] || !IsDigit(t[0]) then [] else [t[0]] + DigitPrefix(t[1..])
  }

  /** A run of digits ends where the first non-digit stands, so the run can be
      read back from the text. */
  lemma {:induction false} DigitPrefixOfRun(x: Text, r: Text)
    requires AllDigits(x)
    requires r == [] || !IsDigit(r[0])
    ensures DigitPrefix(x + r) == x
  {
    if x == [] {
      assert x + r == r;
    } else {
      assert (x + r)[1..] == x[1..] + r;
      DigitPrefixOfRun(x[1..], r);
    }
  }

  lemma PrintUnique(m: nat, n: nat, r: Text, s: Text)
    requires Print(m) + r == Print(n) + s
    requires r == [] || !IsDigit(r[0])
    requires s == [] || !IsDigit(s[0])
    ensures m == n && r == s
  {
    PrintThenParse(m);
    PrintThenParse(n);
    DigitPrefixOfRun(Print(m), r);
    DigitPrefixOfRun(Print(n), s);
    SameHeadSameTail(Print(m), Print(n), r, s);
  }

  /** The first unit of a printed integer tells its sign. */
  lemma PrintIntHead(n: int)
    ensures PrintInt(n) != [] && (PrintInt(n)[0] == MINUS <==> n < 0)
    ensures n >= 0 ==> IsDigit(PrintInt(n)[0])
  {
    PrintThenParse(if n < 0 then -n else n);
  }

  lemma SameSign(x: Text, y: Text, r: Text, s: Text)
    requires x != [] && y != [] && x + r == y + s
    ensures x[0] == y[0]
    ensures x[1..] + r == y[1..] + s
  {
    assert (x + r)[0] == x[0] && (y + s)[0] == y[0];
    assert (x + r)[1..] == x[1..] + r && (y + s)[1..] == y[1..] + s;
  }

  lemma PrintIntUnique(m: int, n: int, r: Text, s: Text)
    requires PrintInt(m) + r == PrintInt(n) + s
    requires r == [] || !IsDigit(r[0])
    requires s == [] || !IsDigit(s[0])
    ensures m == n && r == s
  {
    PrintIntHead(m);
    PrintIntHead(n);
    SameSign(PrintInt(m), PrintInt(n), r, s);
    if m < 0 {
      assert PrintInt(m)[1..] == Print(-m) && PrintInt(n)[1..] == Print(-n);
      PrintUnique(-m, -n, r, s);
    } else {
      PrintUnique(m, n, r, s);
    }
  }
}
