/** The full log of recorded payments, never pruned, and sums over parts of it:
    the specification the policy engine is compared with. */
module PaymentLog {
  import opened JsText

  const MINUTE: int := 60_000
  const DAY_MS: int := 86_400_000

  /** The UTC day of a millisecond timestamp. */
  function Day(t: int): int {
    t / DAY_MS
  }

  /** Days are those of 24 hours from the epoch, also before it. */
  lemma DayIs(t: int, day: int)
    ensures Day(t) == day <==> day * 24 * 60 * 60 * 1000 <= t < (day + 1) * 24 * 60 * 60 * 1000
  {
  }

  /** A recorded payment: the day it was booked on and the time it was stamped
      with are two readings of the clock. */
  datatype Payment = Payment(payee: Text, asset: Text, amount: nat, day: int, at: int)

  /** `${payee}:${asset}`. */
  function ServiceKey(payee: Text, asset: Text): Text {
    payee + [COLON] + asset
  }

  datatype Part =
    | OnDay(asset: Text, day: int)
    | OfAsset(asset: Text)
    | UnderKey(key: Text)
    | ToPayee(payee: Text, asset: Text)
    | Window(from: int, to: int)
    | AssetWindow(asset: Text, from: int, to: int)

  predicate Has(part: Part, p: Payment) {
    match part
    case OnDay(asset, day) => p.asset == asset && p.day == day
    case OfAsset(asset) => p.asset == asset
    case UnderKey(key) => ServiceKey(p.payee, p.asset) == key
    case ToPayee(payee, asset) => p.payee == payee && p.asset == asset
    case Window(from, to) => from <= p.at <= to
    case AssetWindow(asset, from, to) => p.asset == asset && from <= p.at <= to
  }

  function Spend(log: seq<Payment>, part: Part): nat {
    if log == [] then 0
    else Spend(log[..|log| - 1], part) + if Has(part, log[|log| - 1]) then log[|log| - 1].amount else 0
  }

  function Count(log: seq<Payment>, part: Part): nat {
    if log == [] then 0
    else Count(log[..|log| - 1], part) + if Has(part, log[|log| - 1]) then 1 else 0
  }

  lemma AppendPayment(log: seq<Payment>, p: Payment, part: Part)
    ensures Spend(log + [p], part) == Spend(log, part) + if Has(part, p) then p.amount else 0
    ensures Count(log + [p], part) == Count(log, part) + if Has(part, p) then 1 else 0
  {
    assert (log + [p])[..|log|] == log;
  }

  /** A larger part has at least the payments of a smaller one. */
  lemma {:induction false} LargerPart(log: seq<Payment>, small: Part, large: Part)
    requires forall i :: 0 <= i < |log| && Has(small, log[i]) ==> Has(large, log[i])
    ensures Spend(log, small) <= Spend(log, large) && Count(log, small) <= Count(log, large)
  {
    if log != [] {
      LargerPart(log[..|log| - 1], small, large);
    }
  }

  lemma SamePart(log: seq<Payment>, a: Part, b: Part)
    requires forall i :: 0 <= i < |log| ==> (Has(a, log[i]) <==> Has(b, log[i]))
    ensures Spend(log, a) == Spend(log, b) && Count(log, a) == Count(log, b)
  {
    LargerPart(log, a, b);
    LargerPart(log, b, a);
  }

  lemma {:induction false} EmptyPart(log: seq<Payment>, part: Part)
    requires forall i :: 0 <= i < |log| ==> !Has(part, log[i])
    ensures Spend(log, part) == 0 && Count(log, part) == 0
  {
    if log != [] {
      EmptyPart(log[..|log| - 1], part);
    }
  }

  /** Payments outside the part at the front of the log do not matter. */
  lemma {:induction false} DropFront(log: seq<Payment>, n: nat, part: Part)
    requires n <= |log|
    requires forall i :: 0 <= i < n ==> !Has(part, log[i])
    ensures Spend(log, part) == Spend(log[n..], part) && Count(log, part) == Count(log[n..], part)
  {
    if n == |log| {
      EmptyPart(log, part);
    } else {
      DropFront(log[..|log| - 1], n, part);
      assert log[n..][..|log| - n - 1] == log[..|log| - 1][n..];
    }
  }

  lemma {:induction false} CountAll(log: seq<Payment>, part: Part)
    requires forall i :: 0 <= i < |log| ==> Has(part, log[i])
    ensures Count(log, part) == |log|
  {
    if log != [] {
      CountAll(log[..|log| - 1], part);
    }
  }

  // ----- The service key -----

  predicate NoColon(t: Text) {
    COLON !in t
  }

  /** Payments to a payee are among those under its key. */
  lemma PayeeUnderKey(log: seq<Payment>, payee: Text, asset: Text)
    ensures Spend(log, ToPayee(payee, asset)) <= Spend(log, UnderKey(ServiceKey(payee, asset)))
  {
    LargerPart(log, ToPayee(payee, asset), UnderKey(ServiceKey(payee, asset)));
  }

  /** The key names its payee and asset when payees have no colon. */
  lemma ServiceKeyUnique(p: Text, a: Text, q: Text, b: Text)
    requires NoColon(p) && NoColon(q) && ServiceKey(p, a) == ServiceKey(q, b)
    ensures p == q && a == b
  {
    SplitAtColon(p, a, q, b);
  }

  /** The service sums are exact when no payee has a colon. */
  lemma KeyIsPayee(log: seq<Payment>, payee: Text, asset: Text)
    requires NoColon(payee) && forall i :: 0 <= i < |log| ==> NoColon(log[i].payee)
    ensures Spend(log, UnderKey(ServiceKey(payee, asset))) == Spend(log, ToPayee(payee, asset))
  {
    forall i | 0 <= i < |log|
      ensures Has(UnderKey(ServiceKey(payee, asset)), log[i]) <==> Has(ToPayee(payee, asset), log[i])
    {
      if ServiceKey(log[i].payee, log[i].asset) == ServiceKey(payee, asset) {
        ServiceKeyUnique(log[i].payee, log[i].asset, payee, asset);
      }
    }
    SamePart(log, UnderKey(ServiceKey(payee, asset)), ToPayee(payee, asset));
  }
}
