/** packages/client/src/index.ts: pay() drives the policy engine, and every run
    of non-overlapping payments keeps within the policy's limits. */
module Client {
  import opened JsText
  import opened PaymentLog
  import opened Policy
  import Decimal

  const X402: Text := [120, 52, 48, 50]   // "x402"

  datatype PayRequest = PayRequest(resource: Text, payTo: Text, amount: Text, asset: Text, model: Option<Text>)

  datatype Router = NoRouter | Routes(model: Text) | RouterThrows

  datatype Verifier = NoVerifier | Accepts | Rejects

  /** One pay call: the request, what the injected parts answer, and the clock
      readings of check and record. */
  datatype PayCall = Pay(request: PayRequest, router: Router, settles: bool, verifier: Verifier,
                          t0: int, t1: int, t2: int, u0: int, u1: int, u2: int)

  datatype PayOutcome =
    | Paid(model: Text)
    | PolicyBlocked(rule: Rule)
    | InvalidOffer
    | RouterFailed
    | SettleFailed
    | ReceiptRejected

  /** decideModel; None when the router throws. */
  function DecideModel(request: PayRequest, router: Router): Option<Text> {
    if request.model.Some? && request.model.value != [] then request.model
    else if router.NoRouter? then Some(X402)
    else if router.Routes? then Some(router.model)
    else None
  }

  function IntentOf(request: PayRequest, model: Text): Intent {
    Intent(request.payTo, request.resource, request.amount, request.asset, model)
  }

  /** The readings of one call do not go back. */
  predicate InOrder(pay: PayCall, clock: int) {
    clock <= pay.t0 <= pay.t1 <= pay.t2 <= pay.u0 <= pay.u1 <= pay.u2
  }

  /** pay() with a policy: the outcome and the log afterwards. */
  function PaySpec(policy: Policy, log: seq<Payment>, pay: PayCall): (PayOutcome, seq<Payment>) {
    var model := DecideModel(pay.request, pay.router);
    if model.None? then (RouterFailed, log)
    else
      var intent := IntentOf(pay.request, model.value);
      match CheckSpec(policy, log, intent, pay.t0, pay.t1, pay.t2)
      case Blocked(rule) => (PolicyBlocked(rule), log)
      case InvalidAmount => (InvalidOffer, log)
      case Allowed =>
        if !pay.settles then (SettleFailed, log)
        else if pay.verifier.Rejects? then (ReceiptRejected, log)
        else (Paid(model.value), RecordSpec(log, intent, pay.u0, pay.u1))
  }

  class TollwayClient {
    const policy: PolicyEngine?

    constructor (policy: PolicyEngine?)
      ensures this.policy == policy
    {
      this.policy := policy;
    }

    /** Check, settle, verify, record, in this order; without a policy every
        payment is allowed and none is recorded. */
    method Pay(pay: PayCall) returns (outcome: PayOutcome)
      requires policy != null ==> policy.Valid() && InOrder(pay, policy.clock)
      modifies policy
      ensures policy != null ==>
        policy.Valid() && policy.clock <= pay.u2 &&
        (outcome, policy.log) == PaySpec(policy.policy, old(policy.log), pay)
      ensures policy == null ==>
        (outcome.Paid? <==> DecideModel(pay.request, pay.router).Some? && pay.settles && !pay.verifier.Rejects?)
    {
      var model := DecideModel(pay.request, pay.router);
      if model.None? {
        return RouterFailed;
      }
      var intent := IntentOf(pay.request, model.value);
      if policy != null {
        var verdict := policy.Check(intent, pay.t0, pay.t1, pay.t2);
        match verdict
        case Blocked(rule) => return PolicyBlocked(rule);
        case InvalidAmount => return InvalidOffer;
        case Allowed =>
      }
      if !pay.settles {
        return SettleFailed;
      }
      if pay.verifier.Rejects? {
        return ReceiptRejected;
      }
      if policy != null {
        var ok := policy.Record(intent, pay.u0, pay.u1, pay.u2);
      }
      return Paid(model.value);
    }
  }

  // ----- The limits -----

  /** `spend` stays under a well-formed ceiling. */
  predicate Under(limit: Option<Text>, spend: nat) {
    limit.Some? && Decimal.IsAmount(limit.value) ==> spend <= Decimal.Value(limit.value)
  }

  /** Every UTC day, every asset. */
  ghost predicate DailyKept(policy: Policy, log: seq<Payment>) {
    forall asset, day :: Under(policy.daily, Spend(log, OnDay(asset, day)))
  }

  /** The lifetime of the policy, every asset. */
  ghost predicate TotalKept(policy: Policy, log: seq<Payment>) {
    forall asset :: Under(policy.total, Spend(log, OfAsset(asset)))
  }

  /** Every capped payee, every asset. */
  ghost predicate CapsKept(policy: Policy, log: seq<Payment>) {
    forall payee, asset :: Under(CapOf(policy, payee), Spend(log, ToPayee(payee, asset)))
  }

  function Minute(from: int): Part {
    Window(from, from + 60_000)
  }

  function AssetMinute(asset: Text, from: int): Part {
    AssetWindow(asset, from, from + 60_000)
  }

  /** One payment fewer does not reach the limit. */
  predicate WithinRate(count: nat, limit: Number) {
    count > 0 ==> !Reaches(count - 1, limit)
  }

  /** For a whole number that is the limit itself, and a fraction counts as the
      next whole number. */
  lemma WithinRateIsRoundedUp(count: nat, limit: real)
    requires limit > 0.0
    ensures WithinRate(count, Finite(limit)) <==> count <= -((-limit).Floor)
  {
    var up := -((-limit).Floor);
    assert (up - 1) as real < limit <= up as real;
    if count > up {
      assert (count - 1) as real >= up as real;
    } else {
      assert (count - 1) as real <= (up - 1) as real;
    }
  }

  /** Every closed window of a minute, wherever it starts. */
  ghost predicate RateKept(policy: Policy, log: seq<Payment>) {
    forall from :: policy.requestsPerMinute.Some? ==> WithinRate(Count(log, Minute(from)), policy.requestsPerMinute.value)
  }

  /** Every closed window of a minute, every asset. */
  ghost predicate SpendRateKept(policy: Policy, log: seq<Payment>) {
    forall asset, from :: Under(policy.maxSpendPerMinute, Spend(log, AssetMinute(asset, from)))
  }

  ghost predicate WithinLimits(policy: Policy, log: seq<Payment>) {
    && DailyKept(policy, log) && TotalKept(policy, log) && CapsKept(policy, log)
    && RateKept(policy, log) && SpendRateKept(policy, log)
  }

  // ----- One payment keeps each limit -----

  /** A payment that check allowed at t0, t1, t2 and record booked at u0, u1. */
  ghost predicate Cleared(policy: Policy, log: seq<Payment>, clock: int, pay: PayCall, intent: Intent, p: Payment) {
    && Ordered(log, clock) && InOrder(pay, clock) && Decimal.IsAmount(intent.amount)
    && CheckSpec(policy, log, intent, pay.t0, pay.t1, pay.t2).Allowed?
    && p == Payment(intent.payee, intent.asset, Decimal.Value(intent.amount), Day(pay.u0), pay.u1)
  }

  lemma DayMonotone(a: int, b: int)
    requires a <= b
    ensures Day(a) <= Day(b)
  {
  }

  /** The new spend on the booking day, even when midnight falls between check
      and record. */
  lemma DailyAfterPayment(policy: Policy, log: seq<Payment>, clock: int, pay: PayCall, intent: Intent, p: Payment)
    requires Cleared(policy, log, clock, pay, intent, p) && DailyKept(policy, log)
    ensures DailyKept(policy, log + [p])
  {
    DayMonotone(clock, pay.t0);
    DayMonotone(pay.t0, pay.u0);
    if Day(pay.u0) != Day(pay.t0) {
      forall i | 0 <= i < |log| ensures !Has(OnDay(p.asset, p.day), log[i]) {
        DayMonotone(log[i].at, clock);
      }
      EmptyPart(log, OnDay(p.asset, p.day));
    }
    forall asset, day ensures Under(policy.daily, Spend(log + [p], OnDay(asset, day))) {
      AppendPayment(log, p, OnDay(asset, day));
    }
  }

  lemma TotalAfterPayment(policy: Policy, log: seq<Payment>, clock: int, pay: PayCall, intent: Intent, p: Payment)
    requires Cleared(policy, log, clock, pay, intent, p) && TotalKept(policy, log)
    ensures TotalKept(policy, log + [p])
  {
    forall asset ensures Under(policy.total, Spend(log + [p], OfAsset(asset))) {
      AppendPayment(log, p, OfAsset(asset));
    }
  }

  lemma CapsAfterPayment(policy: Policy, log: seq<Payment>, clock: int, pay: PayCall, intent: Intent, p: Payment)
    requires Cleared(policy, log, clock, pay, intent, p) && CapsKept(policy, log)
    ensures CapsKept(policy, log + [p])
  {
    PayeeUnderKey(log, p.payee, p.asset);
    forall payee, asset ensures Under(CapOf(policy, payee), Spend(log + [p], ToPayee(payee, asset))) {
      AppendPayment(log, p, ToPayee(payee, asset));
    }
  }

  lemma RateAfterPayment(policy: Policy, log: seq<Payment>, clock: int, pay: PayCall, intent: Intent, p: Payment)
    requires Cleared(policy, log, clock, pay, intent, p) && RateKept(policy, log)
    ensures RateKept(policy, log + [p])
  {
    forall from | policy.requestsPerMinute.Some?
      ensures WithinRate(Count(log + [p], Minute(from)), policy.requestsPerMinute.value)
    {
      AppendPayment(log, p, Minute(from));
      if Has(Minute(from), p) {
        LargerPart(log, Minute(from), Window(pay.t1 - MINUTE, pay.t1));
      }
    }
  }

  lemma SpendRateAfterPayment(policy: Policy, log: seq<Payment>, clock: int, pay: PayCall, intent: Intent, p: Payment)
    requires Cleared(policy, log, clock, pay, intent, p) && SpendRateKept(policy, log)
    ensures SpendRateKept(policy, log + [p])
  {
    forall asset, from ensures Under(policy.maxSpendPerMinute, Spend(log + [p], AssetMinute(asset, from))) {
      AppendPayment(log, p, AssetMinute(asset, from));
      if Has(AssetMinute(asset, from), p) {
        LargerPart(log, AssetMinute(asset, from), AssetWindow(asset, pay.t2 - MINUTE, pay.t2));
      }
    }
  }

  lemma PayKeepsOrder(policy: Policy, log: seq<Payment>, clock: int, pay: PayCall)
    requires Ordered(log, clock) && InOrder(pay, clock)
    ensures Ordered(PaySpec(policy, log, pay).1, pay.u2)
  {
    DayMonotone(pay.u0, pay.u1);
  }

  lemma PayKeepsLimits(policy: Policy, log: seq<Payment>, clock: int, pay: PayCall)
    requires Ordered(log, clock) && InOrder(pay, clock) && WithinLimits(policy, log)
    ensures WithinLimits(policy, PaySpec(policy, log, pay).1)
  {
    if PaySpec(policy, log, pay).0.Paid? {
      var intent := IntentOf(pay.request, DecideModel(pay.request, pay.router).value);
      var p := Payment(intent.payee, intent.asset, Decimal.Value(intent.amount), Day(pay.u0), pay.u1);
      DailyAfterPayment(policy, log, clock, pay, intent, p);
      TotalAfterPayment(policy, log, clock, pay, intent, p);
      CapsAfterPayment(policy, log, clock, pay, intent, p);
      RateAfterPayment(policy, log, clock, pay, intent, p);
      SpendRateAfterPayment(policy, log, clock, pay, intent, p);
    }
  }

  // ----- Whole runs -----

  /** Non-overlapping calls on a clock that does not go back. */
  predicate RunInOrder(pays: seq<PayCall>, clock: int) {
    pays == [] || (InOrder(pays[0], clock) && RunInOrder(pays[1..], pays[0].u2))
  }

  /** The log after a run of pay calls. */
  function LogAfter(policy: Policy, log: seq<Payment>, pays: seq<PayCall>): seq<Payment>
    decreases |pays|
  {
    if pays == [] then log else LogAfter(policy, PaySpec(policy, log, pays[0]).1, pays[1..])
  }

  lemma {:induction false} RunKeepsLimits(policy: Policy, log: seq<Payment>, clock: int, pays: seq<PayCall>)
    requires Ordered(log, clock) && RunInOrder(pays, clock) && WithinLimits(policy, log)
    ensures WithinLimits(policy, LogAfter(policy, log, pays))
    decreases |pays|
  {
    if pays != [] {
      PayKeepsOrder(policy, log, clock, pays[0]);
      PayKeepsLimits(policy, log, clock, pays[0]);
      RunKeepsLimits(policy, PaySpec(policy, log, pays[0]).1, pays[0].u2, pays[1..]);
    }
  }

  lemma EmptyLogWithinLimits(policy: Policy)
    ensures WithinLimits(policy, [])
  {
    forall part ensures Spend([], part) == 0 && Count([], part) == 0 {
    }
  }

  /** From an empty log, every run of payments stays within every limit. */
  lemma BudgetsAlwaysHold(policy: Policy, clock: int, pays: seq<PayCall>)
    requires RunInOrder(pays, clock)
    ensures WithinLimits(policy, LogAfter(policy, [], pays))
  {
    EmptyLogWithinLimits(policy);
    RunKeepsLimits(policy, [], clock, pays);
  }

  /** A payment is made by the model the request names, whatever the router says;
      without one by x402 when there is no router, and else by the router's. */
  lemma PaidModelIs(policy: Policy, log: seq<Payment>, pay: PayCall)
    requires PaySpec(policy, log, pay).0.Paid?
    ensures var paid := PaySpec(policy, log, pay).0.model;
            if pay.request.model.Some? && |pay.request.model.value| > 0 then paid == pay.request.model.value
            else if pay.router == NoRouter then paid == Lit("x402")
            else pay.router == Routes(paid)
  {
    assert X402 == Lit("x402");
  }

  /** Whether the request or the router names a model at all. */
  predicate Undecided(pay: PayCall) {
    pay.router.RouterThrows? && (pay.request.model.None? || |pay.request.model.value| == 0)
  }

  /** How a payment ends: it fails in the router exactly when the request leaves the
      model to one that throws; else it is stopped exactly when check stops it, for
      check's reason; else it fails exactly when the settlement fails or the receipt
      is rejected, in this order; and only a payment that ends well is booked. */
  lemma PayEnds(policy: Policy, log: seq<Payment>, pay: PayCall, model: Text)
    requires !Undecided(pay) ==> DecideModel(pay.request, pay.router) == Some(model)
    ensures var (outcome, log') := PaySpec(policy, log, pay);
            var intent := Intent(pay.request.payTo, pay.request.resource, pay.request.amount, pay.request.asset, model);
            var verdict := CheckSpec(policy, log, intent, pay.t0, pay.t1, pay.t2);
            var allowed := !Undecided(pay) && verdict.Allowed?;
            && (outcome == RouterFailed <==> Undecided(pay))
            && (forall rule :: outcome == PolicyBlocked(rule) <==> !Undecided(pay) && verdict == Blocked(rule))
            && (outcome == InvalidOffer <==> !Undecided(pay) && verdict == InvalidAmount)
            && (outcome == SettleFailed <==> allowed && !pay.settles)
            && (outcome == ReceiptRejected <==> allowed && pay.settles && pay.verifier.Rejects?)
            && (outcome == Paid(model) <==> allowed && pay.settles && !pay.verifier.Rejects?)
            && (outcome.Paid? ==> outcome.model == model)
            && |log'| == |log| + (if outcome.Paid? then 1 else 0)
  {
    if !Undecided(pay) && CheckSpec(policy, log, IntentOf(pay.request, model), pay.t0, pay.t1, pay.t2).Allowed? {
      AllowedExactly(policy, log, IntentOf(pay.request, model), pay.t0, pay.t1, pay.t2);
    }
  }

  // ----- What a run records -----

  /** What a settled payment would be booked as. */
  function PaymentOf(pay: PayCall): Payment
    requires Decimal.IsAmount(pay.request.amount)
  {
    Payment(pay.request.payTo, pay.request.asset, Decimal.Value(pay.request.amount), Day(pay.u0), pay.u1)
  }

  /** The payments asked for by the calls of a run that end in Paid. */
  function PaidPayments(policy: Policy, log: seq<Payment>, pays: seq<PayCall>): seq<Payment>
    decreases |pays|
  {
    if pays == [] then []
    else
      (if PaySpec(policy, log, pays[0]).0.Paid? then [PaymentOf(pays[0])] else [])
      + PaidPayments(policy, PaySpec(policy, log, pays[0]).1, pays[1..])
  }

  /** The log of a run is exactly what its successful calls asked for, in order; a
      call that is blocked, does not settle or has its receipt rejected consumes
      nothing. */
  lemma {:induction false} LogIsWhatWasPaid(policy: Policy, log: seq<Payment>, pays: seq<PayCall>)
    ensures LogAfter(policy, log, pays) == log + PaidPayments(policy, log, pays)
    decreases |pays|
  {
    if pays == [] {
      assert log + [] == log;
    } else {
      LogIsWhatWasPaid(policy, PaySpec(policy, log, pays[0]).1, pays[1..]);
    }
  }

  /** The models the successful calls of a run paid by, with the amounts. */
  function PaidModels(policy: Policy, log: seq<Payment>, pays: seq<PayCall>): seq<(Text, nat)>
    decreases |pays|
  {
    if pays == [] then []
    else
      var (outcome, log') := PaySpec(policy, log, pays[0]);
      (if outcome.Paid? then [(outcome.model, PaymentOf(pays[0]).amount)] else []) + PaidModels(policy, log', pays[1..])
  }

  /** No run pays by a disabled model, or below a channel's minimum deposit. */
  lemma {:induction false} PaidModelsAllowed(policy: Policy, log: seq<Payment>, pays: seq<PayCall>, i: nat)
    requires i < |PaidModels(policy, log, pays)|
    ensures ModelAllows(policy, PaidModels(policy, log, pays)[i].0, PaidModels(policy, log, pays)[i].1)
    decreases |pays|
  {
    var (outcome, log') := PaySpec(policy, log, pays[0]);
    if outcome.Paid? {
      AllowedExactly(policy, log, IntentOf(pays[0].request, outcome.model), pays[0].t0, pays[0].t1, pays[0].t2);
      if i > 0 {
        PaidModelsAllowed(policy, log', pays[1..], i - 1);
      }
    } else {
      PaidModelsAllowed(policy, log', pays[1..], i);
    }
  }

  // ----- Where the limits stop -----

  /** The call gets past check and its settler succeeds: money has moved. */
  predicate Settles(policy: Policy, log: seq<Payment>, pay: PayCall) {
    var model := DecideModel(pay.request, pay.router);
    && model.Some? && pay.settles
    && CheckSpec(policy, log, IntentOf(pay.request, model.value), pay.t0, pay.t1, pay.t2).Allowed?
  }

  /** A settled payment is booked exactly when its receipt is not rejected, and
      nothing else is ever booked. */
  lemma BookedExactly(policy: Policy, log: seq<Payment>, pay: PayCall)
    ensures PaySpec(policy, log, pay).1 != log <==> Settles(policy, log, pay) && !pay.verifier.Rejects?
    ensures |PaySpec(policy, log, pay).1| == |log| + if Settles(policy, log, pay) && !pay.verifier.Rejects? then 1 else 0
  {
  }

  /** Everything that settled in a run, booked or not. */
  function SettledAfter(policy: Policy, log: seq<Payment>, settled: seq<Payment>, pays: seq<PayCall>): seq<Payment>
    decreases |pays|
  {
    if pays == [] then settled
    else
      var more := if Settles(policy, log, pays[0]) then settled + [PaymentOf(pays[0])] else settled;
      SettledAfter(policy, PaySpec(policy, log, pays[0]).1, more, pays[1..])
  }

  /** How many payments of a run settled and had their receipt rejected. */
  function RejectedSettlements(policy: Policy, log: seq<Payment>, pays: seq<PayCall>): nat
    decreases |pays|
  {
    if pays == [] then 0
    else
      (if Settles(policy, log, pays[0]) && pays[0].verifier.Rejects? then 1 else 0)
      + RejectedSettlements(policy, PaySpec(policy, log, pays[0]).1, pays[1..])
  }

  lemma {:induction false} SettledCount(policy: Policy, log: seq<Payment>, settled: seq<Payment>, pays: seq<PayCall>)
    ensures |SettledAfter(policy, log, settled, pays)| - |settled| ==
              |LogAfter(policy, log, pays)| - |log| + RejectedSettlements(policy, log, pays)
    decreases |pays|
  {
    if pays != [] {
      var more := if Settles(policy, log, pays[0]) then settled + [PaymentOf(pays[0])] else settled;
      BookedExactly(policy, log, pays[0]);
      SettledCount(policy, PaySpec(policy, log, pays[0]).1, more, pays[1..]);
    }
  }

  lemma {:induction false} BookedAllSettled(policy: Policy, log: seq<Payment>, pays: seq<PayCall>)
    requires RejectedSettlements(policy, log, pays) == 0
    ensures SettledAfter(policy, log, log, pays) == LogAfter(policy, log, pays)
    decreases |pays|
  {
    if pays != [] {
      BookedAllSettled(policy, PaySpec(policy, log, pays[0]).1, pays[1..]);
    }
  }

  /** The engine's log is what settled exactly when no settled receipt was
      rejected; then the limits hold of what settled, too. */
  lemma SettledIsBooked(policy: Policy, clock: int, pays: seq<PayCall>)
    requires RunInOrder(pays, clock)
    ensures SettledAfter(policy, [], [], pays) == LogAfter(policy, [], pays) <==> RejectedSettlements(policy, [], pays) == 0
    ensures RejectedSettlements(policy, [], pays) == 0 ==> WithinLimits(policy, SettledAfter(policy, [], [], pays))
  {
    SettledCount(policy, [], [], pays);
    BudgetsAlwaysHold(policy, clock, pays);
    if RejectedSettlements(policy, [], pays) == 0 {
      BookedAllSettled(policy, [], pays);
    }
  }

  function Copies<T>(x: T, n: nat): seq<T> {
    if n == 0 then [] else [x] + Copies(x, n - 1)
  }

  lemma {:induction false} CopiesSpend(log: seq<Payment>, p: Payment, n: nat, part: Part)
    requires Has(part, p)
    ensures Spend(log + Copies(p, n), part) == Spend(log, part) + n * p.amount
    decreases n
  {
    if n == 0 {
      assert log + Copies(p, 0) == log;
    } else {
      assert log + Copies(p, n) == (log + [p]) + Copies(p, n - 1);
      CopiesSpend(log + [p], p, n - 1, part);
      AppendPayment(log, p, part);
      assert n * p.amount == (n - 1) * p.amount + p.amount;
    }
  }

  lemma {:induction false} CopiesInOrder(pay: PayCall, n: nat, clock: int)
    requires InOrder(pay, clock) && pay.u2 == pay.t0
    ensures RunInOrder(Copies(pay, n), clock)
    decreases n
  {
    if n > 0 {
      CopiesInOrder(pay, n - 1, pay.u2);
    }
  }

  lemma {:induction false} CopiesSettle(policy: Policy, log: seq<Payment>, settled: seq<Payment>, pay: PayCall, n: nat)
    requires Settles(policy, log, pay) && pay.verifier.Rejects?
    ensures SettledAfter(policy, log, settled, Copies(pay, n)) == settled + Copies(PaymentOf(pay), n)
    ensures LogAfter(policy, log, Copies(pay, n)) == log
    decreases n
  {
    if n == 0 {
      assert settled + Copies(PaymentOf(pay), 0) == settled;
    } else {
      CopiesSettle(policy, log, settled + [PaymentOf(pay)], pay, n - 1);
      assert settled + [PaymentOf(pay)] + Copies(PaymentOf(pay), n - 1) == settled + Copies(PaymentOf(pay), n);
    }
  }

  /** A payment that settles and whose receipt is rejected can be made any number
      of times: the log stays as it was and the settled spend has no bound,
      whatever the policy. */
  lemma RejectedReceiptsEscapeEveryLimit(policy: Policy, log: seq<Payment>, pay: PayCall, clock: int, n: nat)
    requires Settles(policy, log, pay) && pay.verifier.Rejects? && InOrder(pay, clock) && pay.u2 == pay.t0
    ensures RunInOrder(Copies(pay, n), clock) && LogAfter(policy, log, Copies(pay, n)) == log
    ensures Spend(SettledAfter(policy, log, log, Copies(pay, n)), OfAsset(pay.request.asset)) ==
              Spend(log, OfAsset(pay.request.asset)) + n * Decimal.Value(pay.request.amount)
  {
    CopiesInOrder(pay, n, clock);
    CopiesSettle(policy, log, log, pay, n);
    CopiesSpend(log, PaymentOf(pay), n, OfAsset(pay.request.asset));
  }
}
