/** Overlapping pay calls: the check and the record of a call are separated by its
    settlement, and other calls step in between. How far over a limit overlap can
    go, and when it goes over. */
module ClientOverlap {
  import opened JsText
  import opened PaymentLog
  import opened Policy
  import opened Client
  import Decimal

  /** A step of some call: its check, its record, or its end without one. A
      flight is a payment that passed its check and has not ended. */
  datatype Step =
    | Checks(intent: Intent, t0: int, t1: int, t2: int)
    | Records(flight: nat, u0: int, u1: int, u2: int)
    | Drops(flight: nat)

  datatype State = State(log: seq<Payment>, clock: int, flights: seq<Intent>)

  predicate Enabled(s: State, step: Step) {
    match step
    case Checks(_, t0, t1, t2) => s.clock <= t0 <= t1 <= t2
    case Records(i, u0, u1, u2) => i < |s.flights| && s.clock <= u0 <= u1 <= u2
    case Drops(i) => i < |s.flights|
  }

  function Without(flights: seq<Intent>, i: nat): seq<Intent>
    requires i < |flights|
  {
    flights[..i] + flights[i + 1..]
  }

  predicate Passes(policy: Policy, s: State, step: Step) {
    step.Checks? && CheckSpec(policy, s.log, step.intent, step.t0, step.t1, step.t2).Allowed?
  }

  function Take(policy: Policy, s: State, step: Step): State
    requires Enabled(s, step)
  {
    match step
    case Checks(intent, _, _, t2) =>
      State(s.log, t2, if Passes(policy, s, step) then s.flights + [intent] else s.flights)
    case Records(i, u0, u1, u2) => State(RecordSpec(s.log, s.flights[i], u0, u1), u2, Without(s.flights, i))
    case Drops(i) => s.(flights := Without(s.flights, i))
  }

  predicate IsRun(policy: Policy, s: State, steps: seq<Step>)
    decreases |steps|
  {
    steps == [] || (Enabled(s, steps[0]) && IsRun(policy, Take(policy, s, steps[0]), steps[1..]))
  }

  function Final(policy: Policy, s: State, steps: seq<Step>): State
    requires IsRun(policy, s, steps)
    decreases |steps|
  {
    if steps == [] then s else Final(policy, Take(policy, s, steps[0]), steps[1..])
  }

  /** A pay call that nothing overlaps is its check and then its record, or the
      end of its flight. */
  lemma PayIsCheckThenRecord(policy: Policy, log: seq<Payment>, clock: int, pay: PayCall)
    requires InOrder(pay, clock) && DecideModel(pay.request, pay.router).Some?
    ensures var check := Checks(IntentOf(pay.request, DecideModel(pay.request, pay.router).value), pay.t0, pay.t1, pay.t2);
            var s := State(log, clock, []);
            && Enabled(s, check)
            && (!Passes(policy, s, check) ==> Take(policy, s, check).log == PaySpec(policy, log, pay).1)
            && (Passes(policy, s, check) ==>
                  var end := if PaySpec(policy, log, pay).0.Paid? then Records(0, pay.u0, pay.u1, pay.u2) else Drops(0);
                  Enabled(Take(policy, s, check), end) &&
                  Take(policy, Take(policy, s, check), end).log == PaySpec(policy, log, pay).1 &&
                  Take(policy, Take(policy, s, check), end).flights == [])
  {
    var intent := IntentOf(pay.request, DecideModel(pay.request, pay.router).value);
    assert [] + [intent] == [intent] && Without([intent], 0) == [];
  }

  // ----- Meters: what each limit measures, at a time -----

  datatype Meter =
    | Daily(asset: Text)
    | Total(asset: Text)
    | Service(payee: Text, asset: Text)
    | Rate
    | SpendRate(asset: Text)

  /** The part of the log a limit looks at: today, everything, or the last
      minute. */
  function PartAt(meter: Meter, clock: int): Part {
    match meter
    case Daily(asset) => OnDay(asset, Day(clock))
    case Total(asset) => OfAsset(asset)
    case Service(payee, asset) => ToPayee(payee, asset)
    case Rate => Window(clock - MINUTE, clock)
    case SpendRate(asset) => AssetWindow(asset, clock - MINUTE, clock)
  }

  function Gauge(log: seq<Payment>, meter: Meter, clock: int): nat {
    if meter.Rate? then Count(log, PartAt(meter, clock)) else Spend(log, PartAt(meter, clock))
  }

  predicate Concerns(meter: Meter, payee: Text, asset: Text) {
    match meter
    case Rate => true
    case Service(p, a) => payee == p && asset == a
    case Daily(a) => asset == a
    case Total(a) => asset == a
    case SpendRate(a) => asset == a
  }

  function Amount(intent: Intent): nat {
    if Decimal.IsAmount(intent.amount) then Decimal.Value(intent.amount) else 0
  }

  /** What a payment adds to a meter. */
  function Load(meter: Meter, intent: Intent): nat {
    if !Concerns(meter, intent.payee, intent.asset) then 0
    else if meter.Rate? then 1
    else Amount(intent)
  }

  function InFlight(flights: seq<Intent>, meter: Meter): nat {
    if flights == [] then 0 else InFlight(flights[..|flights| - 1], meter) + Load(meter, flights[|flights| - 1])
  }

  function CeilingOf(policy: Policy, meter: Meter): Option<Text> {
    match meter
    case Daily(_) => policy.daily
    case Total(_) => policy.total
    case Service(payee, _) => CapOf(policy, payee)
    case Rate => None
    case SpendRate(_) => policy.maxSpendPerMinute
  }

  /** A reading keeps a limit. */
  predicate Keeps(policy: Policy, meter: Meter, reading: nat) {
    if meter.Rate? then policy.requestsPerMinute.Some? ==> WithinRate(reading, policy.requestsPerMinute.value)
    else
      var limit := CeilingOf(policy, meter);
      limit.Some? && Decimal.IsAmount(limit.value) ==> reading <= Decimal.Value(limit.value)
  }

  /** The reading is over the limit by `margin` at most. */
  predicate Over(policy: Policy, meter: Meter, reading: nat, margin: nat) {
    reading <= margin || Keeps(policy, meter, reading - margin)
  }

  // ----- The bound over every interleaving -----

  lemma {:induction false} InFlightConcat(a: seq<Intent>, b: seq<Intent>, meter: Meter)
    ensures InFlight(a + b, meter) == InFlight(a, meter) + InFlight(b, meter)
    decreases |b|
  {
    if b == [] {
      assert a + b == a;
    } else {
      InFlightConcat(a, b[..|b| - 1], meter);
      assert (a + b)[..|a + b| - 1] == a + b[..|b| - 1];
    }
  }

  lemma OneInFlight(intent: Intent, meter: Meter)
    ensures InFlight([intent], meter) == Load(meter, intent)
  {
    assert [intent][..0] == [];
  }

  lemma WithoutOne(flights: seq<Intent>, i: nat, meter: Meter)
    requires i < |flights|
    ensures InFlight(Without(flights, i), meter) + Load(meter, flights[i]) == InFlight(flights, meter)
  {
    assert flights == flights[..i] + [flights[i]] + flights[i + 1..];
    InFlightConcat(flights[..i], flights[i + 1..], meter);
    InFlightConcat(flights[..i], [flights[i]], meter);
    InFlightConcat(flights[..i] + [flights[i]], flights[i + 1..], meter);
    OneInFlight(flights[i], meter);
  }

  /** Time alone never raises a meter. */
  lemma MeterFades(log: seq<Payment>, meter: Meter, clock: int, later: int)
    requires Ordered(log, clock) && clock <= later
    ensures Gauge(log, meter, later) <= Gauge(log, meter, clock)
  {
    DayMonotone(clock, later);
    forall i | 0 <= i < |log| && Has(PartAt(meter, later), log[i]) ensures Has(PartAt(meter, clock), log[i]) {
      DayMonotone(log[i].at, clock);
    }
    LargerPart(log, PartAt(meter, later), PartAt(meter, clock));
  }

  lemma RecordRaises(log: seq<Payment>, meter: Meter, clock: int, intent: Intent, u0: int, u1: int, u2: int)
    requires Ordered(log, clock) && clock <= u0 <= u1 <= u2
    ensures Gauge(RecordSpec(log, intent, u0, u1), meter, u2) <= Gauge(log, meter, clock) + Load(meter, intent)
    ensures Ordered(RecordSpec(log, intent, u0, u1), u2)
  {
    MeterFades(log, meter, clock, u2);
    DayMonotone(u0, u1);
    if Decimal.IsAmount(intent.amount) {
      AppendPayment(log, Payment(intent.payee, intent.asset, Decimal.Value(intent.amount), Day(u0), u1), PartAt(meter, u2));
    }
  }

  /** A check that passes leaves room for the amount it checked. */
  lemma PassingCheck(policy: Policy, s: State, step: Step, meter: Meter)
    requires Enabled(s, step) && Passes(policy, s, step) && Ordered(s.log, s.clock)
    requires Concerns(meter, step.intent.payee, step.intent.asset)
    ensures Keeps(policy, meter, Gauge(s.log, meter, step.t2) + Load(meter, step.intent))
  {
    var intent := step.intent;
    AllowedExactly(policy, s.log, intent, step.t0, step.t1, step.t2);
    MeterFades(s.log, meter, s.clock, step.t0);
    assert Ordered(s.log, step.t0) && Ordered(s.log, step.t1);
    MeterFades(s.log, meter, step.t0, step.t1);
    MeterFades(s.log, meter, step.t0, step.t2);
    MeterFades(s.log, meter, step.t1, step.t2);
    PayeeUnderKey(s.log, intent.payee, intent.asset);
  }

  /** What was in flight at the last check that passed and concerns the meter. */
  function NextMargin(policy: Policy, s: State, step: Step, meter: Meter, margin: nat): nat {
    if Passes(policy, s, step) && Concerns(meter, step.intent.payee, step.intent.asset) then InFlight(s.flights, meter) else margin
  }

  /** Spent and in flight together are over the limit by the margin at most. */
  ghost predicate Bounded(policy: Policy, s: State, meter: Meter, margin: nat) {
    Ordered(s.log, s.clock) && Over(policy, meter, Gauge(s.log, meter, s.clock) + InFlight(s.flights, meter), margin)
  }

  lemma OverLess(policy: Policy, meter: Meter, reading: nat, less: nat, margin: nat)
    requires Over(policy, meter, reading, margin) && less <= reading
    ensures Over(policy, meter, less, margin)
  {
  }

  lemma CheckKeepsBound(policy: Policy, s: State, step: Step, meter: Meter, margin: nat)
    requires Enabled(s, step) && step.Checks? && Bounded(policy, s, meter, margin)
    ensures Bounded(policy, Take(policy, s, step), meter, NextMargin(policy, s, step, meter, margin))
  {
    var after, intent := Take(policy, s, step), step.intent;
    MeterFades(s.log, meter, s.clock, step.t2);
    InFlightConcat(s.flights, [intent], meter);
    OneInFlight(intent, meter);
    if Passes(policy, s, step) && Concerns(meter, intent.payee, intent.asset) {
      PassingCheck(policy, s, step, meter);
    } else {
      OverLess(policy, meter, Gauge(s.log, meter, s.clock) + InFlight(s.flights, meter),
               Gauge(after.log, meter, after.clock) + InFlight(after.flights, meter), margin);
    }
  }

  lemma EndingKeepsBound(policy: Policy, s: State, step: Step, meter: Meter, margin: nat)
    requires Enabled(s, step) && !step.Checks? && Bounded(policy, s, meter, margin)
    ensures Bounded(policy, Take(policy, s, step), meter, margin)
  {
    var after := Take(policy, s, step);
    WithoutOne(s.flights, step.flight, meter);
    if step.Records? {
      RecordRaises(s.log, meter, s.clock, s.flights[step.flight], step.u0, step.u1, step.u2);
    }
    OverLess(policy, meter, Gauge(s.log, meter, s.clock) + InFlight(s.flights, meter),
             Gauge(after.log, meter, after.clock) + InFlight(after.flights, meter), margin);
  }

  lemma TakeKeepsBound(policy: Policy, s: State, step: Step, meter: Meter, margin: nat)
    requires Enabled(s, step) && Bounded(policy, s, meter, margin)
    ensures Bounded(policy, Take(policy, s, step), meter, NextMargin(policy, s, step, meter, margin))
  {
    if step.Checks? {
      CheckKeepsBound(policy, s, step, meter, margin);
    } else {
      EndingKeepsBound(policy, s, step, meter, margin);
    }
  }

  // ----- Every day and every window -----

  /** The payment a record books. */
  function BookedBy(s: State, step: Step): Payment
    requires Enabled(s, step) && step.Records? && Decimal.IsAmount(s.flights[step.flight].amount)
  {
    var intent := s.flights[step.flight];
    Payment(intent.payee, intent.asset, Decimal.Value(intent.amount), Day(step.u0), step.u1)
  }

  /** The step books a payment that the meter, read at time t, measures. */
  predicate LandsAt(s: State, step: Step, meter: Meter, t: int)
    requires Enabled(s, step)
  {
    step.Records? && Decimal.IsAmount(s.flights[step.flight].amount) && Has(PartAt(meter, t), BookedBy(s, step))
  }

  /** A meter read at another time shows no more than it did when its last payment
      was booked. */
  lemma EarlierPart(log: seq<Payment>, meter: Meter, clock: int, p: Payment, t: int)
    requires Ordered(log, clock) && clock <= p.at && Has(PartAt(meter, t), p) && Day(clock) <= p.day <= Day(p.at)
    ensures Gauge(log, meter, t) <= Gauge(log, meter, clock)
    ensures meter.Rate? ==> Gauge(log + [p], meter, t) == Gauge(log, meter, t) + 1
    ensures !meter.Rate? ==> Gauge(log + [p], meter, t) == Gauge(log, meter, t) + p.amount
  {
    forall i | 0 <= i < |log| && Has(PartAt(meter, t), log[i]) ensures Has(PartAt(meter, clock), log[i]) {
      DayMonotone(log[i].at, clock);
    }
    LargerPart(log, PartAt(meter, t), PartAt(meter, clock));
    AppendPayment(log, p, PartAt(meter, t));
  }

  lemma RecordLands(s: State, step: Step, meter: Meter, t: int)
    requires Enabled(s, step) && Ordered(s.log, s.clock) && LandsAt(s, step, meter, t)
    ensures Gauge(RecordSpec(s.log, s.flights[step.flight], step.u0, step.u1), meter, t) <=
              Gauge(s.log, meter, s.clock) + InFlight(s.flights, meter)
  {
    DayMonotone(s.clock, step.u0);
    DayMonotone(step.u0, step.u1);
    EarlierPart(s.log, meter, s.clock, BookedBy(s, step), t);
    WithoutOne(s.flights, step.flight, meter);
  }

  lemma RecordMisses(s: State, step: Step, meter: Meter, t: int)
    requires Enabled(s, step) && step.Records? && !LandsAt(s, step, meter, t)
    ensures Gauge(RecordSpec(s.log, s.flights[step.flight], step.u0, step.u1), meter, t) == Gauge(s.log, meter, t)
  {
    if Decimal.IsAmount(s.flights[step.flight].amount) {
      AppendPayment(s.log, BookedBy(s, step), PartAt(meter, t));
    }
  }

  /** The margin when the last payment landed in the part the meter measures at
      time t. */
  function MarginAt(policy: Policy, s: State, steps: seq<Step>, meter: Meter, t: int, margin: nat, landed: nat): nat
    requires IsRun(policy, s, steps)
    decreases |steps|
  {
    if steps == [] then landed
    else
      MarginAt(policy, Take(policy, s, steps[0]), steps[1..], meter, t, NextMargin(policy, s, steps[0], meter, margin),
               if LandsAt(s, steps[0], meter, t) then margin else landed)
  }

  lemma TakeKeepsPart(policy: Policy, s: State, step: Step, meter: Meter, t: int, margin: nat, landed: nat)
    requires Enabled(s, step) && Bounded(policy, s, meter, margin) && Over(policy, meter, Gauge(s.log, meter, t), landed)
    ensures Over(policy, meter, Gauge(Take(policy, s, step).log, meter, t), if LandsAt(s, step, meter, t) then margin else landed)
  {
    if step.Records? {
      if LandsAt(s, step, meter, t) {
        RecordLands(s, step, meter, t);
        OverLess(policy, meter, Gauge(s.log, meter, s.clock) + InFlight(s.flights, meter),
                 Gauge(Take(policy, s, step).log, meter, t), margin);
      } else {
        RecordMisses(s, step, meter, t);
      }
    }
  }

  lemma {:induction false} RunKeepsPart(policy: Policy, s: State, steps: seq<Step>, meter: Meter, t: int, margin: nat, landed: nat)
    requires IsRun(policy, s, steps) && Bounded(policy, s, meter, margin) && Over(policy, meter, Gauge(s.log, meter, t), landed)
    ensures Over(policy, meter, Gauge(Final(policy, s, steps).log, meter, t), MarginAt(policy, s, steps, meter, t, margin, landed))
    decreases |steps|
  {
    if steps != [] {
      TakeKeepsBound(policy, s, steps[0], meter, margin);
      TakeKeepsPart(policy, s, steps[0], meter, t, margin, landed);
      RunKeepsPart(policy, Take(policy, s, steps[0]), steps[1..], meter, t, NextMargin(policy, s, steps[0], meter, margin),
                   if LandsAt(s, steps[0], meter, t) then margin else landed);
    }
  }

  /** However calls overlap, no limit is exceeded on any day, in any window of a
      minute, for any payee or over the lifetime by more than what was in flight at
      the last concerned check that had passed when the last payment was booked
      there. */
  lemma OverlapBound(policy: Policy, clock: int, steps: seq<Step>, meter: Meter, t: int)
    requires IsRun(policy, State([], clock, []), steps)
    ensures Over(policy, meter, Gauge(Final(policy, State([], clock, []), steps).log, meter, t),
                 MarginAt(policy, State([], clock, []), steps, meter, t, 0, 0))
  {
    RunKeepsPart(policy, State([], clock, []), steps, meter, t, 0, 0);
  }

  /** Checks pass only when nothing that concerns the meter is in flight. */
  predicate Apart(policy: Policy, s: State, steps: seq<Step>, meter: Meter)
    requires IsRun(policy, s, steps)
    decreases |steps|
  {
    steps == [] ||
    ((Passes(policy, s, steps[0]) && Concerns(meter, steps[0].intent.payee, steps[0].intent.asset) ==> InFlight(s.flights, meter) == 0)
     && Apart(policy, Take(policy, s, steps[0]), steps[1..], meter))
  }

  lemma {:induction false} ApartHasNoMargin(policy: Policy, s: State, steps: seq<Step>, meter: Meter, t: int)
    requires IsRun(policy, s, steps) && Apart(policy, s, steps, meter)
    ensures MarginAt(policy, s, steps, meter, t, 0, 0) == 0
    decreases |steps|
  {
    if steps != [] {
      ApartHasNoMargin(policy, Take(policy, s, steps[0]), steps[1..], meter, t);
    }
  }

  /** So a limit holds on every day and in every window of every run whose payments
      on that meter do not overlap, whatever other payments do. */
  lemma ApartKeepsLimit(policy: Policy, clock: int, steps: seq<Step>, meter: Meter, t: int)
    requires IsRun(policy, State([], clock, []), steps) && Apart(policy, State([], clock, []), steps, meter)
    ensures Keeps(policy, meter, Gauge(Final(policy, State([], clock, []), steps).log, meter, t))
  {
    ApartHasNoMargin(policy, State([], clock, []), steps, meter, t);
    OverlapBound(policy, clock, steps, meter, t);
  }

  /** When payments overlap on no meter, every limit holds, as in a run of calls one
      after the other. */
  lemma ApartKeepsAll(policy: Policy, clock: int, steps: seq<Step>)
    requires IsRun(policy, State([], clock, []), steps)
    requires forall meter :: Apart(policy, State([], clock, []), steps, meter)
    ensures WithinLimits(policy, Final(policy, State([], clock, []), steps).log)
  {
    var log := Final(policy, State([], clock, []), steps).log;
    forall meter, t ensures Keeps(policy, meter, Gauge(log, meter, t)) {
      assert Apart(policy, State([], clock, []), steps, meter);
      ApartKeepsLimit(policy, clock, steps, meter, t);
    }
    KeptIsWithin(policy, log);
  }

  lemma KeptIsWithin(policy: Policy, log: seq<Payment>)
    requires forall meter, t :: Keeps(policy, meter, Gauge(log, meter, t))
    ensures WithinLimits(policy, log)
  {
    forall asset, day ensures Under(policy.daily, Spend(log, OnDay(asset, day))) {
      assert Keeps(policy, Daily(asset), Gauge(log, Daily(asset), day * DAY_MS));
      assert Day(day * DAY_MS) == day;
    }
    forall asset ensures Under(policy.total, Spend(log, OfAsset(asset))) {
      assert Keeps(policy, Total(asset), Gauge(log, Total(asset), 0));
    }
    forall payee, asset ensures Under(CapOf(policy, payee), Spend(log, ToPayee(payee, asset))) {
      assert Keeps(policy, Service(payee, asset), Gauge(log, Service(payee, asset), 0));
    }
    forall from ensures policy.requestsPerMinute.Some? ==> WithinRate(Count(log, Minute(from)), policy.requestsPerMinute.value) {
      assert Keeps(policy, Rate, Gauge(log, Rate, from + MINUTE));
    }
    forall asset, from ensures Under(policy.maxSpendPerMinute, Spend(log, AssetMinute(asset, from))) {
      assert Keeps(policy, SpendRate(asset), Gauge(log, SpendRate(asset), from + MINUTE));
    }
  }

  // ----- Exactly when the payments in flight go over -----

  /** Flights end; no further payment is checked. */
  predicate OnlyEnds(steps: seq<Step>) {
    forall i :: 0 <= i < |steps| ==> !steps[i].Checks?
  }

  /** A limit that does not depend on the time. */
  predicate Timeless(meter: Meter) {
    meter.Total? || meter.Service?
  }

  ghost predicate AllEndingsKeep(policy: Policy, s: State, meter: Meter) {
    forall steps :: IsRun(policy, s, steps) && OnlyEnds(steps) ==>
      Keeps(policy, meter, Gauge(Final(policy, s, steps).log, meter, 0))
  }

  lemma EndingReads(policy: Policy, s: State, step: Step, meter: Meter)
    requires Enabled(s, step) && !step.Checks? && Timeless(meter)
    ensures var after := Take(policy, s, step);
            && Gauge(after.log, meter, 0) + InFlight(after.flights, meter) <= Gauge(s.log, meter, 0) + InFlight(s.flights, meter)
            && (step.Records? ==>
                  Gauge(after.log, meter, 0) + InFlight(after.flights, meter) == Gauge(s.log, meter, 0) + InFlight(s.flights, meter))
  {
    WithoutOne(s.flights, step.flight, meter);
    if step.Records? && Decimal.IsAmount(s.flights[step.flight].amount) {
      AppendPayment(s.log, BookedBy(s, step), PartAt(meter, 0));
    }
  }

  lemma {:induction false} EndingsRead(policy: Policy, s: State, steps: seq<Step>, meter: Meter)
    requires IsRun(policy, s, steps) && OnlyEnds(steps) && Timeless(meter)
    ensures Gauge(Final(policy, s, steps).log, meter, 0) <= Gauge(s.log, meter, 0) + InFlight(s.flights, meter)
    decreases |steps|
  {
    if steps != [] {
      EndingReads(policy, s, steps[0], meter);
      EndingsRead(policy, Take(policy, s, steps[0]), steps[1..], meter);
    }
  }

  function RecordAll(n: nat, clock: int): seq<Step> {
    if n == 0 then [] else [Records(0, clock, clock, clock)] + RecordAll(n - 1, clock)
  }

  lemma RecordFirst(policy: Policy, s: State, meter: Meter)
    requires Timeless(meter) && s.flights != []
    ensures var step := Records(0, s.clock, s.clock, s.clock);
            && Enabled(s, step)
            && var after := Take(policy, s, step);
               && after.clock == s.clock && |after.flights| == |s.flights| - 1
               && Gauge(after.log, meter, 0) + InFlight(after.flights, meter) == Gauge(s.log, meter, 0) + InFlight(s.flights, meter)
  {
    EndingReads(policy, s, Records(0, s.clock, s.clock, s.clock), meter);
  }

  lemma RecordAllStep(n: nat, clock: int)
    requires n > 0
    ensures RecordAll(n, clock) != [] && RecordAll(n, clock)[0] == Records(0, clock, clock, clock)
    ensures RecordAll(n, clock)[1..] == RecordAll(n - 1, clock)
  {
  }

  lemma {:induction false} RecordsEnd(n: nat, clock: int)
    ensures OnlyEnds(RecordAll(n, clock))
  {
    if n > 0 {
      RecordsEnd(n - 1, clock);
    }
  }

  lemma {:induction false} AllRecorded(policy: Policy, s: State, meter: Meter)
    requires Timeless(meter)
    ensures var steps := RecordAll(|s.flights|, s.clock);
            IsRun(policy, s, steps) && Gauge(Final(policy, s, steps).log, meter, 0) == Gauge(s.log, meter, 0) + InFlight(s.flights, meter)
    decreases |s.flights|
  {
    if s.flights != [] {
      RecordFirst(policy, s, meter);
      RecordAllStep(|s.flights|, s.clock);
      AllRecorded(policy, Take(policy, s, Records(0, s.clock, s.clock, s.clock)), meter);
    }
  }

  /** Every way in which the payments in flight can end keeps a lifetime or
      per-payee limit exactly when what is spent and what is in flight keep it
      together. */
  lemma FlightsExactly(policy: Policy, s: State, meter: Meter)
    requires Timeless(meter)
    ensures AllEndingsKeep(policy, s, meter) <==> Keeps(policy, meter, Gauge(s.log, meter, 0) + InFlight(s.flights, meter))
  {
    AllRecorded(policy, s, meter);
    RecordsEnd(|s.flights|, s.clock);
    forall steps | IsRun(policy, s, steps) && OnlyEnds(steps)
      ensures Gauge(Final(policy, s, steps).log, meter, 0) <= Gauge(s.log, meter, 0) + InFlight(s.flights, meter)
    {
      EndingsRead(policy, s, steps, meter);
    }
  }

  /** Two payments of one asset in flight: current + a + b against the lifetime
      ceiling. */
  lemma TwoInFlightExactly(policy: Policy, s: State, a: Intent, b: Intent)
    requires s.flights == [a, b] && a.asset == b.asset && policy.total.Some? && Decimal.IsAmount(policy.total.value)
    ensures AllEndingsKeep(policy, s, Total(a.asset)) <==>
            Spend(s.log, OfAsset(a.asset)) + Amount(a) + Amount(b) <= Decimal.Value(policy.total.value)
  {
    FlightsExactly(policy, s, Total(a.asset));
    assert [a, b] == [a] + [b];
    InFlightConcat([a], [b], Total(a.asset));
    OneInFlight(a, Total(a.asset));
    OneInFlight(b, Total(a.asset));
  }
}
