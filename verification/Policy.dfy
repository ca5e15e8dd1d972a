/** packages/core/src/policy.ts: the policy engine, with its pruned queues and
    per-day map, decides exactly as the full payment log would. */
module Policy {
  import opened JsText
  import opened PaymentLog
  import Decimal

  datatype ModelRule = ModelRule(enabled: Option<bool>, minChannelDeposit: Option<Text>)

  /** The declarative policy. `caps` holds the payees that have a cap. */
  datatype Policy = Policy(
    daily: Option<Text>,
    total: Option<Text>,
    caps: map<Text, Text>,
    perModel: map<Text, ModelRule>,
    requestsPerMinute: Option<Number>,
    maxSpendPerMinute: Option<Text>
  )

  datatype Intent = Intent(payee: Text, resource: Text, amount: Text, asset: Text, model: Text)

  datatype Rule = PerModelDisabled | MinChannelDeposit | DailyBudget | TotalBudget | PerService | RateLimit | AnomalyStop

  /** The decision, or the invalid-amount error. */
  datatype Verdict = Allowed | Blocked(rule: Rule) | InvalidAmount

  const MPP_CHANNEL: Text := [109, 112, 112, 45, 99, 104, 97, 110, 110, 101, 108]   // "mpp-channel"

  // ----- The decision computed from the full log -----

  /** A ceiling on `current + amount`; None lets the next rule speak. */
  function Ceiling(limit: Option<Text>, current: nat, amount: nat, rule: Rule): Option<Verdict> {
    if limit.None? then None
    else if !Decimal.IsAmount(limit.value) then Some(InvalidAmount)
    else if current + amount > Decimal.Value(limit.value) then Some(Blocked(rule))
    else None
  }

  function ModelVerdict(policy: Policy, intent: Intent, amount: nat): Option<Verdict> {
    if intent.model !in policy.perModel then None
    else
      var rule := policy.perModel[intent.model];
      if rule.enabled == Some(false) then Some(Blocked(PerModelDisabled))
      else if rule.minChannelDeposit.Some? && intent.model == MPP_CHANNEL then
        if !Decimal.IsAmount(rule.minChannelDeposit.value) then Some(InvalidAmount)
        else if amount < Decimal.Value(rule.minChannelDeposit.value) then Some(Blocked(MinChannelDeposit))
        else None
      else None
  }

  function CapOf(policy: Policy, payee: Text): Option<Text> {
    if payee in policy.caps then Some(policy.caps[payee]) else None
  }

  function BudgetVerdict(policy: Policy, log: seq<Payment>, intent: Intent, amount: nat, day: int): Option<Verdict> {
    var daily := Ceiling(policy.daily, Spend(log, OnDay(intent.asset, day)), amount, DailyBudget);
    if daily.Some? then daily
    else
      var total := Ceiling(policy.total, Spend(log, OfAsset(intent.asset)), amount, TotalBudget);
      if total.Some? then total
      else Ceiling(CapOf(policy, intent.payee), Spend(log, UnderKey(ServiceKey(intent.payee, intent.asset))), amount, PerService)
  }

  /** count >= limit; false when the limit is not a number. */
  predicate Reaches(count: nat, limit: Number) {
    match limit
    case Finite(value) => count as real >= value
    case NaN => false
    case Infinite(positive) => !positive
  }

  function RateVerdict(policy: Policy, log: seq<Payment>, now: int): Option<Verdict> {
    if policy.requestsPerMinute.Some? && Reaches(Count(log, Window(now - MINUTE, now)), policy.requestsPerMinute.value)
    then Some(Blocked(RateLimit)) else None
  }

  function AnomalyVerdict(policy: Policy, log: seq<Payment>, intent: Intent, amount: nat, now: int): Option<Verdict> {
    Ceiling(policy.maxSpendPerMinute, Spend(log, AssetWindow(intent.asset, now - MINUTE, now)), amount, AnomalyStop)
  }

  /** check(intent): t0, t1 and t2 are its clock readings at the daily reset, the
      rate limit and the anomaly stop. */
  function CheckSpec(policy: Policy, log: seq<Payment>, intent: Intent, t0: int, t1: int, t2: int): Verdict {
    if !Decimal.IsAmount(intent.amount) then InvalidAmount
    else
      var amount := Decimal.Value(intent.amount);
      var model := ModelVerdict(policy, intent, amount);
      if model.Some? then model.value
      else
        var budget := BudgetVerdict(policy, log, intent, amount, Day(t0));
        if budget.Some? then budget.value
        else
          var rate := RateVerdict(policy, log, t1);
          if rate.Some? then rate.value
          else
            var anomaly := AnomalyVerdict(policy, log, intent, amount, t2);
            if anomaly.Some? then anomaly.value else Allowed
  }

  /** A ceiling leaves room for an amount. */
  predicate LeavesRoom(limit: Option<Text>, current: nat, amount: nat) {
    limit.Some? ==> Decimal.IsAmount(limit.value) && current + amount <= Decimal.Value(limit.value)
  }

  /** The model is not disabled, and a channel deposit reaches its minimum. */
  predicate ModelAllows(policy: Policy, model: Text, amount: nat) {
    model in policy.perModel ==>
      var rule := policy.perModel[model];
      && rule.enabled != Some(false)
      && (model == MPP_CHANNEL && rule.minChannelDeposit.Some? ==>
            Decimal.IsAmount(rule.minChannelDeposit.value) && Decimal.Value(rule.minChannelDeposit.value) <= amount)
  }

  /** check allows a payment exactly when every rule does. */
  lemma AllowedExactly(policy: Policy, log: seq<Payment>, intent: Intent, t0: int, t1: int, t2: int)
    ensures CheckSpec(policy, log, intent, t0, t1, t2).Allowed? <==>
            Decimal.IsAmount(intent.amount) &&
            var amount := Decimal.Value(intent.amount);
            && ModelAllows(policy, intent.model, amount)
            && LeavesRoom(policy.daily, Spend(log, OnDay(intent.asset, Day(t0))), amount)
            && LeavesRoom(policy.total, Spend(log, OfAsset(intent.asset)), amount)
            && LeavesRoom(CapOf(policy, intent.payee), Spend(log, UnderKey(ServiceKey(intent.payee, intent.asset))), amount)
            && (policy.requestsPerMinute.Some? ==> !Reaches(Count(log, Window(t1 - MINUTE, t1)), policy.requestsPerMinute.value))
            && LeavesRoom(policy.maxSpendPerMinute, Spend(log, AssetWindow(intent.asset, t2 - MINUTE, t2)), amount)
  {
  }

  predicate WellFormed(limit: Option<Text>) {
    limit.Some? ==> Decimal.IsAmount(limit.value)
  }

  predicate Disabled(policy: Policy, model: Text) {
    model in policy.perModel && policy.perModel[model].enabled == Some(false)
  }

  /** The least deposit the policy asks of the model; of channels only. */
  function LeastDeposit(policy: Policy, model: Text): Option<Text> {
    if model == Lit("mpp-channel") && model in policy.perModel then policy.perModel[model].minChannelDeposit else None
  }

  lemma ChannelModel()
    ensures MPP_CHANNEL == Lit("mpp-channel")
  {
  }

  /** What the limits are compared with, for one intent. */
  datatype Reading = Reading(amount: nat, today: nat, lifetime: nat, payee: nat, requests: nat, minute: nat)

  function ReadLog(log: seq<Payment>, intent: Intent, t0: int, t1: int, t2: int): Reading
    requires Decimal.IsAmount(intent.amount)
  {
    Reading(Decimal.Value(intent.amount), Spend(log, OnDay(intent.asset, Day(t0))), Spend(log, OfAsset(intent.asset)),
            Spend(log, UnderKey(ServiceKey(intent.payee, intent.asset))), Count(log, Window(t1 - MINUTE, t1)),
            Spend(log, AssetWindow(intent.asset, t2 - MINUTE, t2)))
  }

  /** How far the rules, taken in order, leave room: the first `n` of the model
      rule, the daily, total and per-service budgets, the rate limit and the
      anomaly stop. */
  predicate RoomUpTo(n: nat, policy: Policy, intent: Intent, r: Reading) {
    && (n >= 1 ==> ModelAllows(policy, intent.model, r.amount))
    && (n >= 2 ==> LeavesRoom(policy.daily, r.today, r.amount))
    && (n >= 3 ==> LeavesRoom(policy.total, r.lifetime, r.amount))
    && (n >= 4 ==> LeavesRoom(CapOf(policy, intent.payee), r.payee, r.amount))
    && (n >= 5 ==> policy.requestsPerMinute.Some? ==> !Reaches(r.requests, policy.requestsPerMinute.value))
    && (n >= 6 ==> LeavesRoom(policy.maxSpendPerMinute, r.minute, r.amount))
  }

  /** Which refusal check gives: a rule is named exactly when every rule before it
      leaves room and it is well formed and does not. */
  lemma RefusalExactly(policy: Policy, log: seq<Payment>, intent: Intent, t0: int, t1: int, t2: int)
    requires Decimal.IsAmount(intent.amount)
    ensures var v, r, least := CheckSpec(policy, log, intent, t0, t1, t2), ReadLog(log, intent, t0, t1, t2), LeastDeposit(policy, intent.model);
            && (v == Blocked(PerModelDisabled) <==> Disabled(policy, intent.model))
            && (v == Blocked(MinChannelDeposit) <==>
                  !Disabled(policy, intent.model) && least.Some? && WellFormed(least) && r.amount < Decimal.Value(least.value))
            && (v == Blocked(DailyBudget) <==>
                  RoomUpTo(1, policy, intent, r) && WellFormed(policy.daily) && !LeavesRoom(policy.daily, r.today, r.amount))
            && (v == Blocked(TotalBudget) <==>
                  RoomUpTo(2, policy, intent, r) && WellFormed(policy.total) && !LeavesRoom(policy.total, r.lifetime, r.amount))
            && (v == Blocked(PerService) <==>
                  RoomUpTo(3, policy, intent, r) && WellFormed(CapOf(policy, intent.payee))
                  && !LeavesRoom(CapOf(policy, intent.payee), r.payee, r.amount))
            && (v == Blocked(RateLimit) <==> RoomUpTo(4, policy, intent, r) && !RoomUpTo(5, policy, intent, r))
            && (v == Blocked(AnomalyStop) <==>
                  RoomUpTo(5, policy, intent, r) && WellFormed(policy.maxSpendPerMinute)
                  && !LeavesRoom(policy.maxSpendPerMinute, r.minute, r.amount))
            && (v == Allowed <==> RoomUpTo(6, policy, intent, r))
  {
    ChannelModel();
  }

  /** The invalid-amount error is given exactly when the amount asked for, or the
      first limit that does not leave room, is malformed. */
  lemma InvalidExactly(policy: Policy, log: seq<Payment>, intent: Intent, t0: int, t1: int, t2: int)
    ensures CheckSpec(policy, log, intent, t0, t1, t2) == InvalidAmount <==>
            !Decimal.IsAmount(intent.amount) ||
            var r := ReadLog(log, intent, t0, t1, t2);
            || (!Disabled(policy, intent.model) && !WellFormed(LeastDeposit(policy, intent.model)))
            || (RoomUpTo(1, policy, intent, r) && !WellFormed(policy.daily))
            || (RoomUpTo(2, policy, intent, r) && !WellFormed(policy.total))
            || (RoomUpTo(3, policy, intent, r) && !WellFormed(CapOf(policy, intent.payee)))
            || (RoomUpTo(5, policy, intent, r) && !WellFormed(policy.maxSpendPerMinute))
  {
    ChannelModel();
  }

  /** What a limit on requests per minute means as a number of JavaScript: a finite
      one blocks from that many requests on, a negative infinity always, and NaN and
      infinity never. */
  lemma RateLimitNumbers(policy: Policy, log: seq<Payment>, intent: Intent, t0: int, t1: int, t2: int)
    requires Decimal.IsAmount(intent.amount) && policy.requestsPerMinute.Some?
    ensures var v, r := CheckSpec(policy, log, intent, t0, t1, t2), ReadLog(log, intent, t0, t1, t2);
            v == Blocked(RateLimit) <==>
              RoomUpTo(4, policy, intent, r) &&
              match policy.requestsPerMinute.value
              case Finite(limit) => r.requests as real >= limit
              case NaN => false
              case Infinite(positive) => !positive
  {
    RefusalExactly(policy, log, intent, t0, t1, t2);
  }

  /** record(intent): booked on the day of t0, stamped t1. */
  function RecordSpec(log: seq<Payment>, intent: Intent, t0: int, t1: int): seq<Payment> {
    if !Decimal.IsAmount(intent.amount) then log
    else log + [Payment(intent.payee, intent.asset, Decimal.Value(intent.amount), Day(t0), t1)]
  }

  // ----- The engine -----

  datatype Sample = Sample(amount: nat, asset: Text, ts: int)

  function Times(log: seq<Payment>): seq<int> {
    seq(|log|, i requires 0 <= i < |log| => log[i].at)
  }

  function Samples(log: seq<Payment>): seq<Sample> {
    seq(|log|, i requires 0 <= i < |log| => Sample(log[i].amount, log[i].asset, log[i].at))
  }

  function Get(m: map<Text, nat>, key: Text): nat {
    if key in m then m[key] else 0
  }

  /** The log a clock that never goes back produces. */
  ghost predicate Ordered(log: seq<Payment>, clock: int) {
    && (forall i, j :: 0 <= i < j < |log| ==> log[i].at <= log[j].at)
    && (forall i :: 0 <= i < |log| ==> log[i].at <= clock && log[i].day <= Day(log[i].at))
  }

  /** No payment is booked after the day of the last reset. */
  ghost predicate Booked(log: seq<Payment>, clock: int, day: int) {
    Ordered(log, clock) && day <= Day(clock) && forall i :: 0 <= i < |log| ==> log[i].day <= day
  }

  /** The three maps hold the sums of the log. */
  ghost predicate Sums(log: seq<Payment>, day: int, daily: map<Text, nat>, total: map<Text, nat>, service: map<Text, nat>) {
    && (forall asset :: Get(daily, asset) == Spend(log, OnDay(asset, day)))
    && (forall asset :: Get(total, asset) == Spend(log, OfAsset(asset)))
    && (forall key :: Get(service, key) == Spend(log, UnderKey(key)))
  }

  /** The two queues hold the log from position n, and what is gone is old. */
  ghost predicate Queued(log: seq<Payment>, n: nat, clock: int, times: seq<int>, samples: seq<Sample>) {
    && n <= |log| && times == Times(log[n..]) && samples == Samples(log[n..])
    && forall i :: 0 <= i < n ==> log[i].at < clock - MINUTE
  }

  class PolicyEngine {
    const policy: Policy
    var dailySpend: map<Text, nat>
    var totalSpend: map<Text, nat>
    var serviceSpend: map<Text, nat>
    var requestTimestamps: seq<int>
    var anomalySamples: seq<Sample>
    var lastResetDay: int
    ghost var log: seq<Payment>   // everything ever recorded
    ghost var pruned: nat         // how much of the log has left the queues
    ghost var clock: int          // the latest reading

    ghost predicate Valid()
      reads this
    {
      && Booked(log, clock, lastResetDay)
      && Sums(log, lastResetDay, dailySpend, totalSpend, serviceSpend)
      && Queued(log, pruned, clock, requestTimestamps, anomalySamples)
    }

    constructor (policy: Policy, now: int)
      ensures Valid() && this.policy == policy && log == [] && clock == now
    {
      this.policy := policy;
      dailySpend, totalSpend, serviceSpend := map[], map[], map[];
      requestTimestamps, anomalySamples := [], [];
      lastResetDay := Day(now);
      log, pruned, clock := [], 0, now;
    }

    method ResetDailyIfNeeded(now: int)
      requires Valid() && clock <= now
      modifies `dailySpend, `lastResetDay, `clock
      ensures Valid() && clock == now && lastResetDay == Day(now)
    {
      var today := Day(now);
      if today != lastResetDay {
        forall asset ensures Spend(log, OnDay(asset, today)) == 0 {
          EmptyPart(log, OnDay(asset, today));
        }
        dailySpend := map[];
        lastResetDay := today;
      }
      clock := now;
    }

    /** Both queues lose their old entries from the front; since they are sorted,
        nothing old is left behind. */
    method PruneWindow(now: int)
      requires Valid() && clock <= now
      modifies `requestTimestamps, `anomalySamples, `pruned, `clock
      ensures Valid() && clock == now
      ensures forall i :: pruned <= i < |log| ==> log[i].at >= now - MINUTE
    {
      var cutoff := now - MINUTE;
      ghost var n := PruneRequests(cutoff);
      PruneSamples(cutoff, n);
      pruned := n;
      clock := now;
    }

    method PruneRequests(cutoff: int) returns (ghost n: nat)
      requires Ordered(log, clock) && pruned <= |log| && requestTimestamps == Times(log[pruned..])
      requires forall i :: 0 <= i < pruned ==> log[i].at < cutoff
      modifies `requestTimestamps
      ensures pruned <= n <= |log| && requestTimestamps == Times(log[n..])
      ensures forall i :: 0 <= i < n ==> log[i].at < cutoff
      ensures forall i :: n <= i < |log| ==> log[i].at >= cutoff
    {
      n := pruned;
      while |requestTimestamps| > 0 && requestTimestamps[0] < cutoff
        invariant pruned <= n <= |log| && requestTimestamps == Times(log[n..])
        invariant forall i :: 0 <= i < n ==> log[i].at < cutoff
        decreases |requestTimestamps|
      {
        QueueTail(log, n);
        requestTimestamps := requestTimestamps[1..];
        n := n + 1;
      }
      assert n < |log| ==> log[n].at == requestTimestamps[0];
    }

    method PruneSamples(cutoff: int, ghost n: nat)
      requires pruned <= n <= |log| && anomalySamples == Samples(log[pruned..])
      requires forall i :: 0 <= i < n ==> log[i].at < cutoff
      requires forall i :: n <= i < |log| ==> log[i].at >= cutoff
      modifies `anomalySamples
      ensures anomalySamples == Samples(log[n..])
    {
      ghost var m := pruned;
      while |anomalySamples| > 0 && anomalySamples[0].ts < cutoff
        invariant pruned <= m <= n && anomalySamples == Samples(log[m..])
        decreases |anomalySamples|
      {
        QueueTail(log, m);
        anomalySamples := anomalySamples[1..];
        m := m + 1;
      }
      assert m < |log| ==> log[m].at == anomalySamples[0].ts;
    }

    /** check: the verdict is the one the full log gives, and nothing is
        recorded. */
    method Check(intent: Intent, t0: int, t1: int, t2: int) returns (verdict: Verdict)
      requires Valid() && clock <= t0 <= t1 <= t2
      modifies this
      ensures Valid() && log == old(log) && clock <= t2
      ensures verdict == CheckSpec(policy, log, intent, t0, t1, t2)
    {
      ResetDailyIfNeeded(t0);
      if !Decimal.IsAmount(intent.amount) {
        return InvalidAmount;
      }
      var amount := Decimal.Value(intent.amount);
      var blocked := ModelVerdict(policy, intent, amount);
      if blocked.Some? {
        return blocked.value;
      }
      blocked := Budgets(intent, amount);
      if blocked.Some? {
        return blocked.value;
      }
      blocked := RateLimited(t1);
      if blocked.Some? {
        return blocked.value;
      }
      blocked := AnomalyStopped(intent, amount, t2);
      if blocked.Some? {
        return blocked.value;
      }
      return Allowed;
    }

    /** The daily budget, the total budget and the cap of the payee. */
    method Budgets(intent: Intent, amount: nat) returns (blocked: Option<Verdict>)
      requires Valid()
      ensures blocked == BudgetVerdict(policy, log, intent, amount, lastResetDay)
    {
      blocked := Ceiling(policy.daily, Get(dailySpend, intent.asset), amount, DailyBudget);
      if blocked.Some? {
        return;
      }
      blocked := Ceiling(policy.total, Get(totalSpend, intent.asset), amount, TotalBudget);
      if blocked.Some? {
        return;
      }
      var key := ServiceKey(intent.payee, intent.asset);
      blocked := Ceiling(CapOf(policy, intent.payee), Get(serviceSpend, key), amount, PerService);
    }

    method RateLimited(now: int) returns (blocked: Option<Verdict>)
      requires Valid() && clock <= now
      modifies `requestTimestamps, `anomalySamples, `pruned, `clock
      ensures Valid() && clock <= now
      ensures blocked == RateVerdict(policy, log, now)
    {
      if policy.requestsPerMinute.None? {
        return None;
      }
      PruneWindow(now);
      QueueCount(log, pruned, now);
      if Reaches(|requestTimestamps|, policy.requestsPerMinute.value) {
        return Some(Blocked(RateLimit));
      }
      return None;
    }

    method AnomalyStopped(intent: Intent, amount: nat, now: int) returns (blocked: Option<Verdict>)
      requires Valid() && clock <= now
      modifies `requestTimestamps, `anomalySamples, `pruned, `clock
      ensures Valid() && clock <= now
      ensures blocked == AnomalyVerdict(policy, log, intent, amount, now)
    {
      if policy.maxSpendPerMinute.None? || !Decimal.IsAmount(policy.maxSpendPerMinute.value) {
        return Ceiling(policy.maxSpendPerMinute, 0, amount, AnomalyStop);
      }
      PruneWindow(now);
      var recent := RecentSpend(anomalySamples, intent.asset, now - MINUTE);
      QueueSpend(log, pruned, intent.asset, now);
      return Ceiling(policy.maxSpendPerMinute, recent, amount, AnomalyStop);
    }

    /** record: the payment joins the log, or the amount is rejected and the log
        stays. */
    method Record(intent: Intent, t0: int, t1: int, t2: int) returns (ok: bool)
      requires Valid() && clock <= t0 <= t1 <= t2
      modifies this
      ensures Valid() && clock <= t2
      ensures ok == Decimal.IsAmount(intent.amount)
      ensures log == RecordSpec(old(log), intent, t0, t1)
    {
      ResetDailyIfNeeded(t0);
      if !Decimal.IsAmount(intent.amount) {
        return false;
      }
      ApplyRecord(intent, t1);
      PruneWindow(t2);
      ok := true;
    }

    method ApplyRecord(intent: Intent, now: int)
      requires Valid() && clock <= now && Decimal.IsAmount(intent.amount)
      modifies this
      ensures Valid() && clock == now && lastResetDay == old(lastResetDay)
      ensures log == old(log) + [Payment(intent.payee, intent.asset, Decimal.Value(intent.amount), lastResetDay, now)]
    {
      ghost var p := Payment(intent.payee, intent.asset, Decimal.Value(intent.amount), lastResetDay, now);
      QueuesAfter(log, pruned, clock, requestTimestamps, anomalySamples, p);
      BookedAfter(log, clock, p);
      AddSpend(intent.payee, intent.asset, Decimal.Value(intent.amount), p);
      requestTimestamps := requestTimestamps + [now];
      anomalySamples := anomalySamples + [Sample(Decimal.Value(intent.amount), intent.asset, now)];
      log, clock := log + [p], now;
    }

    method AddSpend(payee: Text, asset: Text, amount: nat, ghost p: Payment)
      requires Sums(log, lastResetDay, dailySpend, totalSpend, serviceSpend)
      requires p.payee == payee && p.asset == asset && p.amount == amount && p.day == lastResetDay
      modifies `dailySpend, `totalSpend, `serviceSpend
      ensures Sums(log + [p], lastResetDay, dailySpend, totalSpend, serviceSpend)
    {
      MapsAfter(log, p, dailySpend, totalSpend, serviceSpend);
      dailySpend := dailySpend[asset := Get(dailySpend, asset) + amount];
      totalSpend := totalSpend[asset := Get(totalSpend, asset) + amount];
      var key := ServiceKey(payee, asset);
      serviceSpend := serviceSpend[key := Get(serviceSpend, key) + amount];
    }
  }

  // ----- The maps against the log -----

  lemma DailyAfter(log: seq<Payment>, p: Payment, daily: map<Text, nat>)
    requires forall asset :: Get(daily, asset) == Spend(log, OnDay(asset, p.day))
    ensures var daily' := daily[p.asset := Get(daily, p.asset) + p.amount];
            forall asset :: Get(daily', asset) == Spend(log + [p], OnDay(asset, p.day))
  {
    var daily' := daily[p.asset := Get(daily, p.asset) + p.amount];
    forall asset ensures Get(daily', asset) == Spend(log + [p], OnDay(asset, p.day)) {
      AppendPayment(log, p, OnDay(asset, p.day));
    }
  }

  lemma TotalAfter(log: seq<Payment>, p: Payment, total: map<Text, nat>)
    requires forall asset :: Get(total, asset) == Spend(log, OfAsset(asset))
    ensures var total' := total[p.asset := Get(total, p.asset) + p.amount];
            forall asset :: Get(total', asset) == Spend(log + [p], OfAsset(asset))
  {
    var total' := total[p.asset := Get(total, p.asset) + p.amount];
    forall asset ensures Get(total', asset) == Spend(log + [p], OfAsset(asset)) {
      AppendPayment(log, p, OfAsset(asset));
    }
  }

  lemma ServiceAfter(log: seq<Payment>, p: Payment, service: map<Text, nat>)
    requires forall key :: Get(service, key) == Spend(log, UnderKey(key))
    ensures var k := ServiceKey(p.payee, p.asset);
            var service' := service[k := Get(service, k) + p.amount];
            forall key :: Get(service', key) == Spend(log + [p], UnderKey(key))
  {
    var k := ServiceKey(p.payee, p.asset);
    var service' := service[k := Get(service, k) + p.amount];
    forall key ensures Get(service', key) == Spend(log + [p], UnderKey(key)) {
      AppendPayment(log, p, UnderKey(key));
    }
  }

  lemma MapsAfter(log: seq<Payment>, p: Payment, daily: map<Text, nat>, total: map<Text, nat>, service: map<Text, nat>)
    requires Sums(log, p.day, daily, total, service)
    ensures var key := ServiceKey(p.payee, p.asset);
            Sums(log + [p], p.day, daily[p.asset := Get(daily, p.asset) + p.amount],
                 total[p.asset := Get(total, p.asset) + p.amount], service[key := Get(service, key) + p.amount])
  {
    DailyAfter(log, p, daily);
    TotalAfter(log, p, total);
    ServiceAfter(log, p, service);
  }

  lemma QueueTail(log: seq<Payment>, n: nat)
    requires n < |log|
    ensures Times(log[n..])[0] == log[n].at && Times(log[n..])[1..] == Times(log[n + 1..])
    ensures Samples(log[n..])[0].ts == log[n].at && Samples(log[n..])[1..] == Samples(log[n + 1..])
  {
  }

  lemma BookedAfter(log: seq<Payment>, clock: int, p: Payment)
    requires Booked(log, clock, p.day) && clock <= p.at
    ensures Booked(log + [p], p.at, p.day)
  {
  }

  lemma QueuesAfter(log: seq<Payment>, n: nat, clock: int, times: seq<int>, samples: seq<Sample>, p: Payment)
    requires Queued(log, n, clock, times, samples) && clock <= p.at
    ensures Queued(log + [p], n, p.at, times + [p.at], samples + [Sample(p.amount, p.asset, p.at)])
  {
    assert (log + [p])[n..] == log[n..] + [p];
  }

  // ----- The queues against the log -----

  /** anomalySamples.filter(...).reduce(...). */
  function RecentSpend(samples: seq<Sample>, asset: Text, from: int): nat {
    if samples == [] then 0
    else
      var last := samples[|samples| - 1];
      RecentSpend(samples[..|samples| - 1], asset, from) + if last.ts >= from && last.asset == asset then last.amount else 0
  }

  lemma QueueCount(log: seq<Payment>, n: nat, now: int)
    requires n <= |log| && Ordered(log, now)
    requires forall i :: 0 <= i < n ==> log[i].at < now - MINUTE
    requires forall i :: n <= i < |log| ==> log[i].at >= now - MINUTE
    ensures |Times(log[n..])| == Count(log, Window(now - MINUTE, now))
  {
    DropFront(log, n, Window(now - MINUTE, now));
    CountAll(log[n..], Window(now - MINUTE, now));
  }

  lemma {:induction false} SamplesSpend(log: seq<Payment>, asset: Text, from: int, to: int)
    requires forall i :: 0 <= i < |log| ==> log[i].at <= to
    ensures RecentSpend(Samples(log), asset, from) == Spend(log, AssetWindow(asset, from, to))
  {
    if log != [] {
      SamplesSpend(log[..|log| - 1], asset, from, to);
      assert Samples(log)[..|log| - 1] == Samples(log[..|log| - 1]);
    }
  }

  lemma QueueSpend(log: seq<Payment>, n: nat, asset: Text, now: int)
    requires n <= |log| && Ordered(log, now)
    requires forall i :: 0 <= i < n ==> log[i].at < now - MINUTE
    ensures RecentSpend(Samples(log[n..]), asset, now - MINUTE) == Spend(log, AssetWindow(asset, now - MINUTE, now))
  {
    DropFront(log, n, AssetWindow(asset, now - MINUTE, now));
    SamplesSpend(log[n..], asset, now - MINUTE, now);
  }
}
