/** The heuristics that decide when an open channel should close: the drawdown
    test without floats, and the idle timeout in whole seconds. */
module ClosePolicy {
  import opened JsText

  datatype Heuristics = Heuristics(drawdownThreshold: Option<Number>, idleTimeoutSeconds: Option<Number>)

  predicate IsFraction(n: Number) {
    n.Finite? && 0.0 <= n.value <= 1.0
  }

  predicate IsDuration(n: Number) {
    n.Finite? && 0.0 <= n.value
  }

  const SCALE := 1_000_000
  const UNIT := 1_000_000.0

  /** Math.round. */
  function Round(x: real): int {
    (x + 0.5).Floor
  }

  function ScaledThreshold(t: real): int {
    Round(t * UNIT)
  }

  /** The test the manager runs, on integers. */
  predicate DrawnDown(committed: nat, deposit: nat, t: real) {
    committed * SCALE >= deposit * ScaledThreshold(t)
  }

  function Ratio(committed: nat, deposit: nat): real
    requires deposit > 0
  {
    committed as real / deposit as real
  }

  /** The threshold to the nearest millionth. */
  function Rounded(t: real): real {
    ScaledThreshold(t) as real / UNIT
  }

  lemma DivideBoth(a: real, b: real, d: real, u: real)
    requires d > 0.0 && u > 0.0
    ensures a * u >= d * b <==> a / d >= b / u
  {
    var x, y := a / d, b / u;
    assert a == x * d && b == y * u;
    calc {
      a * u - d * b;
      (x * d) * u - d * (y * u);
      (x - y) * (d * u);
    }
    assert d * u > 0.0;
    if x >= y {
      assert (x - y) * (d * u) >= 0.0;
    } else {
      assert (y - x) * (d * u) > 0.0;
      assert (x - y) * (d * u) == -((y - x) * (d * u));
    }
  }

  /** The integer test compares the ratio with the rounded threshold. */
  lemma DrawnDownIsRatio(committed: nat, deposit: nat, t: real)
    requires deposit > 0
    ensures DrawnDown(committed, deposit, t) <==> Ratio(committed, deposit) >= Rounded(t)
  {
    var k := ScaledThreshold(t);
    DivideBoth(committed as real, k as real, deposit as real, UNIT);
    assert (committed * SCALE) as real == committed as real * UNIT;
    assert (deposit * k) as real == deposit as real * k as real;
  }

  /** Rounding moves the threshold by half a millionth at most. */
  lemma RoundedIsNear(t: real)
    ensures t - 0.000_000_5 <= Rounded(t) <= t + 0.000_000_5
  {
    var x := t * UNIT;
    assert x - 0.5 < ScaledThreshold(t) as real <= x + 0.5;
  }

  /** For a threshold in whole millionths the integer test is the exact ratio
      test. */
  lemma ExactOnMillionths(committed: nat, deposit: nat, k: int)
    requires deposit > 0
    ensures DrawnDown(committed, deposit, k as real / UNIT) <==> Ratio(committed, deposit) >= k as real / UNIT
  {
    var t := k as real / UNIT;
    DrawnDownIsRatio(committed, deposit, t);
    assert t * UNIT == k as real;
    assert ScaledThreshold(t) == k;
  }

  /** For any threshold it differs from the ratio test exactly when the ratio
      lies between the threshold and its rounding, so only within half a
      millionth of it. */
  lemma DiffersOnlyNearThreshold(committed: nat, deposit: nat, t: real)
    requires deposit > 0
    ensures var r := Ratio(committed, deposit);
            (DrawnDown(committed, deposit, t) != (r >= t)) == (Rounded(t) <= r < t || t <= r < Rounded(t))
    ensures var r := Ratio(committed, deposit);
            DrawnDown(committed, deposit, t) != (r >= t) ==> t - 0.000_000_5 <= r < t + 0.000_000_5
  {
    DrawnDownIsRatio(committed, deposit, t);
    RoundedIsNear(t);
  }

  /** A positive threshold under half a millionth is due before any commitment. */
  lemma TinyThresholdIsDueAtOnce(deposit: nat, t: real)
    requires 0.0 <= t < 0.000_000_5
    ensures DrawnDown(0, deposit, t)
  {
    assert t * UNIT < 0.5;
    assert ScaledThreshold(t) == 0;
  }

  /** More committed on the same deposit keeps the test true. */
  lemma DrawnDownGrows(committed: nat, more: nat, deposit: nat, t: real)
    requires DrawnDown(committed, deposit, t) && committed <= more
    ensures DrawnDown(more, deposit, t)
  {
  }

  function Ceil(x: real): int {
    -((-x).Floor)
  }

  /** Idle for whole seconds, rounded down, at least the timeout: the elapsed
      time reaches the timeout rounded up to a second. */
  lemma IdleIsWholeSeconds(elapsedMs: int, timeout: real)
    ensures (elapsedMs / 1000) as real >= timeout <==> elapsedMs >= 1000 * Ceil(timeout)
  {
    var n := Ceil(timeout);
    assert (n - 1) as real < timeout <= n as real;
    var s := elapsedMs / 1000;
    assert s as real >= timeout <==> s >= n by {
      if s >= n {
        assert s as real >= n as real;
      } else {
        assert s as real <= (n - 1) as real;
      }
    }
  }
}
