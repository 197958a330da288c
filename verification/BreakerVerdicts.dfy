/** What the verdicts of a window mean: how many failures it takes, and how
    quickly they are forgotten. */
module BreakerVerdicts {
  import opened BreakerMath
  import opened RecorderMachine

  // ---- The threshold ----

  lemma TruncIs(x: real, n: int)
    requires x >= 0.0
    ensures n <= Trunc(x) <==> n as real <= x
    ensures Trunc(x) as real <= x < Trunc(x) as real + 1.0
  {
  }

  /** 100 times the share of errors of `weight` per call that a window allows. */
  function Allowance(cfg: Config, weight: int): real {
    (weight * cfg.window * cfg.percent) as real * (1.0 + cfg.epsilon)
  }

  lemma Product(a: int, b: int)
    ensures (a * b) as real == a as real * b as real
  {
  }

  lemma Hundredth(a: real, p: real, e: real)
    ensures 100.0 * (a * (p / 100.0) * e) == a * p * e
  {
    var q := p / 100.0;
    assert p == 100.0 * q;
    assert 100.0 * (a * q * e) == 100.0 * (a * q) * e;
    assert 100.0 * (a * q) == a * (100.0 * q);
  }

  lemma NotNegative(a: int, b: int)
    requires a >= 0 && b >= 0
    ensures a * b >= 0
  {
  }

  lemma MaxCostIff(cfg: Config, ema: int, cost: int)
    requires Sane(cfg) && cfg.epsilon >= 0.0 && ema >= 0
    ensures cost <= MaxCost(cfg, ema) <==> 100.0 * cost as real <= Allowance(cfg, ema)
  {
    var a, p, e := ema as real * cfg.window as real, cfg.percent as real, 1.0 + cfg.epsilon;
    var x := a * (p / 100.0) * e;
    Product(ema, cfg.window);
    Product(ema * cfg.window, cfg.percent);
    NotNegative(ema, cfg.window);
    NotNegative(ema * cfg.window, cfg.percent);
    assert Allowance(cfg, ema) == a * p * e;
    Hundredth(a, p, e);
    Scaled(a * p, e);
    assert MaxCost(cfg, ema) == Trunc(x);
    hide MaxCost, Allowance, Trunc;
    TruncIs(x, cost);
  }

  /** What a failed call of `latency` adds: the smaller of its latency and the
      given multiple of the average, if there is an average. */
  ghost predicate Adds(cfg: Config, ema: int, latency: int, amount: int) {
    && amount <= latency && (ema != 0 ==> amount <= ema * cfg.multiple)
    && (amount == latency || (ema != 0 && amount == ema * cfg.multiple))
  }

  /** In a full window a failed call that took time and is not capped to nothing
      adds its cost, and it is found healthy if and only if the cost is within
      the error percentage of a window of calls of average latency. */
  lemma FullVerdictIff(cfg: Config, rec: Recorder, latency: int)
    requires Sane(cfg) && cfg.epsilon >= 0.0 && rec.samples >= cfg.window && rec.ema >= 0
    requires latency > 0 && (rec.ema == 0 || cfg.multiple > 0)
    ensures var (after, healthy) := Ended(cfg, rec, Key(true, latency));
            && Adds(cfg, rec.ema, latency, after.cost - rec.cost)
            && (healthy <==> 100.0 * after.cost as real <= Allowance(cfg, rec.ema))
            && after == rec.(cost := after.cost)
  {
    hide MaxCost, Allowance, Decay;
    if rec.ema > 0 {
      NotZero(rec.ema, cfg.multiple);
    }
    MaxCostIff(cfg, rec.ema, rec.cost + Capped(cfg, rec.ema, latency));
  }

  lemma NotZero(a: int, b: int)
    requires a > 0 && b > 0
    ensures a * b > 0
  {
  }

  // ---- Failures in a row ----

  /** The recorder and the last verdict after `k` failed calls of `latency`. */
  function Failed(cfg: Config, rec: Recorder, latency: int, k: nat): (Recorder, bool)
    requires Sane(cfg)
  {
    if k == 0 then (rec, true) else Ended(cfg, Failed(cfg, rec, latency, k - 1).0, Key(true, latency))
  }

  /** A full window without error cost finds the k-th failure in a row of average
      latency healthy if and only if k is within the error percentage of the
      window: 100 k <= window * percent * (1 + epsilon). */
  lemma {:induction false} FailuresInARow(cfg: Config, rec: Recorder, k: nat)
    requires Sane(cfg) && cfg.epsilon >= 0.0 && cfg.multiple > 0
    requires rec.samples >= cfg.window && rec.cost == 0 && rec.ema > 0
    ensures var (after, healthy) := Failed(cfg, rec, rec.ema, k);
            && after == rec.(cost := k * rec.ema)
            && (k > 0 ==> (healthy <==> 100.0 * k as real <= Allowance(cfg, 1)))
  {
    hide Ended, Allowance;
    if k > 0 {
      var before := Failed(cfg, rec, rec.ema, k - 1).0;
      FailuresInARow(cfg, rec, k - 1);
      FullVerdictIff(cfg, before, rec.ema);
      NoCap(rec.ema, cfg.multiple);
      OneMore(k, rec.ema);
      PerCall(cfg, rec.ema, k);
    }
  }

  lemma NoCap(ema: int, multiple: int)
    requires ema > 0 && multiple > 0
    ensures ema <= ema * multiple
  {
    assert ema * multiple == ema + ema * (multiple - 1);
  }

  lemma OneMore(k: nat, x: int)
    requires k > 0
    ensures (k - 1) * x + x == k * x
  {
  }

  lemma PerCall(cfg: Config, ema: int, k: nat)
    requires ema > 0
    ensures 100.0 * (k * ema) as real <= Allowance(cfg, ema) <==> 100.0 * k as real <= Allowance(cfg, 1)
  {
    var e := ema as real;
    var w := (cfg.window * cfg.percent) as real * (1.0 + cfg.epsilon);
    Product(k, ema);
    assert ema * cfg.window * cfg.percent == ema * (cfg.window * cfg.percent);
    Product(ema, cfg.window * cfg.percent);
    assert Allowance(cfg, ema) == e * w;
    assert 1 * cfg.window * cfg.percent == cfg.window * cfg.percent;
    assert Allowance(cfg, 1) == w;
    assert 100.0 * (k * ema) as real == e * (100.0 * k as real);
    Cancels(e, 100.0 * k as real, w);
  }

  lemma Cancels(e: real, x: real, y: real)
    requires e > 0.0
    ensures e * x <= e * y <==> x <= y
  {
    if x < y {
      Positive(e, y - x);
      assert e * (y - x) == e * y - e * x;
    } else if x > y {
      Positive(e, x - y);
      assert e * (x - y) == e * x - e * y;
    }
  }

  // ---- How slowly errors are forgotten ----

  lemma DecayLoses(cfg: Config, cost: int)
    requires Sane(cfg) && cost >= 0 && (cost == 0 || cost >= cfg.minCost)
    ensures Decay(cfg, cost) as real > cost as real * cfg.smooth - 1.0
  {
    if cost != 0 {
      Scaled(cost as real, cfg.smooth);
      TruncIs(cost as real * cfg.smooth, 0);
    }
  }

  /** No more is lost than what rounding takes: with g = 1 / (1 - smooth),
      left + g is at least smooth^k of cost + g. */
  ghost predicate Remains(cfg: Config, g: real, cost: int, k: nat, left: int) {
    (cost as real + g) * Power(cfg.smooth, k) <= left as real + g
  }

  lemma RemainsStep(cfg: Config, g: real, cost: int, k: nat, left: int)
    requires Sane(cfg) && g * (1.0 - cfg.smooth) == 1.0 && Remains(cfg, g, cost, k, left)
    requires left >= 0 && (left == 0 || left >= cfg.minCost)
    ensures Remains(cfg, g, cost, k + 1, Decay(cfg, left))
  {
    hide Decay;
    DecayLoses(cfg, left);
    var s, p, c, x := cfg.smooth, Power(cfg.smooth, k), cost as real + g, left as real + g;
    Scaled(x - c * p, s);
    assert (x - c * p) * s == x * s - (c * p) * s;
    assert (c * p) * s == c * Power(s, k + 1);
    assert x * s == left as real * s + g * s;
    assert g * s == g - 1.0;
  }

  /** As long as the cost stays at or above the minimum, k successes leave at
      least smooth^k of it, up to what rounding takes. Together with
      `ForgetsGeometrically` this pins the rate. */
  lemma {:induction false} ForgetsNoFaster(cfg: Config, g: real, ops: seq<CostOp>, k: nat)
    requires Sane(cfg) && NonNegative(ops) && g * (1.0 - cfg.smooth) == 1.0
    requires forall j: nat :: j < k ==> Cost(cfg, ops + Successes(j)) >= cfg.minCost
    ensures Remains(cfg, g, Cost(cfg, ops), k, Cost(cfg, ops + Successes(k)))
  {
    if k == 0 {
      assert ops + Successes(0) == ops;
    } else {
      hide Cost, Decay, Remains, Successes;
      ForgetsNoFaster(cfg, g, ops, k - 1);
      ForgetsGeometrically(cfg, ops, k - 1);
      ForgetOnce(cfg, ops, k);
      RemainsStep(cfg, g, Cost(cfg, ops), k - 1, Cost(cfg, ops + Successes(k - 1)));
    }
  }

  /** With the smoothing factor that the window is built with, epsilon to the
      power of 1 / window, a window of successes leaves at most the share
      epsilon of any error cost. */
  lemma WindowForgets(cfg: Config, ops: seq<CostOp>)
    requires Sane(cfg) && NonNegative(ops) && Power(cfg.smooth, cfg.window) == cfg.epsilon
    ensures Cost(cfg, ops + Successes(cfg.window)) as real <= Cost(cfg, ops) as real * cfg.epsilon
  {
    hide Cost, Successes, Power;
    ForgetsGeometrically(cfg, ops, cfg.window);
  }

  // ---- While the window fills ----

  /** Errors pass while they are within the error percentage of the window. */
  lemma ToleratedIff(cfg: Config, n: nat)
    requires Sane(cfg)
    ensures n < Tolerated(cfg) <==> 100 * (n + 1) <= cfg.window * cfg.percent
  {
  }
}
