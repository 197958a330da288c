/** The arithmetic of one window of the circuit breaker: an exponential moving
    average of latencies and a decaying error cost. Reals are exact; results
    are cut to integers toward zero, as the conversions of the source do. */
module BreakerMath {

  /** The constants of one window. `smooth` is epsilon to the power of
      1 / window. */
  datatype Config = Config(
    window: int,
    percent: int,
    smooth: real,
    epsilon: real,
    minCost: int,
    multiple: int)

  /** Flags within their documented ranges. */
  predicate Sane(cfg: Config) {
    cfg.window > 0 && cfg.percent >= 0 && 0.0 < cfg.smooth < 1.0 && cfg.multiple >= 0
  }

  function Trunc(x: real): int {
    if x >= 0.0 then x.Floor else -((-x).Floor)
  }

  function NextLatency(smooth: real, ema: int, latency: int): int {
    if ema == 0 then latency else Trunc(ema as real * smooth + latency as real * (1.0 - smooth))
  }

  /** The average after the latencies, oldest first. */
  function Average(smooth: real, latencies: seq<int>): int {
    if latencies == [] then 0
    else NextLatency(smooth, Average(smooth, latencies[..|latencies| - 1]), latencies[|latencies| - 1])
  }

  /** What a failed call costs: no more than a multiple of the average. */
  function Capped(cfg: Config, ema: int, amount: int): int {
    if ema != 0 && ema * cfg.multiple < amount then ema * cfg.multiple else amount
  }

  function MaxCost(cfg: Config, ema: int): int {
    Trunc(ema as real * cfg.window as real * (cfg.percent as real / 100.0) * (1.0 + cfg.epsilon))
  }

  function Smoothed(cfg: Config, cost: int): int {
    Trunc(cost as real * cfg.smooth)
  }

  function Decay(cfg: Config, cost: int): int {
    if cost == 0 || cost < cfg.minCost then 0 else Smoothed(cfg, cost)
  }

  datatype CostOp = Add(amount: int) | Forget

  function Apply(cfg: Config, cost: int, op: CostOp): int {
    match op
    case Add(amount) => cost + amount
    case Forget => Decay(cfg, cost)
  }

  /** The error cost after the operations, oldest first. */
  function Cost(cfg: Config, ops: seq<CostOp>): int {
    if ops == [] then 0 else Apply(cfg, Cost(cfg, ops[..|ops| - 1]), ops[|ops| - 1])
  }

  /** How many errors a window tolerates while it is filling. */
  function Tolerated(cfg: Config): int
    requires Sane(cfg)
  {
    cfg.window * cfg.percent / 100
  }

  lemma TruncWithin(x: real, lo: int, hi: int)
    requires lo as real <= x <= hi as real
    ensures lo <= Trunc(x) <= hi
  {
  }

  lemma Scaled(x: real, s: real)
    requires x >= 0.0 && s > 0.0
    ensures x * s >= 0.0
  {
  }

  lemma MixWithin(s: real, a: real, b: real, lo: real, hi: real)
    requires 0.0 < s < 1.0 && lo <= a <= hi && lo <= b <= hi
    ensures lo <= a * s + b * (1.0 - s) <= hi
  {
    var r := 1.0 - s;
    assert a * s + b * r - lo == (a - lo) * s + (b - lo) * r;
    assert hi - (a * s + b * r) == (hi - a) * s + (hi - b) * r;
    Scaled(a - lo, s);
    Scaled(b - lo, r);
    Scaled(hi - a, s);
    Scaled(hi - b, r);
  }

  lemma NextWithin(smooth: real, ema: int, latency: int, lo: int, hi: int)
    requires 0.0 < smooth < 1.0 && lo <= latency <= hi && (ema == 0 || lo <= ema <= hi)
    ensures lo <= NextLatency(smooth, ema, latency) <= hi
  {
    if ema != 0 {
      MixWithin(smooth, ema as real, latency as real, lo as real, hi as real);
      TruncWithin(ema as real * smooth + latency as real * (1.0 - smooth), lo, hi);
    }
  }

  /** The average lies between the least and the greatest latency it was fed,
      whatever their number, order and sign. */
  lemma {:induction false} AverageWithin(smooth: real, latencies: seq<int>, lo: int, hi: int)
    requires 0.0 < smooth < 1.0 && latencies != []
    requires forall k :: 0 <= k < |latencies| ==> lo <= latencies[k] <= hi
    ensures lo <= Average(smooth, latencies) <= hi
  {
    var n := |latencies| - 1;
    if n > 0 {
      AverageWithin(smooth, latencies[..n], lo, hi);
    }
    NextWithin(smooth, Average(smooth, latencies[..n]), latencies[n], lo, hi);
  }

  function Iterated(smooth: real, ema: int, latency: int, k: nat): int
    decreases k
  {
    if k == 0 then ema else Iterated(smooth, NextLatency(smooth, ema, latency), latency, k - 1)
  }

  lemma FallsFromAbove(smooth: real, ema: int, latency: int)
    requires 0.0 < smooth < 1.0 && 0 < latency < ema
    ensures latency <= NextLatency(smooth, ema, latency) < ema
  {
    var e, l := ema as real, latency as real;
    var x := e * smooth + l * (1.0 - smooth);
    NextWithin(smooth, ema, latency, latency, ema);
    assert x == e - (e - l) * (1.0 - smooth);
    Positive(e - l, 1.0 - smooth);
    TruncBelow(x, ema);
  }

  lemma TruncBelow(x: real, n: int)
    requires n > 0 && x < n as real
    ensures Trunc(x) < n
  {
  }

  lemma Positive(a: real, b: real)
    requires a > 0.0 && b > 0.0
    ensures a * b > 0.0
  {
  }

  /** When calls get faster, the average reaches the new latency exactly, one
      call per microsecond of difference at the most. */
  lemma {:induction false} ReachesFromAbove(smooth: real, ema: int, latency: int, k: nat)
    requires 0.0 < smooth < 1.0 && 0 < latency <= ema && k >= ema - latency
    ensures Iterated(smooth, ema, latency, k) == latency
    decreases k
  {
    if k > 0 {
      if ema == latency {
        NextWithin(smooth, ema, latency, latency, latency);
      } else {
        FallsFromAbove(smooth, ema, latency);
      }
      ReachesFromAbove(smooth, NextLatency(smooth, ema, latency), latency, k - 1);
    }
  }

  /** One call with a higher latency moves the average up but never to it;
      cutting to an integer holds the average where it is exactly when the step
      up is below one. */
  lemma RisesFromBelow(smooth: real, ema: int, latency: int)
    requires 0.0 < smooth < 1.0 && 0 < ema < latency
    ensures ema <= NextLatency(smooth, ema, latency) < latency
    ensures NextLatency(smooth, ema, latency) == ema
       <==> (latency - ema) as real * (1.0 - smooth) < 1.0
  {
    var e, l := ema as real, latency as real;
    var x := e * smooth + l * (1.0 - smooth);
    NextWithin(smooth, ema, latency, ema, latency);
    assert (latency - ema) as real == l - e;
    assert x == e + (l - e) * (1.0 - smooth) == l - (l - e) * smooth;
    Positive(l - e, smooth);
    TruncBelow(x, latency);
  }

  lemma {:induction false} StaysBelow(smooth: real, ema: int, latency: int, k: nat)
    requires 0.0 < smooth < 1.0 && 0 < ema < latency
    ensures ema <= Iterated(smooth, ema, latency, k) < latency
    decreases k
  {
    if k > 0 {
      RisesFromBelow(smooth, ema, latency);
      StaysBelow(smooth, NextLatency(smooth, ema, latency), latency, k - 1);
    }
  }

  lemma SeedsEmpty(smooth: real, latency: int)
    ensures Iterated(smooth, 0, latency, 1) == latency
  {
    assert Iterated(smooth, 0, latency, 1) == Iterated(smooth, NextLatency(smooth, 0, latency), latency, 0);
  }

  /** Calls that keep having one latency bring the average to it if and only if
      the average was empty or not below it. */
  lemma ReachesIff(smooth: real, ema: int, latency: int)
    requires 0.0 < smooth < 1.0 && 0 <= ema && 0 < latency
    ensures (exists k: nat :: Iterated(smooth, ema, latency, k) == latency) <==> ema == 0 || ema >= latency
  {
    hide Iterated, NextLatency;
    if ema == 0 {
      SeedsEmpty(smooth, latency);
    } else if ema >= latency {
      ReachesFromAbove(smooth, ema, latency, ema - latency);
    } else {
      forall k: nat
        ensures Iterated(smooth, ema, latency, k) != latency
      {
        StaysBelow(smooth, ema, latency, k);
      }
    }
  }

  lemma {:induction false} FixedStays(smooth: real, ema: int, latency: int, k: nat)
    requires NextLatency(smooth, ema, latency) == ema
    ensures Iterated(smooth, ema, latency, k) == ema
    decreases k
  {
    if k > 0 {
      FixedStays(smooth, ema, latency, k - 1);
    }
  }

  /** Where an average that started below a risen latency stops: after as many
      calls as the difference it is fixed, less than 1 / (1 - smooth) below. */
  lemma {:induction false} StopsBelow(smooth: real, ema: int, latency: int, k: nat)
    requires 0.0 < smooth < 1.0 && 0 < ema < latency && k >= latency - ema
    ensures var e := Iterated(smooth, ema, latency, k);
            && ema <= e < latency
            && NextLatency(smooth, e, latency) == e
            && (latency - e) as real * (1.0 - smooth) < 1.0
    decreases k
  {
    RisesFromBelow(smooth, ema, latency);
    var next := NextLatency(smooth, ema, latency);
    if next == ema {
      FixedStays(smooth, ema, latency, k);
    } else {
      StopsBelow(smooth, next, latency, k - 1);
    }
  }

  lemma DecayFalls(cfg: Config, cost: int)
    requires Sane(cfg) && cost >= 0
    ensures 0 <= Decay(cfg, cost) <= cost
    ensures cost > 0 ==> Decay(cfg, cost) < cost
  {
    if cost > 0 {
      var x := cost as real * cfg.smooth;
      Positive(cost as real, cfg.smooth);
      Positive(cost as real, 1.0 - cfg.smooth);
      assert x == cost as real - cost as real * (1.0 - cfg.smooth);
      TruncBelow(x, cost);
    }
  }

  ghost predicate NonNegative(ops: seq<CostOp>) {
    forall k :: 0 <= k < |ops| && ops[k].Add? ==> ops[k].amount >= 0
  }

  lemma {:induction false} CostNeverNegative(cfg: Config, ops: seq<CostOp>)
    requires Sane(cfg) && NonNegative(ops)
    ensures Cost(cfg, ops) >= 0
  {
    if ops != [] {
      var n := |ops| - 1;
      CostNeverNegative(cfg, ops[..n]);
      if ops[n].Forget? {
        DecayFalls(cfg, Cost(cfg, ops[..n]));
      }
    }
  }

  function Power(x: real, k: nat): real {
    if k == 0 then 1.0 else x * Power(x, k - 1)
  }

  function Successes(k: nat): seq<CostOp> {
    seq(k, _ => Forget)
  }

  lemma ForgetOnce(cfg: Config, ops: seq<CostOp>, k: nat)
    requires k > 0
    ensures Cost(cfg, ops + Successes(k)) == Decay(cfg, Cost(cfg, ops + Successes(k - 1)))
  {
    var all := ops + Successes(k);
    assert all[..|all| - 1] == ops + Successes(k - 1);
  }

  /** At most smooth^k of the cost is left. */
  ghost predicate Shrunk(cfg: Config, cost: int, k: nat, left: int) {
    left as real <= cost as real * Power(cfg.smooth, k)
  }

  lemma ShrinkStep(cfg: Config, cost: int, k: nat, left: int)
    requires Sane(cfg) && left >= 0 && Shrunk(cfg, cost, k, left)
    ensures Shrunk(cfg, cost, k + 1, Decay(cfg, left))
  {
    var s, p, c, x := cfg.smooth, Power(cfg.smooth, k), cost as real, left as real;
    Scaled(c * p - x, s);
    assert (c * p - x) * s == (c * p) * s - x * s;
    assert (c * p) * s == c * Power(s, k + 1);
    Scaled(x, s);
  }

  /** After any history, k successes in a row leave at most smooth^k of the
      error cost, and strictly less each time while any is left. */
  lemma {:induction false} ForgetsGeometrically(cfg: Config, ops: seq<CostOp>, k: nat)
    requires Sane(cfg) && NonNegative(ops)
    ensures var left := Cost(cfg, ops + Successes(k));
            && 0 <= left
            && Shrunk(cfg, Cost(cfg, ops), k, left)
            && (k > 0 && Cost(cfg, ops + Successes(k - 1)) > 0 ==> left < Cost(cfg, ops + Successes(k - 1)))
  {
    if k == 0 {
      assert ops + Successes(0) == ops;
      CostNeverNegative(cfg, ops);
    } else {
      hide Cost, Decay, Shrunk, Successes;
      ForgetsGeometrically(cfg, ops, k - 1);
      ForgetOnce(cfg, ops, k);
      var before := Cost(cfg, ops + Successes(k - 1));
      DecayFalls(cfg, before);
      ShrinkStep(cfg, Cost(cfg, ops), k - 1, before);
    }
  }

  lemma {:induction false} ForgetsByOne(cfg: Config, ops: seq<CostOp>, k: nat)
    requires Sane(cfg) && NonNegative(ops)
    ensures var left := Cost(cfg, ops + Successes(k)); left == 0 || left <= Cost(cfg, ops) - k
  {
    if k == 0 {
      assert ops + Successes(0) == ops;
    } else {
      hide Cost, Decay, Shrunk, Successes;
      ForgetsByOne(cfg, ops, k - 1);
      ForgetsGeometrically(cfg, ops, k);
      ForgetOnce(cfg, ops, k);
    }
  }

  /** Every error is forgotten in the end: as many successes as the cost has
      units wipe it out, and one more than brings smooth^k of it below the
      minimum does so too. */
  lemma ForgetsEverything(cfg: Config, ops: seq<CostOp>, k: nat)
    requires Sane(cfg) && NonNegative(ops)
    ensures k >= Cost(cfg, ops) ==> Cost(cfg, ops + Successes(k)) == 0
    ensures Cost(cfg, ops) as real * Power(cfg.smooth, k) < cfg.minCost as real
        ==> Cost(cfg, ops + Successes(k + 1)) == 0
  {
    hide Cost, Decay, Power, Successes;
    ForgetsByOne(cfg, ops, k);
    ForgetsGeometrically(cfg, ops, k);
    ForgetOnce(cfg, ops, k + 1);
    SmallIsDropped(cfg, Cost(cfg, ops + Successes(k)));
  }

  lemma SmallIsDropped(cfg: Config, cost: int)
    ensures cost < cfg.minCost ==> Decay(cfg, cost) == 0
  {
  }
}
