/** The EmaErrorRecorder and CircuitBreaker objects. Their methods are proved
    against what one call does on its own, and the latch, the count and the
    bounds of the breaker against their callers' view. */
module BreakerObjects {
  import opened BreakerMath
  import opened RecorderMachine
  import BM = BreakerMachine

  class EmaErrorRecorder {
    const cfg: Config
    var samples: int
    var errors: int
    var cost: int
    var ema: int

    ghost function View(): Recorder
      reads this
    {
      Recorder(samples, errors, cost, ema)
    }

    constructor (cfg: Config)
      ensures this.cfg == cfg && View() == EMPTY
    {
      this.cfg := cfg;
      samples, errors, cost, ema := 0, 0, 0, 0;
    }

    /** The compare-and-exchange loop. `others` are the values that other calls
        store in turn, one before each attempt, until they leave it alone. The
        latency is averaged into the value that is then in place. */
    method UpdateLatency(latency: int, others: seq<int>) returns (next: int)
      modifies this`ema
      ensures ema == next
      ensures exists v :: v in [old(ema)] + others && next == NextLatency(cfg.smooth, v, latency)
      ensures others == [] ==> next == NextLatency(cfg.smooth, old(ema), latency)
    {
      var seen := ema;
      var k := 0;
      while true
        invariant 0 <= k <= |others|
        invariant ema == seen && seen in [old(ema)] + others
        invariant others == [] ==> seen == old(ema)
        decreases |others| - k
      {
        next := NextLatency(cfg.smooth, seen, latency);
        if k < |others| {
          ema := others[k];
          k := k + 1;
        }
        if ema == seen {
          ema := next;
          return;
        }
        seen := ema;
      }
    }

    method UpdateErrorCost(amount: int, ema: int, others: seq<int>) returns (healthy: bool)
      modifies this`cost
      ensures others == [] ==> (View(), healthy) == CostUpdated(cfg, old(View()), amount, ema)
      ensures Capped(cfg, ema, amount) != 0 ==>
                cost == old(cost) + Capped(cfg, ema, amount) && (healthy <==> cost <= MaxCost(cfg, ema))
      ensures Capped(cfg, ema, amount) == 0 ==>
                healthy && exists v :: v in [old(cost)] + others && cost == Decay(cfg, v)
    {
      hide MaxCost, Smoothed;
      var capped := amount;
      if ema != 0 && ema * cfg.multiple < amount {
        capped := ema * cfg.multiple;
      }
      if capped != 0 {
        cost := cost + capped;
        return cost <= MaxCost(cfg, ema);
      }
      var seen := cost;
      var k := 0;
      while seen != 0
        invariant 0 <= k <= |others|
        invariant cost == seen && seen in [old(cost)] + others
        invariant others == [] ==> seen == old(cost)
        decreases |others| - k
      {
        var next := if seen < cfg.minCost then 0 else Smoothed(cfg, seen);
        assert next == Decay(cfg, seen);
        if k < |others| {
          cost := others[k];
          k := k + 1;
        }
        if cost == seen {
          cost := next;
          return true;
        }
        seen := cost;
      }
      assert Decay(cfg, seen) == seen;
      healthy := true;
    }

    method OnCallEnd(code: int, latency: int) returns (healthy: bool)
      requires Sane(cfg)
      modifies this
      ensures (View(), healthy) == Ended(cfg, old(View()), Key(code != 0, latency))
    {
      if code == 0 {
        var next := UpdateLatency(latency, []);
        healthy := UpdateErrorCost(0, next, []);
      } else {
        healthy := UpdateErrorCost(latency, ema, []);
      }
      if samples < cfg.window {
        samples := samples + 1;
        if code != 0 {
          errors := errors + 1;
          return errors - 1 < cfg.window * cfg.percent / 100;
        }
        return true;
      }
    }

    method Reset()
      modifies this
      ensures View() == Emptied(cfg, old(View()))
    {
      if samples < cfg.window {
        samples, errors, ema := 0, 0, 0;
      }
      cost := 0;
    }
  }

  /** The fields of a CircuitBreaker. */
  datatype Fields = Fields(
    long: Recorder,
    short: Recorder,
    broken: bool,
    isolatedTimes: int,
    duration: int,
    lastReset: int)

  function Marked(f: BM.Flags, b: Fields, now: int): Fields {
    if b.broken then b
    else b.(broken := true,
            isolatedTimes := b.isolatedTimes + 1,
            duration := BM.Lengthened(f, b.duration, BM.Quick(f, now, b.lastReset)))
  }

  /** OnCallEnd of the breaker: the short window is not told about a call that
      the long one finds unhealthy. */
  function CallEnded(f: BM.Flags, b: Fields, code: int, latency: int, now: int): (Fields, bool)
    requires BM.SaneFlags(f)
  {
    if code == BM.ELIMIT then
      (b, true)
    else if b.broken then
      (b, false)
    else
      var (long, ok) := Ended(f.long, b.long, Key(code != 0, latency));
      if !ok then
        (Marked(f, b.(long := long), now), false)
      else
        var (short, fine) := Ended(f.short, b.short, Key(code != 0, latency));
        var c := b.(long := long, short := short);
        if fine then (c, true) else (Marked(f, c, now), false)
  }

  function Rearmed(f: BM.Flags, b: Fields, now: int): Fields {
    b.(long := Emptied(f.long, b.long),
       short := Emptied(f.short, b.short),
       lastReset := now,
       broken := false)
  }

  class CircuitBreaker {
    const flags: BM.Flags
    const long: EmaErrorRecorder
    const short: EmaErrorRecorder
    var broken: bool
    var isolatedTimes: int
    var duration: int
    var lastReset: int

    ghost predicate Valid()
      reads this
    {
      && BM.SaneFlags(flags) && long != short && long.cfg == flags.long && short.cfg == flags.short
      && flags.minIsolation <= duration <= flags.maxIsolation
    }

    ghost function View(): Fields
      reads this, long, short
    {
      Fields(long.View(), short.View(), broken, isolatedTimes, duration, lastReset)
    }

    constructor (f: BM.Flags)
      requires BM.SaneFlags(f)
      ensures Valid() && flags == f && fresh(long) && fresh(short)
      ensures View() == Fields(EMPTY, EMPTY, false, 0, f.minIsolation, 0)
    {
      flags := f;
      long := new EmaErrorRecorder(f.long);
      short := new EmaErrorRecorder(f.short);
      broken, isolatedTimes, duration, lastReset := false, 0, f.minIsolation, 0;
    }

    method OnCallEnd(code: int, latency: int, now: int) returns (healthy: bool)
      requires Valid()
      modifies this, long, short
      ensures Valid() && (View(), healthy) == CallEnded(flags, old(View()), code, latency, now)
      ensures code == BM.ELIMIT ==> healthy && View() == old(View())
      ensures code != BM.ELIMIT ==> (broken <==> !healthy)
      ensures old(broken) ==> View() == old(View())
      ensures isolatedTimes == old(isolatedTimes) + if broken && !old(broken) then 1 else 0
    {
      if code == BM.ELIMIT {
        return true;
      }
      if broken {
        return false;
      }
      healthy := long.OnCallEnd(code, latency);
      if healthy {
        healthy := short.OnCallEnd(code, latency);
        if healthy {
          return;
        }
      }
      MarkAsBroken(now);
    }

    method Reset(now: int)
      requires Valid()
      modifies this, long, short
      ensures Valid() && View() == Rearmed(flags, old(View()), now)
      ensures !broken && isolatedTimes == old(isolatedTimes) && duration == old(duration)
    {
      long.Reset();
      short.Reset();
      lastReset := now;
      broken := false;
    }

    method MarkAsBroken(now: int)
      requires Valid()
      modifies this
      ensures Valid() && View() == Marked(flags, old(View()), now)
      ensures broken && (old(broken) ==> View() == old(View()))
      ensures isolatedTimes == old(isolatedTimes) + if old(broken) then 0 else 1
    {
      if !broken {
        broken := true;
        isolatedTimes := isolatedTimes + 1;
        UpdateIsolationDuration(now);
      }
    }

    method UpdateIsolationDuration(now: int)
      modifies this`duration
      ensures duration == BM.Lengthened(flags, old(duration), BM.Quick(flags, now, lastReset))
      ensures now - lastReset >= flags.maxIsolation ==> duration == flags.minIsolation
      ensures now - lastReset < flags.maxIsolation ==>
                duration == 2 * old(duration) <= flags.maxIsolation || 2 * old(duration) > duration == flags.maxIsolation
    {
      if now - lastReset < flags.maxIsolation {
        duration := if duration * 2 < flags.maxIsolation then duration * 2 else flags.maxIsolation;
      } else {
        duration := flags.minIsolation;
      }
    }
  }
}
