/** When the circuit breaker breaks: the number of failures in a row that a fresh
    one and a warm one take. */
module BreakerBreaks {
  import opened BreakerMath
  import opened RecorderMachine
  import opened BreakerVerdicts
  import opened BreakerObjects
  import BM = BreakerMachine

  /** The end of one call, and when it came. */
  datatype Call = Call(code: int, latency: int, now: int)

  ghost predicate Failures(calls: seq<Call>) {
    forall k :: 0 <= k < |calls| ==> calls[k].code != 0 && calls[k].code != BM.ELIMIT
  }

  /** The breaker after the calls, and the last answer. */
  function After(f: BM.Flags, b: Fields, calls: seq<Call>): (Fields, bool)
    requires BM.SaneFlags(f)
  {
    if calls == [] then (b, true)
    else
      var n := |calls| - 1;
      CallEnded(f, After(f, b, calls[..n]).0, calls[n].code, calls[n].latency, calls[n].now)
  }

  /** `n` errors are more than the error percentage of the window. */
  predicate TooMany(cfg: Config, n: nat) {
    100 * n > cfg.window * cfg.percent
  }

  lemma FillingCall(cfg: Config, rec: Recorder, latency: int)
    requires Sane(cfg) && 0 <= rec.errors == rec.samples < cfg.window
    ensures var (after, healthy) := Ended(cfg, rec, Key(true, latency));
            after.samples == after.errors == rec.errors + 1 && (healthy <==> !TooMany(cfg, rec.errors + 1))
  {
    hide Tolerated, MaxCost, Decay, Capped;
    ToleratedIff(cfg, rec.errors);
  }

  /** A fresh breaker and n failed calls, no more than either window holds: it is
      broken, once, if and only if n is beyond the error percentage of the long or
      of the short window; the last call is answered accordingly. */
  lemma {:induction false} FreshBreaks(f: BM.Flags, calls: seq<Call>)
    requires BM.SaneFlags(f) && Failures(calls) && |calls| <= f.long.window && |calls| <= f.short.window
    ensures var n := |calls|;
            var (b, healthy) := After(f, Fields(EMPTY, EMPTY, false, 0, f.minIsolation, 0), calls);
            && (b.broken <==> TooMany(f.long, n) || TooMany(f.short, n))
            && (n > 0 ==> (healthy <==> !b.broken))
            && b.isolatedTimes == (if b.broken then 1 else 0)
            && (!b.broken ==> b.long.samples == b.long.errors == n && b.short.samples == b.short.errors == n)
  {
    hide Ended, BM.Lengthened, BM.Quick;
    if calls != [] {
      var n := |calls| - 1;
      FreshBreaks(f, calls[..n]);
      var b := After(f, Fields(EMPTY, EMPTY, false, 0, f.minIsolation, 0), calls[..n]).0;
      if !b.broken {
        FillingCall(f.long, b.long, calls[n].latency);
        FillingCall(f.short, b.short, calls[n].latency);
      }
    }
  }

  /** `n` errors of average latency are more than a full window allows. */
  ghost predicate Beyond(cfg: Config, n: nat) {
    100.0 * n as real > Allowance(cfg, 1)
  }

  /** The window is full, has seen successes of latency `ema` and no error since. */
  ghost predicate Warm(cfg: Config, rec: Recorder, ema: int) {
    && Sane(cfg) && cfg.epsilon >= 0.0 && cfg.multiple > 0
    && rec.samples >= cfg.window && rec.cost == 0 && rec.ema == ema > 0
  }

  lemma BeyondStays(cfg: Config, n: nat)
    requires Beyond(cfg, n)
    ensures Beyond(cfg, n + 1)
  {
    hide Allowance;
  }

  lemma WarmCall(cfg: Config, rec: Recorder, ema: int, n: nat)
    requires Warm(cfg, rec, ema)
    ensures var next := Ended(cfg, Failed(cfg, rec, ema, n).0, Key(true, ema));
            next == Failed(cfg, rec, ema, n + 1) && (next.1 <==> !Beyond(cfg, n + 1))
  {
    hide Ended, Allowance;
    FailuresInARow(cfg, rec, n + 1);
  }

  /** A warm breaker and n failed calls of average latency: it is broken if and
      only if n is beyond what the long or the short window allows. */
  lemma {:induction false} WarmBreaks(f: BM.Flags, b0: Fields, ema: int, calls: seq<Call>)
    requires BM.SaneFlags(f) && !b0.broken && Warm(f.long, b0.long, ema) && Warm(f.short, b0.short, ema)
    requires Failures(calls) && forall k :: 0 <= k < |calls| ==> calls[k].latency == ema
    ensures var n := |calls|;
            var (b, healthy) := After(f, b0, calls);
            && (b.broken <==> n > 0 && (Beyond(f.long, n) || Beyond(f.short, n)))
            && (n > 0 ==> (healthy <==> !b.broken))
            && b.isolatedTimes == b0.isolatedTimes + (if b.broken then 1 else 0)
            && (!b.broken ==> b.long == Failed(f.long, b0.long, ema, n).0 && b.short == Failed(f.short, b0.short, ema, n).0)
  {
    hide Ended, BM.Lengthened, BM.Quick, Warm, Beyond;
    if calls != [] {
      var n := |calls| - 1;
      WarmBreaks(f, b0, ema, calls[..n]);
      var b := After(f, b0, calls[..n]).0;
      WarmCall(f.long, b0.long, ema, n);
      WarmCall(f.short, b0.short, ema, n);
      if Beyond(f.long, n) {
        BeyondStays(f.long, n);
      }
      if Beyond(f.short, n) {
        BeyondStays(f.short, n);
      }
    }
  }
}
