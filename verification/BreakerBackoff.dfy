/** The isolation duration in terms of time: how long after the latest Reset the
    breaks come decides how it grows. */
module BreakerBackoff {
  import opened Bytes
  import opened BreakerMath
  import opened BreakerMachine
  import opened BreakerTheorems
  import RM = RecorderMachine

  /** The milliseconds since the latest Reset that took effect, after one event. */
  function Elapsed(s: State, elapsed: int, e: Event): int {
    match e
    case Tick(ms) => elapsed + ms
    case Reset => if AllDone(s) then 0 else elapsed
    case _ => elapsed
  }

  function ElapsedAfter(f: Flags, s: State, elapsed: int, events: seq<Event>): int
    requires SaneFlags(f)
    decreases |events|
  {
    if events == [] then elapsed
    else ElapsedAfter(f, Step(f, s, events[0]), Elapsed(s, elapsed, events[0]), events[1..])
  }

  /** The event lets a call that breaks the breaker read the clock. */
  predicate ReadsClock(s: State, e: Event) {
    e.Go? && e.i < |s.procs| && s.procs[e.i].at.Timing?
  }

  /** How long after the latest Reset each break came. */
  function BreakTimes(f: Flags, s: State, elapsed: int, events: seq<Event>): seq<int>
    requires SaneFlags(f)
    decreases |events|
  {
    if events == [] then []
    else
      var later := BreakTimes(f, Step(f, s, events[0]), Elapsed(s, elapsed, events[0]), events[1..]);
      if ReadsClock(s, events[0]) then [elapsed] + later else later
  }

  /** What the durations should be: doubled up to the maximum by a break that
      comes sooner than that after a Reset, back to the minimum by a later one. */
  function Grown(min: int, max: int, duration: int, times: seq<int>): int
    decreases |times|
  {
    if times == [] then duration
    else Grown(min, max, if times[0] < max then AtMost(2 * duration, max) else min, times[1..])
  }

  ghost function Sooner(max: int, times: seq<int>): seq<bool> {
    seq(|times|, i requires 0 <= i < |times| => times[i] < max)
  }

  lemma StepGaps(f: Flags, s: State, elapsed: int, e: Event)
    requires SaneFlags(f) && s.now - s.b.lastReset == elapsed
    ensures var t := Step(f, s, e);
            && t.now - t.b.lastReset == Elapsed(s, elapsed, e)
            && t.gaps == s.gaps + if ReadsClock(s, e) then [elapsed < f.maxIsolation] else []
  {
    hide RM.Act, RM.Entered, RM.Cleared;
  }

  lemma {:induction false} RunGaps(f: Flags, s: State, elapsed: int, events: seq<Event>)
    requires SaneFlags(f) && s.now - s.b.lastReset == elapsed
    ensures var t := Run(f, s, events);
            && t.now - t.b.lastReset == ElapsedAfter(f, s, elapsed, events)
            && t.gaps == s.gaps + Sooner(f.maxIsolation, BreakTimes(f, s, elapsed, events))
    decreases |events|
  {
    hide Step, Elapsed;
    if events == [] {
      assert s.gaps + Sooner(f.maxIsolation, []) == s.gaps;
    } else {
      var e := events[0];
      var t := Step(f, s, e);
      StepGaps(f, s, elapsed, e);
      RunGaps(f, t, Elapsed(s, elapsed, e), events[1..]);
      var later := BreakTimes(f, t, Elapsed(s, elapsed, e), events[1..]);
      if ReadsClock(s, e) {
        assert Sooner(f.maxIsolation, [elapsed] + later) == [elapsed < f.maxIsolation] + Sooner(f.maxIsolation, later);
      }
    }
  }

  lemma {:induction false} BackoffGrows(f: Flags, gaps: seq<bool>, times: seq<int>)
    requires SaneFlags(f)
    ensures Backoff(f, gaps + Sooner(f.maxIsolation, times))
         == Grown(f.minIsolation, f.maxIsolation, Backoff(f, gaps), times)
    decreases |times|
  {
    var quick := Sooner(f.maxIsolation, times);
    if times == [] {
      assert gaps + quick == gaps;
    } else {
      var g := gaps + [quick[0]];
      assert gaps + quick == g + Sooner(f.maxIsolation, times[1..]);
      assert g[..|g| - 1] == gaps;
      BackoffGrows(f, g, times[1..]);
    }
  }

  ghost predicate AllBefore(times: seq<int>, max: int) {
    forall k :: 0 <= k < |times| ==> times[k] < max
  }

  lemma {:induction false} GrownDoubles(f: Flags, d: int, times: seq<int>)
    requires SaneFlags(f) && 0 <= d <= f.maxIsolation && AllBefore(times, f.maxIsolation)
    ensures Grown(f.minIsolation, f.maxIsolation, d, times) == AtMost(d * Pow2(|times|), f.maxIsolation)
    decreases |times|
  {
    if times != [] {
      var next := AtMost(2 * d, f.maxIsolation);
      GrownDoubles(f, next, times[1..]);
      DoubledFirst(f, d, |times| - 1);
    }
  }

  lemma DoubledFirst(f: Flags, d: int, k: nat)
    requires SaneFlags(f) && 0 <= d <= f.maxIsolation
    ensures AtMost(AtMost(2 * d, f.maxIsolation) * Pow2(k), f.maxIsolation) == AtMost(d * Pow2(k + 1), f.maxIsolation)
  {
    var p := Pow2(k);
    PowPositive(k);
    assert d * Pow2(k + 1) == (2 * d) * p;
    if 2 * d >= f.maxIsolation {
      Larger(f.maxIsolation, p);
      Larger(2 * d, p);
    }
  }

  lemma {:induction false} PowPositive(k: nat)
    ensures Pow2(k) >= 1
  {
    if k > 0 {
      PowPositive(k - 1);
    }
  }

  lemma Larger(x: int, p: nat)
    requires x >= 0 && p >= 1
    ensures x * p >= x
  {
    assert x * p == x + x * (p - 1);
    assert x * (p - 1) >= 0;
  }

  lemma {:induction false} GrownFallsBack(min: int, max: int, d: int, times: seq<int>)
    requires times != [] && times[|times| - 1] >= max
    ensures Grown(min, max, d, times) == min
    decreases |times|
  {
    if |times| > 1 {
      GrownFallsBack(min, max, if times[0] < max then AtMost(2 * d, max) else min, times[1..]);
    }
  }

  /** Between any two settled moments of any run: each break reads the clock once;
      the duration is what the times of the breaks make it; k breaks that each
      come sooner than the maximum after the latest Reset take a duration d to
      min(max, d * 2^k), and a last one that comes later takes it to the minimum. */
  lemma DurationFollowsTime(f: Flags, now: int, events: seq<Event>, more: seq<Event>)
    requires SaneFlags(f) && AllDone(Reached(f, now, events)) && AllDone(Run(f, Reached(f, now, events), more))
    ensures var s := Reached(f, now, events);
            var t := Run(f, s, more);
            var times := BreakTimes(f, s, ElapsedAfter(f, Initial(f, now), now, events), more);
            && t.b.isolatedTimes == s.b.isolatedTimes + |times|
            && t.b.duration == Grown(f.minIsolation, f.maxIsolation, s.b.duration, times)
            && (AllBefore(times, f.maxIsolation) ==> t.b.duration == AtMost(s.b.duration * Pow2(|times|), f.maxIsolation))
            && (times != [] && times[|times| - 1] >= f.maxIsolation ==> t.b.duration == f.minIsolation)
  {
    hide Run, Step, Backoff, Grown, BreakTimes, ElapsedAfter, Pow2, AtMost;
    var s := Reached(f, now, events);
    RunGaps(f, Initial(f, now), now, events);
    var elapsed := ElapsedAfter(f, Initial(f, now), now, events);
    var times := BreakTimes(f, s, elapsed, more);
    RunGaps(f, s, elapsed, more);
    Reachable(f, now, events);
    RunKeeps(f, s, more);
    BackoffGrows(f, s.gaps, times);
    BackoffWithin(f, s.gaps);
    if AllBefore(times, f.maxIsolation) {
      GrownDoubles(f, s.b.duration, times);
    }
    if times != [] && times[|times| - 1] >= f.maxIsolation {
      GrownFallsBack(f.minIsolation, f.maxIsolation, s.b.duration, times);
    }
  }
}
