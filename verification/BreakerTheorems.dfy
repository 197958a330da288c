/** The latch, the count of isolations and the back-off of the circuit breaker
    over every interleaving of calls. */
module BreakerTheorems {
  import opened Bytes
  import opened BreakerMath
  import opened BreakerMachine
  import RM = RecorderMachine

  /** The duration after breaks with the given gaps, oldest first. */
  function Backoff(f: Flags, gaps: seq<bool>): int {
    if gaps == [] then f.minIsolation
    else Lengthened(f, Backoff(f, gaps[..|gaps| - 1]), gaps[|gaps| - 1])
  }

  predicate Busy(stage: Stage) {
    stage.Winning? || stage.Timing? || stage.Storing?
  }

  /** At most one call carries out a break, and the latch is set meanwhile. */
  ghost predicate OneWinner(s: State) {
    && (forall i :: 0 <= i < |s.procs| && Busy(s.procs[i].at) ==> s.winner == Some(i))
    && (s.winner.Some? ==> s.b.broken && s.winner.value < |s.procs| && Busy(s.procs[s.winner.value].at))
  }

  /** A call that has returned false has left the latch set. */
  ghost predicate Latched(s: State) {
    forall i :: 0 <= i < |s.procs| && s.procs[i].at == Done(false) ==> s.b.broken
  }

  function Breaks(s: State): nat {
    s.epochs + if s.b.broken then 1 else 0
  }

  /** Every break is counted once and has lengthened the duration once, up to
      what its winner has still to do. */
  ghost predicate Counted(f: Flags, s: State) {
    match s.winner
    case None =>
      s.b.isolatedTimes == Breaks(s) == |s.gaps| && s.b.duration == Backoff(f, s.gaps)
    case Some(i) =>
      i < |s.procs| &&
      match s.procs[i].at
      case Winning => s.b.isolatedTimes + 1 == Breaks(s) == |s.gaps| + 1 && s.b.duration == Backoff(f, s.gaps)
      case Timing => s.b.isolatedTimes == Breaks(s) == |s.gaps| + 1 && s.b.duration == Backoff(f, s.gaps)
      case Storing(d) =>
        && s.b.isolatedTimes == Breaks(s) == |s.gaps| > 0
        && s.b.duration == Backoff(f, s.gaps[..|s.gaps| - 1])
        && d == Backoff(f, s.gaps)
      case _ => false
  }

  ghost predicate Inv(f: Flags, s: State)
    requires SaneFlags(f)
  {
    OneWinner(s) && Latched(s) && Counted(f, s)
  }

  lemma MarkKeeps(f: Flags, s: State, i: nat)
    requires i < |s.procs| && Marks(s.procs[i].at) && OneWinner(s) && Latched(s) && Counted(f, s)
    ensures var t := Mark(f, s, i); OneWinner(t) && Latched(t) && Counted(f, t)
  {
    hide Lengthened, Quick;
    var t := Mark(f, s, i);
    if s.procs[i].at.Timing? {
      assert t.gaps[..|t.gaps| - 1] == s.gaps;
    }
  }

  lemma SampleKeeps(f: Flags, s: State, i: nat, lucky: bool)
    requires SaneFlags(f) && i < |s.procs| && s.procs[i].caller.OnCallEnd? && !Marks(s.procs[i].at)
    requires OneWinner(s) && Latched(s) && Counted(f, s)
    ensures var t := Sample(f, s, i, lucky); OneWinner(t) && Latched(t) && Counted(f, t)
  {
    hide RM.Act, RM.Entered, Backoff;
  }

  lemma AppendKeeps(f: Flags, s: State, p: Proc)
    requires SaneFlags(f) && Inv(f, s) && (p.at.Entering? || p.at.Marking?)
    ensures Inv(f, s.(procs := s.procs + [p]))
  {
    hide Backoff;
  }

  lemma ResetKeeps(f: Flags, s: State)
    requires SaneFlags(f) && Inv(f, s) && AllDone(s)
    ensures Inv(f, Step(f, s, Reset))
  {
    hide Backoff, RM.Cleared;
  }

  lemma StepKeeps(f: Flags, s: State, e: Event)
    requires SaneFlags(f) && Inv(f, s)
    ensures Inv(f, Step(f, s, e))
  {
    match e {
      case Call(code, latency) =>
        AppendKeeps(f, s, Proc(OnCallEnd(code, latency), Entering));
      case Break =>
        AppendKeeps(f, s, Proc(Isolate, Marking));
      case Go(i, lucky) =>
        GoKeeps(f, s, i, lucky);
      case Reset =>
        if AllDone(s) {
          ResetKeeps(f, s);
        }
      case Tick(_) =>
    }
  }

  lemma GoKeeps(f: Flags, s: State, i: nat, lucky: bool)
    requires SaneFlags(f) && Inv(f, s)
    ensures Inv(f, Step(f, s, Go(i, lucky)))
  {
    hide OneWinner, Latched, Counted, Sample;
    if i < |s.procs| {
      if Marks(s.procs[i].at) {
        MarkKeeps(f, s, i);
      } else if s.procs[i].caller.OnCallEnd? {
        SampleKeeps(f, s, i, lucky);
      }
    }
  }

  lemma {:induction false} RunKeeps(f: Flags, s: State, events: seq<Event>)
    requires SaneFlags(f) && Inv(f, s)
    ensures Inv(f, Run(f, s, events))
    decreases |events|
  {
    if events != [] {
      hide Inv, Step;
      StepKeeps(f, s, events[0]);
      RunKeeps(f, Step(f, s, events[0]), events[1..]);
    }
  }

  ghost function Reached(f: Flags, now: int, events: seq<Event>): State
    requires SaneFlags(f)
  {
    Run(f, Initial(f, now), events)
  }

  lemma Reachable(f: Flags, now: int, events: seq<Event>)
    requires SaneFlags(f)
    ensures Inv(f, Reached(f, now, events))
  {
    RunKeeps(f, Initial(f, now), events);
  }

  // The latch.

  /** What a call that started after a break can be: not yet looked at, or
      returned with false; only ELIMIT is answered with true. */
  ghost predicate Refused(p: Proc) {
    p.caller.OnCallEnd? ==>
      p.at.Entering? || p.at == Done(p.caller.code == ELIMIT)
  }

  ghost predicate RefusedFrom(s: State, n: nat) {
    s.b.broken && n <= |s.procs| && forall i :: n <= i < |s.procs| ==> Refused(s.procs[i])
  }

  lemma StepRefuses(f: Flags, s: State, e: Event, n: nat)
    requires SaneFlags(f) && RefusedFrom(s, n) && !e.Reset?
    ensures RefusedFrom(Step(f, s, e), n)
  {
    hide RM.Act, RM.Entered;
  }

  lemma {:induction false} RunRefuses(f: Flags, s: State, events: seq<Event>, n: nat)
    requires SaneFlags(f) && RefusedFrom(s, n)
    requires forall k :: 0 <= k < |events| ==> !events[k].Reset?
    ensures RefusedFrom(Run(f, s, events), n)
    decreases |events|
  {
    if events != [] {
      hide Step, RefusedFrom;
      StepRefuses(f, s, events[0], n);
      RunRefuses(f, Step(f, s, events[0]), events[1..], n);
    }
  }

  /** A call that has returned false has set the latch. Once it is set, every
      call that starts later returns false, unless its code is ELIMIT, until
      the next Reset; and the breaker stays broken. */
  lemma LatchHolds(f: Flags, now: int, events: seq<Event>, more: seq<Event>)
    requires SaneFlags(f)
    requires forall k :: 0 <= k < |more| ==> !more[k].Reset?
    ensures var s := Reached(f, now, events);
            var t := Run(f, s, more);
            && (forall i :: 0 <= i < |s.procs| && s.procs[i].at == Done(false) ==> s.b.broken)
            && (s.b.broken ==>
                && t.b.broken
                && |s.procs| <= |t.procs|
                && forall j :: |s.procs| <= j < |t.procs| && t.procs[j].caller.OnCallEnd? && t.procs[j].at.Done? ==>
                     t.procs[j].at.healthy == (t.procs[j].caller.code == ELIMIT))
  {
    hide Run, Step, Counted;
    var s := Reached(f, now, events);
    Reachable(f, now, events);
    if s.b.broken {
      RunRefuses(f, s, more, |s.procs|);
    }
  }

  // Isolations and their duration.

  /** Once all calls have returned there was one isolation per break, however
      many calls found the server unhealthy at the same time. */
  lemma OneIsolationPerBreak(f: Flags, now: int, events: seq<Event>)
    requires SaneFlags(f) && AllDone(Reached(f, now, events))
    ensures var s := Reached(f, now, events);
            && s.b.isolatedTimes == s.epochs + (if s.b.broken then 1 else 0)
            && s.b.duration == Backoff(f, s.gaps)
            && |s.gaps| == s.b.isolatedTimes
  {
    hide Run, Step, Backoff;
    Reachable(f, now, events);
  }

  lemma {:induction false} BackoffWithin(f: Flags, gaps: seq<bool>)
    requires SaneFlags(f)
    ensures f.minIsolation <= Backoff(f, gaps) <= f.maxIsolation
  {
    if gaps != [] {
      BackoffWithin(f, gaps[..|gaps| - 1]);
    }
  }

  /** At any moment of any run the duration is between the minimum and the
      maximum. */
  lemma DurationWithin(f: Flags, now: int, events: seq<Event>)
    requires SaneFlags(f)
    ensures var s := Reached(f, now, events);
            f.minIsolation <= s.b.duration <= f.maxIsolation
  {
    hide Run, Step, Backoff;
    Reachable(f, now, events);
    var s := Reached(f, now, events);
    BackoffWithin(f, s.gaps);
    if |s.gaps| > 0 {
      BackoffWithin(f, s.gaps[..|s.gaps| - 1]);
    }
  }

  function Pow2(k: nat): nat {
    if k == 0 then 1 else 2 * Pow2(k - 1)
  }

  function AtMost(x: int, max: int): int {
    if x < max then x else max
  }
}
