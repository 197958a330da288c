/** The circuit breaker under concurrent calls: two windows, the latch, and the
    isolation duration that grows with quick failures. */
module BreakerMachine {
  import opened Bytes
  import opened BreakerMath
  import RM = RecorderMachine

  const ELIMIT := 2004

  datatype Flags = Flags(long: Config, short: Config, minIsolation: int, maxIsolation: int)

  predicate SaneFlags(f: Flags) {
    Sane(f.long) && Sane(f.short) && 0 <= f.minIsolation <= f.maxIsolation
  }

  datatype Caller = OnCallEnd(code: int, latency: int) | Isolate

  /** Where a call is; Marking to Storing is MarkAsBroken. */
  datatype Stage =
    | Entering
    | Admitted
    | InLong(pc: RM.Pc)
    | InShort(pc: RM.Pc)
    | Marking
    | Winning
    | Timing
    | Storing(duration: int)
    | Done(healthy: bool)

  datatype Proc = Proc(caller: Caller, at: Stage)

  /** The object. */
  datatype Breaker = Breaker(
    long: RM.Window,
    short: RM.Window,
    broken: bool,
    isolatedTimes: int,
    duration: int,
    lastReset: int)

  /** What a window was told: the latencies of successful calls and the number
      of calls since it was emptied, and the calls since the last Reset. */
  datatype Tally = Tally(succeeded: multiset<int>, calls: nat, recent: multiset<RM.Key>)

  const NOTHING := Tally(multiset{}, 0, multiset{})

  function Told(t: Tally, key: RM.Key): Tally {
    Tally(if key.error then t.succeeded else t.succeeded + multiset{key.latency}, t.calls + 1, t.recent + multiset{key})
  }

  function Retold(cfg: Config, w: RM.Window, t: Tally): Tally {
    if w.rec.samples < cfg.window then NOTHING else t.(recent := multiset{})
  }

  /** `gaps` records of every break whether it came quickly after the last
      Reset, `epochs` counts the Resets of a broken breaker, and `winner` is
      the call that is carrying out the current break. */
  datatype State = State(
    b: Breaker,
    now: int,
    procs: seq<Proc>,
    gaps: seq<bool>,
    epochs: nat,
    winner: Option<nat>,
    longTally: Tally,
    shortTally: Tally)

  function Empty(): RM.Window {
    RM.Window(RM.EMPTY, RM.BLANK)
  }

  function Created(f: Flags): Breaker {
    Breaker(Empty(), Empty(), false, 0, f.minIsolation, 0)
  }

  function Initial(f: Flags, now: int): State {
    State(Created(f), now, [], [], 0, None, NOTHING, NOTHING)
  }

  function Lengthened(f: Flags, duration: int, quick: bool): int {
    if !quick then f.minIsolation
    else if duration * 2 < f.maxIsolation then duration * 2
    else f.maxIsolation
  }

  predicate Quick(f: Flags, now: int, lastReset: int) {
    now - lastReset < f.maxIsolation
  }

  datatype Event = Call(code: int, latency: int) | Break | Go(i: nat, lucky: bool) | Reset | Tick(ms: nat)

  predicate AllDone(s: State) {
    forall i :: 0 <= i < |s.procs| ==> s.procs[i].at.Done?
  }

  function At(s: State, i: nat, stage: Stage): seq<Proc>
    requires i < |s.procs|
  {
    s.procs[i := s.procs[i].(at := stage)]
  }

  /** What a call does next before it marks the breaker as broken. */
  function Sample(f: Flags, s: State, i: nat, lucky: bool): State
    requires SaneFlags(f) && i < |s.procs| && s.procs[i].caller.OnCallEnd?
  {
    var OnCallEnd(code, latency) := s.procs[i].caller;
    var key := RM.Key(code != 0, latency);
    match s.procs[i].at
    case Entering =>
      s.(procs := At(s, i, if code == ELIMIT then Done(true) else if s.b.broken then Done(false) else Admitted))
    case Admitted =>
      s.(procs := At(s, i, InLong(RM.Entered(s.b.long, key))), longTally := Told(s.longTally, key))
    case InLong(pc) =>
      if pc.Returned? then
        if pc.healthy then
          s.(procs := At(s, i, InShort(RM.Entered(s.b.short, key))), shortTally := Told(s.shortTally, key))
        else
          s.(procs := At(s, i, Marking))
      else
        var (w, q) := RM.Act(f.long, s.b.long, pc, lucky);
        s.(b := s.b.(long := w), procs := At(s, i, InLong(q)))
    case InShort(pc) =>
      if pc.Returned? then
        s.(procs := At(s, i, if pc.healthy then Done(true) else Marking))
      else
        var (w, q) := RM.Act(f.short, s.b.short, pc, lucky);
        s.(b := s.b.(short := w), procs := At(s, i, InShort(q)))
    case _ => s
  }

  /** MarkAsBroken and UpdateIsolationDuration. */
  function Mark(f: Flags, s: State, i: nat): State
    requires i < |s.procs|
  {
    match s.procs[i].at
    case Marking =>
      if s.b.broken then
        s.(procs := At(s, i, Done(false)))
      else
        s.(b := s.b.(broken := true), procs := At(s, i, Winning), winner := Some(i))
    case Winning =>
      s.(b := s.b.(isolatedTimes := s.b.isolatedTimes + 1), procs := At(s, i, Timing))
    case Timing =>
      var quick := Quick(f, s.now, s.b.lastReset);
      s.(gaps := s.gaps + [quick], procs := At(s, i, Storing(Lengthened(f, s.b.duration, quick))))
    case Storing(d) =>
      s.(b := s.b.(duration := d), procs := At(s, i, Done(false)), winner := None)
    case _ => s
  }

  predicate Marks(stage: Stage) {
    stage.Marking? || stage.Winning? || stage.Timing? || stage.Storing?
  }

  /** Reset is called while no one else is using the breaker. */
  function Step(f: Flags, s: State, e: Event): State
    requires SaneFlags(f)
  {
    match e
    case Call(code, latency) => s.(procs := s.procs + [Proc(OnCallEnd(code, latency), Entering)])
    case Break => s.(procs := s.procs + [Proc(Isolate, Marking)])
    case Go(i, lucky) =>
      if i >= |s.procs| then s
      else if Marks(s.procs[i].at) then Mark(f, s, i)
      else if s.procs[i].caller.OnCallEnd? then Sample(f, s, i, lucky)
      else s
    case Reset =>
      if AllDone(s) then
        s.(b := s.b.(long := RM.Cleared(f.long, s.b.long),
                     short := RM.Cleared(f.short, s.b.short),
                     lastReset := s.now,
                     broken := false),
           procs := [],
           longTally := Retold(f.long, s.b.long, s.longTally),
           shortTally := Retold(f.short, s.b.short, s.shortTally),
           epochs := if s.b.broken then s.epochs + 1 else s.epochs)
      else
        s
    case Tick(ms) => s.(now := s.now + ms)
  }

  function Run(f: Flags, s: State, events: seq<Event>): State
    requires SaneFlags(f)
    decreases |events|
  {
    if events == [] then s else Run(f, Step(f, s, events[0]), events[1..])
  }
}
