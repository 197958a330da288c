/** Calls that do not overlap: their steps add up to one sequential call after
    the other. Calls that overlap need not have any such order. */
module RecorderSerial {
  import opened BreakerMath
  import opened RecorderMachine
  import RT = RecorderTheorems

  function Rank(w: Window, p: Pc): nat {
    match p
    case Averaging(_, seen) => if seen == w.rec.ema then 6 else 7
    case Costing(_, _, _) => 5
    case Forgetting(_, _, seen) => if seen == w.rec.cost then 4 else 5
    case Sampling(_, _) => 3
    case Counting(_, _) => 2
    case Erring => 1
    case Returned(_, _) => 0
  }

  /** A call that runs to its end with no other in between. */
  function Alone(cfg: Config, w: Window, p: Pc): (Window, Pc)
    requires Sane(cfg)
    decreases Rank(w, p)
  {
    if p.Returned? then (w, p) else var (v, q) := Act(cfg, w, p, true); Alone(cfg, v, q)
  }

  lemma AloneSampling(cfg: Config, w: Window, error: bool, healthy: bool)
    requires Sane(cfg)
    ensures var (v, q) := Alone(cfg, w, Sampling(error, healthy));
            var (rec, answer) := Sampled(cfg, w.rec, error, healthy);
            v.rec == rec && q == Returned(error, answer)
  {
    hide Tolerated, NextLatency, Decay, MaxCost, Capped;
    var (v1, q1) := Act(cfg, w, Sampling(error, healthy), true);
    var (v2, q2) := Act(cfg, v1, q1, true);
    var (v3, q3) := Act(cfg, v2, q2, true);
    assert Alone(cfg, w, Sampling(error, healthy)) == Alone(cfg, v1, q1) == Alone(cfg, v2, q2) == Alone(cfg, v3, q3);
  }

  lemma Unfolds(cfg: Config, w: Window, p: Pc)
    requires Sane(cfg) && !p.Returned?
    ensures var (v, q) := Act(cfg, w, p, true); Alone(cfg, w, p) == Alone(cfg, v, q)
  {
    hide Act;
  }

  /** A call gets from the error cost to the count of samples. */
  lemma CostingAlone(cfg: Config, w: Window, key: Key, at: nat, ema: int) returns (v: Window, healthy: bool)
    requires Sane(cfg)
    ensures (v.rec, healthy) == CostUpdated(cfg, w.rec, Amount(key), ema)
    ensures Alone(cfg, w, Costing(key, at, ema)) == Alone(cfg, v, Sampling(key.error, healthy))
  {
    hide Alone, Tolerated, MaxCost, Capped, Smoothed, NextLatency, Noted;
    var p := Costing(key, at, ema);
    Unfolds(cfg, w, p);
    var (v1, q1) := Act(cfg, w, p, true);
    if q1.Sampling? {
      v, healthy := v1, q1.healthy;
    } else {
      Unfolds(cfg, v1, q1);
      v, healthy := Act(cfg, v1, q1, true).0, true;
    }
  }

  lemma AloneCosting(cfg: Config, w: Window, key: Key, at: nat, ema: int)
    requires Sane(cfg)
    ensures var (v, q) := Alone(cfg, w, Costing(key, at, ema));
            var (updated, healthy) := CostUpdated(cfg, w.rec, Amount(key), ema);
            var (rec, answer) := Sampled(cfg, updated, key.error, healthy);
            v.rec == rec && q == Returned(key.error, answer)
  {
    hide Alone, Sampled, CostUpdated;
    var v, healthy := CostingAlone(cfg, w, key, at, ema);
    AloneSampling(cfg, v, key.error, healthy);
  }

  /** The steps of a call that no other call interrupts add up to Ended. */
  lemma AloneIsSequential(cfg: Config, w: Window, key: Key)
    requires Sane(cfg)
    ensures var (v, q) := Alone(cfg, w, Entered(w, key));
            var (rec, answer) := Ended(cfg, w.rec, key);
            v.rec == rec && q == Returned(key.error, answer)
  {
    hide CostUpdated, Sampled, NextLatency;
    if key.error {
      AloneCosting(cfg, w, key, |w.log.latencies|, w.rec.ema);
    } else {
      var p := Entered(w, key);
      var (v, q) := Act(cfg, w, p, true);
      assert Alone(cfg, w, p) == Alone(cfg, v, q);
      AloneCosting(cfg, v, key, |w.log.latencies| + 1, v.rec.ema);
    }
  }

  /** A failed call raises the error cost if and only if it took time and its
      cap is not zero; otherwise it lowers the cost as a success does, and a full
      window finds it healthy. */
  lemma FreeFailureIff(cfg: Config, rec: Recorder, latency: int)
    requires Sane(cfg) && latency >= 0 && rec.ema >= 0 && rec.cost >= 0
    ensures var (state, healthy) := Ended(cfg, rec, Key(true, latency));
            var after := state.cost;
            var free := latency == 0 || (rec.ema > 0 && cfg.multiple == 0);
            && (free && rec.samples >= cfg.window ==> healthy)
            && (after > rec.cost <==> !free)
            && (free ==> after == Decay(cfg, rec.cost))
            && (free && rec.cost > 0 ==> after < rec.cost)
  {
    hide Decay, MaxCost, Tolerated;
    if rec.ema > 0 && cfg.multiple > 0 {
      assert rec.ema * cfg.multiple > 0;
    }
    RT.CappedBounds(cfg, rec.ema, latency);
    DecayFalls(cfg, rec.cost);
  }

  // Calls one after the other.

  /** Calls and Resets come only when all earlier calls have returned. */
  ghost predicate Serial(cfg: Config, s: State, events: seq<Event>)
    requires Sane(cfg)
    decreases |events|
  {
    events == [] ||
    ((events[0].Go? || AllReturned(s)) && Serial(cfg, Step(cfg, s, events[0]), events[1..]))
  }

  /** The calls and Resets done one after the other, each in one piece. */
  function InTurn(cfg: Config, rec: Recorder, events: seq<Event>): Recorder
    requires Sane(cfg)
    decreases |events|
  {
    if events == [] then
      rec
    else
      var next := match events[0]
        case Call(key) => Ended(cfg, rec, key).0
        case Go(_, _) => rec
        case Reset => Emptied(cfg, rec);
      InTurn(cfg, next, events[1..])
  }

  /** What the call goes by is still in place. */
  ghost predicate UpToDate(w: Window, p: Pc) {
    && (p.Averaging? ==> p.seen == w.rec.ema)
    && (p.Forgetting? ==> p.seen == w.rec.cost != 0)
  }

  /** Only the latest call may be in progress. */
  ghost predicate Solo(s: State) {
    && (forall i :: 0 <= i < |s.procs| - 1 ==> s.procs[i].Returned?)
    && (s.procs != [] ==> UpToDate(s.w, s.procs[|s.procs| - 1]))
  }

  /** The recorder once the call in progress is finished. */
  function Goal(cfg: Config, s: State): Recorder
    requires Sane(cfg)
  {
    if s.procs == [] then s.w.rec else Alone(cfg, s.w, s.procs[|s.procs| - 1]).0.rec
  }

  lemma ActAlone(cfg: Config, w: Window, p: Pc, lucky: bool)
    requires Sane(cfg) && UpToDate(w, p)
    ensures var (v, q) := Act(cfg, w, p, lucky); UpToDate(v, q) && Alone(cfg, v, q) == Alone(cfg, w, p)
  {
    hide NextLatency, Decay, MaxCost, Capped, Tolerated;
  }

  lemma StepSolo(cfg: Config, s: State, e: Event)
    requires Sane(cfg) && Solo(s) && (e.Go? || AllReturned(s))
    ensures var t := Step(cfg, s, e);
            Solo(t) && Goal(cfg, t) == InTurn(cfg, Goal(cfg, s), [e])
  {
    hide Act, Ended;
    assert forall rec :: InTurn(cfg, rec, [e][1..]) == rec;
    match e {
      case Call(key) =>
        AloneIsSequential(cfg, s.w, key);
      case Go(i, lucky) =>
        if i == |s.procs| - 1 {
          ActAlone(cfg, s.w, s.procs[i], lucky);
        } else if i < |s.procs| {
          ReturnedStays(cfg, s.w, s.procs[i], lucky);
        }
      case Reset =>
    }
  }

  lemma ReturnedStays(cfg: Config, w: Window, p: Pc, lucky: bool)
    requires Sane(cfg) && p.Returned?
    ensures Act(cfg, w, p, lucky) == (w, p)
  {
  }

  lemma {:induction false} RunSolo(cfg: Config, s: State, events: seq<Event>)
    requires Sane(cfg) && Solo(s) && Serial(cfg, s, events)
    ensures var t := Run(cfg, s, events);
            Solo(t) && Goal(cfg, t) == InTurn(cfg, Goal(cfg, s), events)
    decreases |events|
  {
    if events != [] {
      hide Step, Solo, Goal, Ended;
      StepSolo(cfg, s, events[0]);
      RunSolo(cfg, Step(cfg, s, events[0]), events[1..]);
      assert [events[0]][1..] == [];
    }
  }

  /** Calls that do not overlap leave the recorder exactly as sequential calls
      in their order do: one order serves the average, the cost, the counts. */
  lemma SerialIsSequential(cfg: Config, events: seq<Event>)
    requires Sane(cfg) && Serial(cfg, INITIAL, events) && AllReturned(RT.Reached(cfg, events))
    ensures RT.Reached(cfg, events).w.rec == InTurn(cfg, EMPTY, events)
  {
    hide Run, Step, InTurn, Serial;
    RunSolo(cfg, INITIAL, events);
  }

  // Calls that overlap.

  const EXAMPLE := Config(10, 50, 0.5, 0.02, 0, 2)
  const FAILURE := Key(true, 1000)
  const SUCCESS := Key(false, 10)

  lemma {:induction false} RunConcat(cfg: Config, s: State, first: seq<Event>, second: seq<Event>)
    requires Sane(cfg)
    ensures Run(cfg, s, first + second) == Run(cfg, Run(cfg, s, first), second)
    decreases |first|
  {
    hide Step;
    if first == [] {
      assert first + second == second;
    } else {
      assert (first + second)[1..] == first[1..] + second;
      RunConcat(cfg, Step(cfg, s, first[0]), first[1..], second);
    }
  }

  /** Latencies are not negative, and nothing is reset. */
  ghost predicate Plain(events: seq<Event>) {
    forall k :: 0 <= k < |events| ==> RT.Feasible(events[k]) && !events[k].Reset?
  }

  lemma Then(events: seq<Event>, s: State, e: Event, t: State) returns (more: seq<Event>)
    requires Run(EXAMPLE, INITIAL, events) == s && Step(EXAMPLE, s, e) == t
    requires Plain(events) && RT.Feasible(e) && !e.Reset?
    ensures more == events + [e] && Run(EXAMPLE, INITIAL, more) == t && Plain(more)
  {
    hide Step;
    more := events + [e];
    RunConcat(EXAMPLE, INITIAL, events, [e]);
    assert [e][1..] == [] && Run(EXAMPLE, t, []) == t;
  }

  function Both(rec: Recorder, log: Log, first: Pc, second: Pc): State {
    State(Window(rec, log), [first, second], multiset{10}, 2, multiset{FAILURE, SUCCESS})
  }

  lemma BothEnter() returns (events: seq<Event>)
    ensures Plain(events)
    ensures Run(EXAMPLE, INITIAL, events) == Both(EMPTY, BLANK, Costing(FAILURE, 0, 0), Averaging(10, 0))
  {
    var s1 := State(Window(EMPTY, BLANK), [Costing(FAILURE, 0, 0)], multiset{}, 1, multiset{FAILURE});
    var s2 := Both(EMPTY, BLANK, Costing(FAILURE, 0, 0), Averaging(10, 0));
    events := Then([], INITIAL, Call(FAILURE), s1);
    hide Run, Plain;
    events := Then(events, s1, Call(SUCCESS), s2);
  }

  lemma SuccessOvertakes() returns (events: seq<Event>)
    ensures Plain(events)
    ensures Run(EXAMPLE, INITIAL, events)
         == Both(Recorder(0, 0, 0, 10), Log([10], [Forget], [SUCCESS], [1], [], 0, 0),
                 Costing(FAILURE, 0, 0), Sampling(false, true))
  {
    hide Run, Plain;
    var s2 := Both(EMPTY, BLANK, Costing(FAILURE, 0, 0), Averaging(10, 0));
    var s3 := Both(Recorder(0, 0, 0, 10), BLANK.(latencies := [10]), Costing(FAILURE, 0, 0), Costing(SUCCESS, 1, 10));
    var s4 := Both(Recorder(0, 0, 0, 10), Log([10], [Forget], [SUCCESS], [1], [], 0, 0),
                   Costing(FAILURE, 0, 0), Sampling(false, true));
    events := BothEnter();
    events := Then(events, s2, Go(1, true), s3);
    events := Then(events, s3, Go(1, true), s4);
  }

  lemma SuccessReturns() returns (events: seq<Event>)
    ensures Plain(events)
    ensures Run(EXAMPLE, INITIAL, events)
         == Both(Recorder(1, 0, 0, 10), Log([10], [Forget], [SUCCESS], [1], [], 1, 0),
                 Costing(FAILURE, 0, 0), Returned(false, true))
  {
    hide Run, Plain;
    var log := Log([10], [Forget], [SUCCESS], [1], [], 0, 0);
    var s1 := Both(Recorder(0, 0, 0, 10), log, Costing(FAILURE, 0, 0), Sampling(false, true));
    var s2 := Both(Recorder(0, 0, 0, 10), log, Costing(FAILURE, 0, 0), Counting(false, true));
    var s3 := Both(Recorder(1, 0, 0, 10), log.(judged := 1), Costing(FAILURE, 0, 0), Returned(false, true));
    events := SuccessOvertakes();
    events := Then(events, s1, Go(1, true), s2);
    events := Then(events, s2, Go(1, true), s3);
  }

  const LAST_LOG := Log([10], [Forget, Add(1000)], [SUCCESS, FAILURE], [1, 0], [], 1, 0)

  lemma FailureAdds() returns (events: seq<Event>)
    ensures Plain(events)
    ensures Run(EXAMPLE, INITIAL, events)
         == Both(Recorder(1, 0, 1000, 10), LAST_LOG, Counting(true, false), Returned(false, true))
  {
    hide Run, Plain;
    var s1 := Both(Recorder(1, 0, 0, 10), Log([10], [Forget], [SUCCESS], [1], [], 1, 0),
                   Costing(FAILURE, 0, 0), Returned(false, true));
    var s2 := Both(Recorder(1, 0, 1000, 10), LAST_LOG, Sampling(true, false), Returned(false, true));
    var s3 := Both(Recorder(1, 0, 1000, 10), LAST_LOG, Counting(true, false), Returned(false, true));
    events := SuccessReturns();
    events := Then(events, s1, Go(0, true), s2);
    events := Then(events, s2, Go(0, true), s3);
  }

  lemma FailureReturns() returns (events: seq<Event>)
    ensures Plain(events)
    ensures var s := Run(EXAMPLE, INITIAL, events);
            AllReturned(s) && s.recent == multiset{FAILURE, SUCCESS} && s.w.rec.cost == 1000
  {
    hide Run, Plain;
    var s3 := Both(Recorder(1, 0, 1000, 10), LAST_LOG, Counting(true, false), Returned(false, true));
    var s4 := Both(Recorder(2, 0, 1000, 10), LAST_LOG.(judged := 2), Erring, Returned(false, true));
    var s5 := Both(Recorder(2, 1, 1000, 10), LAST_LOG.(judged := 2, verdicts := [true]),
                   Returned(true, true), Returned(false, true));
    events := FailureAdds();
    events := Then(events, s3, Go(0, true), s4);
    events := Then(events, s4, Go(0, true), s5);
  }

  /** A failure that loaded the average before a success came, and adds its cost
      after it: no order of the two calls gives the cost they end with. */
  lemma NoOrderServes() returns (events: seq<Event>)
    ensures Plain(events)
    ensures var s := RT.Reached(EXAMPLE, events);
            && AllReturned(s) && s.recent == multiset{FAILURE, SUCCESS}
            && s.w.rec.cost != Ended(EXAMPLE, Ended(EXAMPLE, EMPTY, FAILURE).0, SUCCESS).0.cost
            && s.w.rec.cost != Ended(EXAMPLE, Ended(EXAMPLE, EMPTY, SUCCESS).0, FAILURE).0.cost
  {
    hide Run, Plain;
    events := FailureReturns();
  }
}
