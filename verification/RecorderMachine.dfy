/** One window of the circuit breaker under any number of concurrent calls.
    Every atomic load, add or compare-and-exchange is one step. */
module RecorderMachine {
  import opened BreakerMath

  /** The atomics of an EmaErrorRecorder. */
  datatype Recorder = Recorder(samples: int, errors: int, cost: int, ema: int)

  const EMPTY := Recorder(0, 0, 0, 0)

  /** A call, as OnCallEnd is told about it. */
  datatype Key = Key(error: bool, latency: int)

  /** What took effect so far, in the order in which it did. The operation
      ops[i] on the error cost came from a call keys[i] that had loaded the
      average when ats[i] latencies were in it. `judged` calls were decided by
      the error count while the window was filling, `passed` ones by the error
      cost. */
  datatype Log = Log(
    latencies: seq<int>,
    ops: seq<CostOp>,
    keys: seq<Key>,
    ats: seq<nat>,
    verdicts: seq<bool>,
    judged: nat,
    passed: nat)

  const BLANK := Log([], [], [], [], [], 0, 0)

  /** Where a call of OnCallEnd is. `at` is how many latencies were in the
      average that the call goes by. */
  datatype Pc =
    | Averaging(latency: int, seen: int)
    | Costing(key: Key, at: nat, ema: int)
    | Forgetting(key: Key, at: nat, seen: int)
    | Sampling(error: bool, healthy: bool)
    | Counting(error: bool, healthy: bool)
    | Erring
    | Returned(error: bool, healthy: bool)

  datatype Window = Window(rec: Recorder, log: Log)

  /** The cost a call reports before it is capped. */
  function Amount(key: Key): int {
    if key.error then key.latency else 0
  }

  /** The first load of a call. */
  function Entered(w: Window, key: Key): Pc {
    if key.error then Costing(key, |w.log.latencies|, w.rec.ema) else Averaging(key.latency, w.rec.ema)
  }

  function Noted(log: Log, op: CostOp, key: Key, at: nat): Log {
    log.(ops := log.ops + [op], keys := log.keys + [key], ats := log.ats + [at])
  }

  /** The load of the error cost before it is decayed. */
  function Loaded(key: Key, at: nat, w: Window): (Window, Pc) {
    if w.rec.cost == 0 then
      (w.(log := Noted(w.log, Forget, key, at)), Sampling(key.error, true))
    else
      (w, Forgetting(key, at, w.rec.cost))
  }

  /** One step of a call. A weak compare-and-exchange may fail for no reason,
      which is `lucky` being false. */
  function Act(cfg: Config, w: Window, p: Pc, lucky: bool): (Window, Pc)
    requires Sane(cfg)
  {
    var rec, log := w.rec, w.log;
    match p
    case Averaging(latency, seen) =>
      if lucky && rec.ema == seen then
        var next := NextLatency(cfg.smooth, seen, latency);
        (Window(rec.(ema := next), log.(latencies := log.latencies + [latency])),
         Costing(Key(false, latency), |log.latencies| + 1, next))
      else
        (w, Averaging(latency, rec.ema))
    case Costing(key, at, ema) =>
      var c := Capped(cfg, ema, Amount(key));
      if c != 0 then
        (Window(rec.(cost := rec.cost + c), Noted(log, Add(c), key, at)),
         Sampling(key.error, rec.cost + c <= MaxCost(cfg, ema)))
      else
        Loaded(key, at, w)
    case Forgetting(key, at, seen) =>
      if lucky && rec.cost == seen then
        (Window(rec.(cost := Decay(cfg, seen)), Noted(log, Forget, key, at)), Sampling(key.error, true))
      else
        Loaded(key, at, w)
    case Sampling(error, healthy) =>
      if rec.samples < cfg.window then
        (w, Counting(error, healthy))
      else
        (Window(rec, log.(passed := log.passed + 1)), Returned(error, healthy))
    case Counting(error, healthy) =>
      var counted := rec.(samples := rec.samples + 1);
      if rec.samples < cfg.window then
        (Window(counted, log.(judged := log.judged + 1)), if error then Erring else Returned(false, true))
      else
        (Window(counted, log.(passed := log.passed + 1)), Returned(error, healthy))
    case Erring =>
      var ok := rec.errors < Tolerated(cfg);
      (Window(rec.(errors := rec.errors + 1), log.(verdicts := log.verdicts + [ok])), Returned(true, ok))
    case Returned(_, _) => (w, p)
  }

  /** Reset keeps a filled window's average and forgets a partial one. */
  function Cleared(cfg: Config, w: Window): Window {
    Window(Emptied(cfg, w.rec),
           if w.rec.samples < cfg.window then BLANK else w.log.(ops := [], keys := [], ats := []))
  }

  /** `succeeded` and `calls` are the latencies of successful calls and the
      number of calls since the window was last emptied, `recent` the calls
      since the last Reset. */
  datatype State = State(w: Window, procs: seq<Pc>, succeeded: multiset<int>, calls: nat, recent: multiset<Key>)

  const INITIAL := State(Window(EMPTY, BLANK), [], multiset{}, 0, multiset{})

  datatype Event = Call(key: Key) | Go(i: nat, lucky: bool) | Reset

  predicate AllReturned(s: State) {
    forall i :: 0 <= i < |s.procs| ==> s.procs[i].Returned?
  }

  /** Reset is called while no one else is using the recorder. */
  function Step(cfg: Config, s: State, e: Event): State
    requires Sane(cfg)
  {
    match e
    case Call(key) =>
      s.(procs := s.procs + [Entered(s.w, key)],
         succeeded := if key.error then s.succeeded else s.succeeded + multiset{key.latency},
         calls := s.calls + 1,
         recent := s.recent + multiset{key})
    case Go(i, lucky) =>
      if i < |s.procs| then
        var (w, p) := Act(cfg, s.w, s.procs[i], lucky);
        s.(w := w, procs := s.procs[i := p])
      else
        s
    case Reset =>
      if !AllReturned(s) then
        s
      else if s.w.rec.samples < cfg.window then
        INITIAL
      else
        s.(w := Cleared(cfg, s.w), procs := [], recent := multiset{})
  }

  function Run(cfg: Config, s: State, events: seq<Event>): State
    requires Sane(cfg)
    decreases |events|
  {
    if events == [] then s else Run(cfg, Step(cfg, s, events[0]), events[1..])
  }

  // What one call does on its own.

  /** UpdateErrorCost */
  function CostUpdated(cfg: Config, rec: Recorder, amount: int, ema: int): (Recorder, bool) {
    var c := Capped(cfg, ema, amount);
    if c != 0 then
      (rec.(cost := rec.cost + c), rec.cost + c <= MaxCost(cfg, ema))
    else
      (rec.(cost := Decay(cfg, rec.cost)), true)
  }

  /** The verdict while the window fills, or the given one once it is full. */
  function Sampled(cfg: Config, rec: Recorder, error: bool, healthy: bool): (Recorder, bool)
    requires Sane(cfg)
  {
    if rec.samples >= cfg.window then
      (rec, healthy)
    else if error then
      (rec.(samples := rec.samples + 1, errors := rec.errors + 1), rec.errors < Tolerated(cfg))
    else
      (rec.(samples := rec.samples + 1), true)
  }

  /** OnCallEnd */
  function Ended(cfg: Config, rec: Recorder, key: Key): (Recorder, bool)
    requires Sane(cfg)
  {
    var ema := if key.error then rec.ema else NextLatency(cfg.smooth, rec.ema, key.latency);
    var (updated, healthy) := CostUpdated(cfg, rec.(ema := ema), Amount(key), ema);
    Sampled(cfg, updated, key.error, healthy)
  }

  /** Reset */
  function Emptied(cfg: Config, rec: Recorder): Recorder {
    if rec.samples < cfg.window then EMPTY else rec.(cost := 0)
  }
}
