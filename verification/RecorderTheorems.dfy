/** What concurrent calls leave in a window: the average of the latencies and the
    error cost of the operations in the order in which they took effect, each
    call taking effect once; and the bounds that follow. */
module RecorderTheorems {
  import opened BreakerMath
  import opened RecorderMachine
  import BV = BreakerVerdicts

  /** The atomics hold what the recorded operations give when applied one after
      the other. */
  ghost predicate Linear(cfg: Config, w: Window) {
    && w.rec.ema == Average(cfg.smooth, w.log.latencies)
    && w.rec.cost == Cost(cfg, w.log.ops)
  }

  /** The first `window` calls are judged by the error count, no other call is,
      and of their errors exactly the first tolerated ones pass. */
  ghost predicate Filled(cfg: Config, w: Window)
    requires Sane(cfg)
  {
    && 0 <= w.rec.samples
    && w.log.judged == (if w.rec.samples < cfg.window then w.rec.samples else cfg.window)
    && (w.log.passed > 0 ==> w.rec.samples >= cfg.window)
    && w.rec.errors == |w.log.verdicts|
    && forall k :: 0 <= k < |w.log.verdicts| ==> (w.log.verdicts[k] <==> k < Tolerated(cfg))
  }

  // Where the operations on the error cost come from.

  /** What a call does to the error cost, given the average it goes by. */
  ghost function OpOf(cfg: Config, latencies: seq<int>, key: Key, at: nat): CostOp
    requires at <= |latencies|
  {
    var c := Capped(cfg, Average(cfg.smooth, latencies[..at]), Amount(key));
    if c != 0 then Add(c) else Forget
  }

  ghost predicate Traced(cfg: Config, log: Log) {
    && |log.keys| == |log.ats| == |log.ops|
    && forall i :: 0 <= i < |log.ops| ==>
         log.ats[i] <= |log.latencies| && log.ops[i] == OpOf(cfg, log.latencies, log.keys[i], log.ats[i])
  }

  /** The average a call goes by was in place. */
  ghost predicate PcTraced(cfg: Config, log: Log, p: Pc) {
    match p
    case Costing(_, at, ema) => at <= |log.latencies| && ema == Average(cfg.smooth, log.latencies[..at])
    case Forgetting(key, at, _) => at <= |log.latencies| && OpOf(cfg, log.latencies, key, at) == Forget
    case _ => true
  }

  /** Latencies are only ever added. */
  ghost predicate Extends(a: Log, b: Log) {
    a.latencies <= b.latencies
  }

  lemma TracedExtends(cfg: Config, a: Log, b: Log, p: Pc)
    requires Extends(a, b) && PcTraced(cfg, a, p)
    ensures PcTraced(cfg, b, p)
  {
    hide Average, Capped;
    if p.Costing? || p.Forgetting? {
      assert a.latencies[..p.at] == b.latencies[..p.at];
    }
  }

  lemma NotedTraced(cfg: Config, log: Log, op: CostOp, key: Key, at: nat)
    requires Traced(cfg, log) && at <= |log.latencies| && op == OpOf(cfg, log.latencies, key, at)
    ensures Traced(cfg, Noted(log, op, key, at))
  {
    hide OpOf;
  }

  lemma LatencyTraced(cfg: Config, log: Log, latency: int)
    requires Traced(cfg, log)
    ensures Traced(cfg, log.(latencies := log.latencies + [latency]))
  {
    hide Average, Capped;
    var more := log.latencies + [latency];
    forall i | 0 <= i < |log.ops|
      ensures log.ops[i] == OpOf(cfg, more, log.keys[i], log.ats[i])
    {
      assert more[..log.ats[i]] == log.latencies[..log.ats[i]];
    }
  }

  lemma ActTraced(cfg: Config, w: Window, p: Pc, lucky: bool)
    requires Sane(cfg) && Linear(cfg, w) && Traced(cfg, w.log) && PcTraced(cfg, w.log, p)
    ensures var (v, q) := Act(cfg, w, p, lucky);
            Traced(cfg, v.log) && PcTraced(cfg, v.log, q) && Extends(w.log, v.log)
  {
    hide Traced, NextLatency, Decay, MaxCost, Tolerated, Linear;
    match p {
      case Averaging(latency, seen) =>
        LatencyTraced(cfg, w.log, latency);
        if lucky && w.rec.ema == seen {
          AverageTraced(cfg, w, latency);
        }
      case Costing(key, at, ema) =>
        NotedTraced(cfg, w.log, OpOf(cfg, w.log.latencies, key, at), key, at);
      case Forgetting(key, at, seen) =>
        NotedTraced(cfg, w.log, Forget, key, at);
      case Sampling(_, _) | Counting(_, _) | Returned(_, _) | Erring =>
        SameTraced(cfg, w.log, Act(cfg, w, p, lucky).0.log);
    }
  }

  lemma AverageTraced(cfg: Config, w: Window, latency: int)
    requires Linear(cfg, w)
    ensures var more := w.log.latencies + [latency];
            more[..|w.log.latencies| + 1] == more
            && Average(cfg.smooth, more) == NextLatency(cfg.smooth, w.rec.ema, latency)
  {
    var more := w.log.latencies + [latency];
    assert more[..|more| - 1] == w.log.latencies;
  }

  lemma SameTraced(cfg: Config, a: Log, b: Log)
    requires Traced(cfg, a) && a.latencies == b.latencies && a.ops == b.ops && a.keys == b.keys && a.ats == b.ats
    ensures Traced(cfg, b)
  {
  }

  lemma ActLinear(cfg: Config, w: Window, p: Pc, lucky: bool)
    requires Sane(cfg) && Linear(cfg, w)
    ensures Linear(cfg, Act(cfg, w, p, lucky).0)
  {
    hide NextLatency, Decay, MaxCost, Capped;
    var w' := Act(cfg, w, p, lucky).0;
    if w'.log.latencies != w.log.latencies {
      assert w'.log.latencies[..|w.log.latencies|] == w.log.latencies;
    }
    if w'.log.ops != w.log.ops {
      assert w'.log.ops[..|w.log.ops|] == w.log.ops;
      DecayOfZero(cfg);
    }
  }

  lemma DecayOfZero(cfg: Config)
    ensures Decay(cfg, 0) == 0
  {
  }

  lemma ActFilled(cfg: Config, w: Window, p: Pc, lucky: bool)
    requires Sane(cfg) && Filled(cfg, w)
    ensures Filled(cfg, Act(cfg, w, p, lucky).0)
  {
    hide NextLatency, Decay, MaxCost, Capped, Tolerated;
  }

  // Counting the calls that still have to pass a stage.

  function Stage(p: Pc): nat {
    match p
    case Averaging(_, _) => 0
    case Costing(_, _, _) | Forgetting(_, _, _) => 1
    case Sampling(_, _) | Counting(_, _) => 2
    case Erring | Returned(_, _) => 3
  }

  function Before(p: Pc, stage: nat): nat {
    if Stage(p) <= stage then 1 else 0
  }

  function Owing(procs: seq<Pc>, stage: nat): nat {
    if procs == [] then 0 else Owing(procs[..|procs| - 1], stage) + Before(procs[|procs| - 1], stage)
  }

  function HasPending(p: Pc, latency: int): nat {
    if p.Averaging? && p.latency == latency then 1 else 0
  }

  /** How many calls are about to average in this latency. */
  function Pending(procs: seq<Pc>, latency: int): nat {
    if procs == [] then 0
    else Pending(procs[..|procs| - 1], latency) + HasPending(procs[|procs| - 1], latency)
  }

  function HasKey(p: Pc, key: Key): nat {
    match p
    case Averaging(latency, _) => if key == Key(false, latency) then 1 else 0
    case Costing(k, _, _) => if key == k then 1 else 0
    case Forgetting(k, _, _) => if key == k then 1 else 0
    case _ => 0
  }

  /** How many such calls have still to act on the error cost. */
  function Unpaid(procs: seq<Pc>, key: Key): nat {
    if procs == [] then 0
    else Unpaid(procs[..|procs| - 1], key) + HasKey(procs[|procs| - 1], key)
  }

  lemma {:induction false} UnpaidUpdate(procs: seq<Pc>, i: nat, p: Pc, key: Key)
    requires i < |procs|
    ensures Unpaid(procs[i := p], key) + HasKey(procs[i], key) == Unpaid(procs, key) + HasKey(p, key)
  {
    hide HasKey;
    var n := |procs| - 1;
    if i == n {
      assert procs[i := p][..n] == procs[..n];
    } else {
      assert procs[i := p][..n] == procs[..n][i := p];
      UnpaidUpdate(procs[..n], i, p, key);
    }
  }

  lemma {:induction false} NothingUnpaid(procs: seq<Pc>, key: Key)
    requires forall i :: 0 <= i < |procs| ==> procs[i].Returned?
    ensures Unpaid(procs, key) == 0
  {
    if procs != [] {
      NothingUnpaid(procs[..|procs| - 1], key);
    }
  }

  lemma {:induction false} OwingUpdate(procs: seq<Pc>, i: nat, p: Pc, stage: nat)
    requires i < |procs|
    ensures Owing(procs[i := p], stage) + Before(procs[i], stage) == Owing(procs, stage) + Before(p, stage)
  {
    var n := |procs| - 1;
    if i == n {
      assert procs[i := p][..n] == procs[..n];
    } else {
      assert procs[i := p][..n] == procs[..n][i := p];
      OwingUpdate(procs[..n], i, p, stage);
    }
  }

  lemma {:induction false} PendingUpdate(procs: seq<Pc>, i: nat, p: Pc, latency: int)
    requires i < |procs|
    ensures Pending(procs[i := p], latency) + HasPending(procs[i], latency)
         == Pending(procs, latency) + HasPending(p, latency)
  {
    var n := |procs| - 1;
    if i == n {
      assert procs[i := p][..n] == procs[..n];
    } else {
      assert procs[i := p][..n] == procs[..n][i := p];
      PendingUpdate(procs[..n], i, p, latency);
    }
  }

  lemma {:induction false} NothingOwed(procs: seq<Pc>, stage: nat)
    requires stage <= 2 && forall i :: 0 <= i < |procs| ==> procs[i].Returned?
    ensures Owing(procs, stage) == 0
  {
    if procs != [] {
      NothingOwed(procs[..|procs| - 1], stage);
    }
  }

  lemma {:induction false} NothingPending(procs: seq<Pc>, latency: int)
    requires forall i :: 0 <= i < |procs| ==> procs[i].Returned?
    ensures Pending(procs, latency) == 0
  {
    if procs != [] {
      NothingPending(procs[..|procs| - 1], latency);
    }
  }

  /** The latency of a successful call is averaged in once. */
  ghost predicate Averaged(s: State, v: int) {
    multiset(s.w.log.latencies)[v] + Pending(s.procs, v) == s.succeeded[v]
  }

  /** A call acts on the error cost once. */
  ghost predicate Paid(s: State, k: Key) {
    multiset(s.w.log.keys)[k] + Unpaid(s.procs, k) == s.recent[k]
  }

  ghost predicate Conserved(s: State) {
    && (forall v: int :: Averaged(s, v))
    && (forall k: Key :: Paid(s, k))
    && s.w.log.judged + s.w.log.passed + Owing(s.procs, 2) == s.calls
  }

  lemma ActCounts(cfg: Config, w: Window, p: Pc, lucky: bool)
    requires Sane(cfg)
    ensures var (v, q) := Act(cfg, w, p, lucky);
            v.log.judged + v.log.passed + Before(q, 2) == w.log.judged + w.log.passed + Before(p, 2)
  {
    hide NextLatency, Decay, MaxCost, Capped, Tolerated;
  }

  lemma ActAverages(cfg: Config, w: Window, p: Pc, lucky: bool, latency: int)
    requires Sane(cfg)
    ensures var (v, q) := Act(cfg, w, p, lucky);
            (multiset(v.log.latencies)[latency] + HasPending(q, latency)
             == multiset(w.log.latencies)[latency] + HasPending(p, latency))
  {
    hide NextLatency, Decay, MaxCost, Capped, Tolerated;
  }

  lemma ActPays(cfg: Config, w: Window, p: Pc, lucky: bool, key: Key)
    requires Sane(cfg)
    ensures var (v, q) := Act(cfg, w, p, lucky);
            (multiset(v.log.keys)[key] + HasKey(q, key) == multiset(w.log.keys)[key] + HasKey(p, key))
  {
    hide NextLatency, Decay, MaxCost, Capped, Tolerated;
  }

  lemma GoConserved(cfg: Config, s: State, i: nat, lucky: bool)
    requires Sane(cfg) && Conserved(s) && i < |s.procs|
    ensures Conserved(Step(cfg, s, Go(i, lucky)))
  {
    hide Act, Before, HasPending, HasKey, Owing, Pending, Unpaid;
    var (w, p) := Act(cfg, s.w, s.procs[i], lucky);
    var t := Step(cfg, s, Go(i, lucky));
    ActCounts(cfg, s.w, s.procs[i], lucky);
    OwingUpdate(s.procs, i, p, 2);
    forall k: Key
      ensures Paid(t, k)
    {
      assert Paid(s, k);
      ActPays(cfg, s.w, s.procs[i], lucky, k);
      UnpaidUpdate(s.procs, i, p, k);
    }
    forall v: int
      ensures Averaged(t, v)
    {
      assert Averaged(s, v);
      ActAverages(cfg, s.w, s.procs[i], lucky, v);
      PendingUpdate(s.procs, i, p, v);
    }
  }

  lemma CallConserved(cfg: Config, s: State, key: Key)
    requires Sane(cfg) && Conserved(s)
    ensures Conserved(Step(cfg, s, Call(key)))
  {
    var t := Step(cfg, s, Call(key));
    assert t.procs[..|s.procs|] == s.procs;
    forall v: int
      ensures Averaged(t, v)
    {
      assert Averaged(s, v);
    }
    forall k: Key
      ensures Paid(t, k)
    {
      assert Paid(s, k);
    }
  }

  lemma ResetConserved(cfg: Config, s: State)
    requires Sane(cfg) && Conserved(s) && AllReturned(s)
    ensures Conserved(Step(cfg, s, Reset))
  {
    var t := Step(cfg, s, Reset);
    NothingOwed(s.procs, 2);
    forall v: int
      ensures Averaged(t, v)
    {
      assert Averaged(s, v);
      NothingPending(s.procs, v);
    }
  }

  lemma ResetKeeps(cfg: Config, s: State)
    requires Sane(cfg) && Inv(cfg, s)
    ensures Inv(cfg, Step(cfg, s, Reset))
  {
    hide Conserved;
    if AllReturned(s) {
      ResetConserved(cfg, s);
      if s.w.rec.samples < cfg.window {
        InitialInv(cfg);
      }
    }
  }

  ghost predicate Inv(cfg: Config, s: State)
    requires Sane(cfg)
  {
    && Linear(cfg, s.w) && Filled(cfg, s.w) && Conserved(s)
    && Traced(cfg, s.w.log)
    && forall i :: 0 <= i < |s.procs| ==> PcTraced(cfg, s.w.log, s.procs[i])
  }

  lemma EnteredTraced(cfg: Config, w: Window, key: Key)
    requires Linear(cfg, w)
    ensures PcTraced(cfg, w.log, Entered(w, key))
  {
    assert w.log.latencies[..|w.log.latencies|] == w.log.latencies;
  }

  lemma StepInv(cfg: Config, s: State, e: Event)
    requires Sane(cfg) && Inv(cfg, s)
    ensures Inv(cfg, Step(cfg, s, e))
  {
    hide Act, Linear, Filled, Conserved, AllReturned, Traced, PcTraced, Extends;
    match e {
      case Call(key) =>
        CallConserved(cfg, s, key);
        EnteredTraced(cfg, s.w, key);
      case Go(i, lucky) =>
        if i < |s.procs| {
          var (w, p) := Act(cfg, s.w, s.procs[i], lucky);
          ActLinear(cfg, s.w, s.procs[i], lucky);
          ActFilled(cfg, s.w, s.procs[i], lucky);
          ActTraced(cfg, s.w, s.procs[i], lucky);
          GoConserved(cfg, s, i, lucky);
          var procs := s.procs[i := p];
          forall j | 0 <= j < |procs|
            ensures PcTraced(cfg, w.log, procs[j])
          {
            if j != i {
              TracedExtends(cfg, s.w.log, w.log, s.procs[j]);
            }
          }
        }
      case Reset =>
        ResetKeeps(cfg, s);
    }
  }

  lemma {:induction false} RunInv(cfg: Config, s: State, events: seq<Event>)
    requires Sane(cfg) && Inv(cfg, s)
    ensures Inv(cfg, Run(cfg, s, events))
    decreases |events|
  {
    if events != [] {
      hide Inv, Step;
      StepInv(cfg, s, events[0]);
      RunInv(cfg, Step(cfg, s, events[0]), events[1..]);
    }
  }

  lemma InitialInv(cfg: Config)
    requires Sane(cfg)
    ensures Inv(cfg, INITIAL)
  {
    hide Conserved;
    NothingYet(INITIAL);
  }

  lemma NothingYet(s: State)
    requires s.procs == [] && s.w.log == BLANK && s.succeeded == multiset{} && s.recent == multiset{} && s.calls == 0
    ensures Conserved(s)
  {
    forall v: int
      ensures Averaged(s, v)
    {
    }
    forall k: Key
      ensures Paid(s, k)
    {
    }
  }

  ghost function Reached(cfg: Config, events: seq<Event>): State
    requires Sane(cfg)
  {
    Run(cfg, INITIAL, events)
  }

  /** Whatever the interleaving, once all calls have returned: the average is
      that of the successful latencies, each averaged in once, in some order.
      The error cost results from one operation for each call since the last
      Reset, in some order: a call adds its latency, if it failed, capped by an
      average that was in place at some moment, or decays the cost if that
      comes to nothing. The two orders need not agree. */
  lemma EachCallOnce(cfg: Config, events: seq<Event>)
    requires Sane(cfg) && AllReturned(Reached(cfg, events))
    ensures var s := Reached(cfg, events);
            && s.w.rec.ema == Average(cfg.smooth, s.w.log.latencies)
            && multiset(s.w.log.latencies) == s.succeeded
            && s.w.rec.cost == Cost(cfg, s.w.log.ops)
            && Traced(cfg, s.w.log)
            && multiset(s.w.log.keys) == s.recent
  {
    hide Run, Step, Average, Cost, Act, Filled, Conserved, AllReturned, Traced;
    InitialInv(cfg);
    RunInv(cfg, INITIAL, events);
    NothingLeft(Reached(cfg, events));
  }

  lemma NothingLeft(s: State)
    requires Conserved(s) && AllReturned(s)
    ensures multiset(s.w.log.latencies) == s.succeeded
    ensures multiset(s.w.log.keys) == s.recent
    ensures s.w.log.judged + s.w.log.passed == s.calls
  {
    hide Pending, Owing, Unpaid;
    NothingOwed(s.procs, 2);
    forall v: int
      ensures multiset(s.w.log.latencies)[v] == s.succeeded[v]
    {
      assert Averaged(s, v);
      NothingPending(s.procs, v);
    }
    forall k: Key
      ensures multiset(s.w.log.keys)[k] == s.recent[k]
    {
      assert Paid(s, k);
      NothingUnpaid(s.procs, k);
    }
  }

  /** While the window fills: of the calls so far exactly the first `window` to
      be counted are judged by the error count, and of their errors exactly those
      within the error percentage of the window pass. */
  lemma FillingVerdicts(cfg: Config, events: seq<Event>)
    requires Sane(cfg)
    ensures var s := Reached(cfg, events);
            && (forall k :: 0 <= k < |s.w.log.verdicts| ==>
                  (s.w.log.verdicts[k] <==> 100 * (k + 1) <= cfg.window * cfg.percent))
            && s.w.log.judged <= cfg.window
            && (AllReturned(s) ==> s.w.log.judged == if s.calls < cfg.window then s.calls else cfg.window)
  {
    hide Run, Step, Linear, Act, Tolerated, Conserved, AllReturned;
    InitialInv(cfg);
    RunInv(cfg, INITIAL, events);
    var s := Reached(cfg, events);
    forall k | 0 <= k < |s.w.log.verdicts|
      ensures s.w.log.verdicts[k] <==> 100 * (k + 1) <= cfg.window * cfg.percent
    {
      BV.ToleratedIff(cfg, k);
    }
    if AllReturned(s) {
      NothingLeft(s);
    }
  }

  // Bounds.

  /** Latencies are not negative. */
  ghost predicate Feasible(e: Event) {
    e.Call? ==> e.key.latency >= 0
  }

  ghost predicate PcBounded(p: Pc) {
    match p
    case Averaging(latency, seen) => latency >= 0
    case Costing(key, _, ema) => key.latency >= 0 && ema >= 0
    case Forgetting(_, _, _) | Erring => true
    case Sampling(error, healthy) => !healthy ==> error
    case Counting(error, healthy) => !healthy ==> error
    case Returned(error, healthy) => !healthy ==> error
  }

  ghost predicate WindowBounded(w: Window) {
    w.rec.ema >= 0 && NonNegative(w.log.ops)
  }

  ghost predicate Bounded(s: State) {
    && WindowBounded(s.w)
    && forall i :: 0 <= i < |s.procs| ==> PcBounded(s.procs[i])
  }

  lemma CappedBounds(cfg: Config, ema: int, amount: int)
    requires Sane(cfg) && ema >= 0 && amount >= 0
    ensures 0 <= Capped(cfg, ema, amount) <= amount
  {
    assert ema * cfg.multiple >= 0;
  }

  lemma ActBounded(cfg: Config, w: Window, p: Pc, lucky: bool)
    requires Sane(cfg) && WindowBounded(w) && PcBounded(p)
    ensures var (v, q) := Act(cfg, w, p, lucky); WindowBounded(v) && PcBounded(q)
  {
    hide NextLatency, Decay, MaxCost, Capped, Tolerated;
    if p.Averaging? {
      NextWithin(cfg.smooth, w.rec.ema, p.latency, 0, if w.rec.ema < p.latency then p.latency else w.rec.ema);
    } else if p.Costing? {
      CappedBounds(cfg, p.ema, Amount(p.key));
    }
  }

  lemma StepBounded(cfg: Config, s: State, e: Event)
    requires Sane(cfg) && Bounded(s) && Feasible(e)
    ensures Bounded(Step(cfg, s, e))
  {
    hide Act;
    if e.Go? && e.i < |s.procs| {
      hide WindowBounded, PcBounded;
      ActBounded(cfg, s.w, s.procs[e.i], e.lucky);
    }
  }

  lemma {:induction false} RunBounded(cfg: Config, s: State, events: seq<Event>)
    requires Sane(cfg) && Bounded(s)
    requires forall k :: 0 <= k < |events| ==> Feasible(events[k])
    ensures Bounded(Run(cfg, s, events))
    decreases |events|
  {
    if events != [] {
      hide Step, Bounded, Feasible;
      StepBounded(cfg, s, events[0]);
      RunBounded(cfg, Step(cfg, s, events[0]), events[1..]);
    }
  }

  lemma AveragedSucceeded(s: State, k: nat)
    requires Conserved(s) && k < |s.w.log.latencies|
    ensures s.w.log.latencies[k] in s.succeeded
  {
    hide Pending, Owing, Unpaid;
    var v := s.w.log.latencies[k];
    assert Averaged(s, v) && v in multiset(s.w.log.latencies);
  }

  /** In every state of every run with latencies of any sign: once a success has
      been averaged in since the window was emptied, the average is between
      the least and the greatest of those successful latencies; before, it is
      0. */
  lemma AverageAlwaysWithin(cfg: Config, events: seq<Event>, lo: int, hi: int)
    requires Sane(cfg)
    requires forall v <- Reached(cfg, events).succeeded :: lo <= v <= hi
    ensures var s := Reached(cfg, events);
            && (s.w.log.latencies != [] ==> lo <= s.w.rec.ema <= hi)
            && (s.w.log.latencies == [] ==> s.w.rec.ema == 0)
  {
    hide Run, Step, Act, Filled, Conserved, Traced;
    InitialInv(cfg);
    RunInv(cfg, INITIAL, events);
    var s := Reached(cfg, events);
    if s.w.log.latencies != [] {
      forall k | 0 <= k < |s.w.log.latencies|
        ensures lo <= s.w.log.latencies[k] <= hi
      {
        AveragedSucceeded(s, k);
      }
      AverageWithin(cfg.smooth, s.w.log.latencies, lo, hi);
    }
  }

  /** With latencies that are not negative the error cost never is, and only a
      failed call is ever found unhealthy. */
  lemma OnlyFailuresCost(cfg: Config, events: seq<Event>)
    requires Sane(cfg)
    requires forall k :: 0 <= k < |events| ==> Feasible(events[k])
    ensures var s := Reached(cfg, events);
            && 0 <= s.w.rec.cost
            && forall i :: 0 <= i < |s.procs| && s.procs[i].Returned? && !s.procs[i].healthy ==> s.procs[i].error
  {
    hide Run, Step, Average, Cost, Act, Filled, Conserved, Feasible;
    InitialInv(cfg);
    RunInv(cfg, INITIAL, events);
    RunBounded(cfg, INITIAL, events);
    CostNeverNegative(cfg, Reached(cfg, events).w.log.ops);
  }

  // Successes only.

  /** No call in progress will still add to the error cost. */
  ghost predicate Calm(s: State) {
    forall i :: 0 <= i < |s.procs| && s.procs[i].Costing? ==> !s.procs[i].key.error
  }

  lemma ActCalm(cfg: Config, w: Window, p: Pc, lucky: bool)
    requires Sane(cfg) && PcBounded(p) && (p.Costing? ==> !p.key.error)
    ensures var (v, q) := Act(cfg, w, p, lucky);
            && (v.log.ops == w.log.ops || v.log.ops == w.log.ops + [Forget])
            && (q.Costing? ==> !q.key.error)
  {
    hide NextLatency, Decay, MaxCost, Capped, Tolerated;
    if p.Costing? {
      CappedBounds(cfg, p.ema, 0);
    }
  }

  lemma StepCalm(cfg: Config, s: State, e: Event)
    requires Sane(cfg) && Bounded(s) && Calm(s)
    requires !e.Reset? && (e.Call? ==> !e.key.error)
    ensures var t := Step(cfg, s, e);
            && Calm(t)
            && (t.w.log.ops == s.w.log.ops || t.w.log.ops == s.w.log.ops + [Forget])
  {
    if e.Go? && e.i < |s.procs| {
      hide Act, WindowBounded, PcBounded;
      ActCalm(cfg, s.w, s.procs[e.i], e.lucky);
    }
  }

  ghost predicate OnlySuccesses(events: seq<Event>) {
    forall k :: 0 <= k < |events| ==>
      Feasible(events[k]) && !events[k].Reset? && (events[k].Call? ==> !events[k].key.error)
  }

  lemma {:induction false} RunCalm(cfg: Config, s: State, events: seq<Event>) returns (k: nat)
    requires Sane(cfg) && Bounded(s) && Calm(s) && OnlySuccesses(events)
    ensures Run(cfg, s, events).w.log.ops == s.w.log.ops + Successes(k)
    decreases |events|
  {
    hide Step, Bounded, Feasible, Calm;
    if events == [] {
      k := 0;
      assert s.w.log.ops == s.w.log.ops + Successes(0);
    } else {
      var t := Step(cfg, s, events[0]);
      StepBounded(cfg, s, events[0]);
      StepCalm(cfg, s, events[0]);
      k := RunCalm(cfg, t, events[1..]);
      if t.w.log.ops != s.w.log.ops {
        assert s.w.log.ops + [Forget] + Successes(k) == s.w.log.ops + Successes(k + 1);
        k := k + 1;
      }
    }
  }

  /** From any reached state in which no failure is in progress, let any number
      of successful calls run concurrently. If k operations on the error cost
      took place, at most smooth^k of it is left, and none once k is as large
      as the cost was. */
  lemma SuccessesForget(cfg: Config, events: seq<Event>, more: seq<Event>)
    requires Sane(cfg) && Calm(Reached(cfg, events)) && OnlySuccesses(more)
    requires forall k :: 0 <= k < |events| ==> Feasible(events[k])
    ensures var s := Reached(cfg, events);
            var t := Run(cfg, s, more);
            var k := |t.w.log.ops| - |s.w.log.ops|;
            && 0 <= k
            && 0 <= t.w.rec.cost
            && Shrunk(cfg, s.w.rec.cost, k, t.w.rec.cost)
            && (k >= s.w.rec.cost ==> t.w.rec.cost == 0)
  {
    hide Run, Step, Average, Cost, Act, Filled, Conserved, Feasible, Calm, Shrunk, OnlySuccesses, Traced;
    var s := Reached(cfg, events);
    InitialInv(cfg);
    RunInv(cfg, INITIAL, events);
    RunBounded(cfg, INITIAL, events);
    RunInv(cfg, s, more);
    var k := RunCalm(cfg, s, more);
    ForgetsGeometrically(cfg, s.w.log.ops, k);
    ForgetsEverything(cfg, s.w.log.ops, k);
  }
}
