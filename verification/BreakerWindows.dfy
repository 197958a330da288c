/** The two windows inside the breaker: each is a recorder that is told about the
    calls that get to it, so all that holds of a recorder holds of it. */
module BreakerWindows {
  import opened BreakerMath
  import opened BreakerMachine
  import RM = RecorderMachine
  import RT = RecorderTheorems
  import BT = BreakerTheorems

  const AWAY := RM.Returned(false, true)

  function LongPc(p: Proc): RM.Pc {
    if p.at.InLong? then p.at.pc else AWAY
  }

  function ShortPc(p: Proc): RM.Pc {
    if p.at.InShort? then p.at.pc else AWAY
  }

  /** The long window with the calls that are in it; others are away. */
  function LongView(s: State): RM.State {
    RM.State(s.b.long, seq(|s.procs|, i requires 0 <= i < |s.procs| => LongPc(s.procs[i])),
             s.longTally.succeeded, s.longTally.calls, s.longTally.recent)
  }

  function ShortView(s: State): RM.State {
    RM.State(s.b.short, seq(|s.procs|, i requires 0 <= i < |s.procs| => ShortPc(s.procs[i])),
             s.shortTally.succeeded, s.shortTally.calls, s.shortTally.recent)
  }

  // ---- What may happen to a recorder here ----

  function Enters(v: RM.State, i: nat, key: RM.Key): RM.State
    requires i < |v.procs|
  {
    RM.State(v.w, v.procs[i := RM.Entered(v.w, key)],
             if key.error then v.succeeded else v.succeeded + multiset{key.latency},
             v.calls + 1, v.recent + multiset{key})
  }

  lemma EntersKeeps(cfg: Config, v: RM.State, i: nat, key: RM.Key)
    requires Sane(cfg) && RT.Inv(cfg, v) && i < |v.procs| && v.procs[i].Returned?
    ensures RT.Inv(cfg, Enters(v, i, key))
  {
    hide RT.Linear, RT.Filled, RT.Traced, RT.PcTraced, RT.Pending, RT.Unpaid, RT.Owing;
    var e := Enters(v, i, key);
    var q := RM.Entered(v.w, key);
    RT.EnteredTraced(cfg, v.w, key);
    RT.OwingUpdate(v.procs, i, q, 2);
    forall x: int
      ensures RT.Averaged(e, x)
    {
      assert RT.Averaged(v, x);
      RT.PendingUpdate(v.procs, i, q, x);
    }
    forall k: RM.Key
      ensures RT.Paid(e, k)
    {
      assert RT.Paid(v, k);
      RT.UnpaidUpdate(v.procs, i, q, k);
    }
  }

  lemma LeavesKeeps(cfg: Config, v: RM.State, i: nat)
    requires Sane(cfg) && RT.Inv(cfg, v) && i < |v.procs| && v.procs[i].Returned?
    ensures RT.Inv(cfg, v.(procs := v.procs[i := AWAY]))
  {
    hide RT.Linear, RT.Filled, RT.Traced, RT.Pending, RT.Unpaid, RT.Owing;
    var e := v.(procs := v.procs[i := AWAY]);
    RT.OwingUpdate(v.procs, i, AWAY, 2);
    forall x: int
      ensures RT.Averaged(e, x)
    {
      assert RT.Averaged(v, x);
      RT.PendingUpdate(v.procs, i, AWAY, x);
    }
    forall k: RM.Key
      ensures RT.Paid(e, k)
    {
      assert RT.Paid(v, k);
      RT.UnpaidUpdate(v.procs, i, AWAY, k);
    }
  }

  lemma JoinsKeeps(cfg: Config, v: RM.State)
    requires Sane(cfg) && RT.Inv(cfg, v)
    ensures RT.Inv(cfg, v.(procs := v.procs + [AWAY]))
  {
    hide RT.Linear, RT.Filled, RT.Traced;
    var e := v.(procs := v.procs + [AWAY]);
    assert e.procs[..|v.procs|] == v.procs;
    forall x: int
      ensures RT.Averaged(e, x)
    {
      assert RT.Averaged(v, x);
    }
    forall k: RM.Key
      ensures RT.Paid(e, k)
    {
      assert RT.Paid(v, k);
    }
  }

  // ---- Steps of the breaker ----

  ghost predicate Windows(f: Flags, s: State)
    requires SaneFlags(f)
  {
    RT.Inv(f.long, LongView(s)) && RT.Inv(f.short, ShortView(s))
  }

  lemma LongSample(f: Flags, s: State, i: nat, lucky: bool)
    requires SaneFlags(f) && i < |s.procs| && s.procs[i].caller.OnCallEnd? && RT.Inv(f.long, LongView(s))
    ensures RT.Inv(f.long, LongView(Sample(f, s, i, lucky)))
  {
    hide RM.Act, RM.Entered, RT.Inv;
    var v, t := LongView(s), Sample(f, s, i, lucky);
    var OnCallEnd(code, latency) := s.procs[i].caller;
    match s.procs[i].at {
      case Admitted =>
        EntersKeeps(f.long, v, i, RM.Key(code != 0, latency));
        assert LongView(t) == Enters(v, i, RM.Key(code != 0, latency));
      case InLong(pc) =>
        if pc.Returned? {
          LeavesKeeps(f.long, v, i);
          assert LongView(t) == v.(procs := v.procs[i := AWAY]);
        } else {
          RT.StepInv(f.long, v, RM.Go(i, lucky));
          assert LongView(t) == RM.Step(f.long, v, RM.Go(i, lucky));
        }
      case _ =>
        assert LongView(t) == v;
    }
  }

  lemma ShortSample(f: Flags, s: State, i: nat, lucky: bool)
    requires SaneFlags(f) && i < |s.procs| && s.procs[i].caller.OnCallEnd? && RT.Inv(f.short, ShortView(s))
    ensures RT.Inv(f.short, ShortView(Sample(f, s, i, lucky)))
  {
    hide RM.Act, RM.Entered, RT.Inv;
    var v, t := ShortView(s), Sample(f, s, i, lucky);
    var OnCallEnd(code, latency) := s.procs[i].caller;
    match s.procs[i].at {
      case InLong(pc) =>
        if pc.Returned? && pc.healthy {
          EntersKeeps(f.short, v, i, RM.Key(code != 0, latency));
          assert ShortView(t) == Enters(v, i, RM.Key(code != 0, latency));
        } else {
          assert ShortView(t) == v;
        }
      case InShort(pc) =>
        if pc.Returned? {
          LeavesKeeps(f.short, v, i);
          assert ShortView(t) == v.(procs := v.procs[i := AWAY]);
        } else {
          RT.StepInv(f.short, v, RM.Go(i, lucky));
          assert ShortView(t) == RM.Step(f.short, v, RM.Go(i, lucky));
        }
      case _ =>
        assert ShortView(t) == v;
    }
  }

  lemma MarkWindows(f: Flags, s: State, i: nat)
    requires SaneFlags(f) && i < |s.procs| && Marks(s.procs[i].at)
    ensures LongView(Mark(f, s, i)) == LongView(s) && ShortView(Mark(f, s, i)) == ShortView(s)
  {
    hide Lengthened, Quick;
    var t := Mark(f, s, i);
    assert LongView(t).procs == LongView(s).procs && ShortView(t).procs == ShortView(s).procs;
  }

  lemma AppendWindows(f: Flags, s: State, p: Proc)
    requires SaneFlags(f) && Windows(f, s) && (p.at.Entering? || p.at.Marking?)
    ensures Windows(f, s.(procs := s.procs + [p]))
  {
    hide RT.Inv;
    var t := s.(procs := s.procs + [p]);
    JoinsKeeps(f.long, LongView(s));
    JoinsKeeps(f.short, ShortView(s));
    assert LongView(t).procs == LongView(s).procs + [AWAY] && ShortView(t).procs == ShortView(s).procs + [AWAY];
  }

  lemma ResetWindows(f: Flags, s: State)
    requires SaneFlags(f) && Windows(f, s) && AllDone(s)
    ensures Windows(f, Step(f, s, Reset))
  {
    hide RT.Inv;
    var t := Step(f, s, Reset);
    RT.StepInv(f.long, LongView(s), RM.Reset);
    RT.StepInv(f.short, ShortView(s), RM.Reset);
    assert LongView(t) == RM.Step(f.long, LongView(s), RM.Reset);
    assert ShortView(t) == RM.Step(f.short, ShortView(s), RM.Reset);
  }

  lemma StepWindows(f: Flags, s: State, e: Event)
    requires SaneFlags(f) && Windows(f, s)
    ensures Windows(f, Step(f, s, e))
  {
    hide RT.Inv, Sample, Mark;
    match e {
      case Call(code, latency) =>
        AppendWindows(f, s, Proc(OnCallEnd(code, latency), Entering));
      case Break =>
        AppendWindows(f, s, Proc(Isolate, Marking));
      case Go(i, lucky) =>
        if i < |s.procs| {
          if Marks(s.procs[i].at) {
            MarkWindows(f, s, i);
          } else if s.procs[i].caller.OnCallEnd? {
            LongSample(f, s, i, lucky);
            ShortSample(f, s, i, lucky);
          }
        }
      case Reset =>
        if AllDone(s) {
          ResetWindows(f, s);
        }
      case Tick(_) =>
        assert LongView(Step(f, s, e)) == LongView(s) && ShortView(Step(f, s, e)) == ShortView(s);
    }
  }

  lemma {:induction false} RunWindows(f: Flags, s: State, events: seq<Event>)
    requires SaneFlags(f) && Windows(f, s)
    ensures Windows(f, Run(f, s, events))
    decreases |events|
  {
    if events != [] {
      hide Windows, Step;
      StepWindows(f, s, events[0]);
      RunWindows(f, Step(f, s, events[0]), events[1..]);
    }
  }

  lemma InitialWindows(f: Flags, now: int)
    requires SaneFlags(f)
    ensures Windows(f, Initial(f, now))
  {
    hide RT.Inv;
    RT.InitialInv(f.long);
    RT.InitialInv(f.short);
    assert LongView(Initial(f, now)) == RM.INITIAL == ShortView(Initial(f, now));
  }

  /** A window and what it was told: each success is averaged in once, each call
      acts on the error cost once, by an average that was in place. */
  ghost predicate Accounts(cfg: Config, w: RM.Window, t: Tally) {
    && w.rec.ema == Average(cfg.smooth, w.log.latencies) && multiset(w.log.latencies) == t.succeeded
    && w.rec.cost == Cost(cfg, w.log.ops) && RT.Traced(cfg, w.log) && multiset(w.log.keys) == t.recent
    && w.log.judged == (if t.calls < cfg.window then t.calls else cfg.window)
  }

  lemma ViewAccounts(cfg: Config, v: RM.State, t: Tally)
    requires Sane(cfg) && RT.Inv(cfg, v) && RM.AllReturned(v)
    requires v.succeeded == t.succeeded && v.calls == t.calls && v.recent == t.recent
    ensures Accounts(cfg, v.w, t)
  {
    hide RT.Conserved, Average, Cost, RT.Traced;
    RT.NothingLeft(v);
  }

  /** Under every interleaving of calls of the breaker, once all have returned
      both windows account for exactly the calls that they were told about. */
  lemma BothAccount(f: Flags, now: int, events: seq<Event>)
    requires SaneFlags(f) && AllDone(BT.Reached(f, now, events))
    ensures var s := BT.Reached(f, now, events);
            Accounts(f.long, s.b.long, s.longTally) && Accounts(f.short, s.b.short, s.shortTally)
  {
    hide Run, Step, RT.Inv, Accounts;
    var s := BT.Reached(f, now, events);
    InitialWindows(f, now);
    RunWindows(f, Initial(f, now), events);
    ViewAccounts(f.long, LongView(s), s.longTally);
    ViewAccounts(f.short, ShortView(s), s.shortTally);
  }
}
