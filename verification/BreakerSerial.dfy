/** A call of the circuit breaker that no other call interrupts does what the
    method of the object does in one piece. */
module BreakerSerial {
  import opened BreakerMath
  import opened BreakerMachine
  import RM = RecorderMachine
  import RS = RecorderSerial
  import BO = BreakerObjects

  function Plain(b: Breaker): BO.Fields {
    BO.Fields(b.long.rec, b.short.rec, b.broken, b.isolatedTimes, b.duration, b.lastReset)
  }

  /** Only process `i` took steps: from `s` they lead to a state with breaker
      `b` and the process at `stage`. */
  ghost predicate Leads(f: Flags, s: State, i: nat, events: seq<Event>, b: Breaker, stage: Stage)
    requires SaneFlags(f)
  {
    && i < |s.procs|
    && (forall e <- events :: e == Go(i, true))
    && var t := Run(f, s, events);
       t.b == b && t.now == s.now && t.procs == s.procs[i := s.procs[i].(at := stage)]
  }

  lemma {:induction false} RunConcat(f: Flags, s: State, first: seq<Event>, second: seq<Event>)
    requires SaneFlags(f)
    ensures Run(f, s, first + second) == Run(f, Run(f, s, first), second)
    decreases |first|
  {
    hide Step;
    if first == [] {
      assert first + second == second;
    } else {
      assert (first + second)[1..] == first[1..] + second;
      RunConcat(f, Step(f, s, first[0]), first[1..], second);
    }
  }

  lemma Nothing(f: Flags, s: State, i: nat)
    requires SaneFlags(f) && i < |s.procs|
    ensures Leads(f, s, i, [], s.b, s.procs[i].at)
  {
    assert s.procs[i := s.procs[i].(at := s.procs[i].at)] == s.procs;
  }

  /** One more step of the process. */
  lemma OneMore(f: Flags, s: State, i: nat, events: seq<Event>, b: Breaker, stage: Stage) returns (more: seq<Event>)
    requires SaneFlags(f) && Leads(f, s, i, events, b, stage)
    ensures forall e <- more :: e == Go(i, true)
    ensures Run(f, s, more) == Step(f, Run(f, s, events), Go(i, true))
  {
    hide Step;
    more := events + [Go(i, true)];
    RunConcat(f, s, events, [Go(i, true)]);
    var t := Run(f, s, events);
    assert [Go(i, true)][1..] == [] && Run(f, Step(f, t, Go(i, true)), []) == Step(f, t, Go(i, true));
  }

  lemma {:induction false} LongAlone(f: Flags, s: State, i: nat, events: seq<Event>, b: Breaker, pc: RM.Pc)
    returns (more: seq<Event>)
    requires SaneFlags(f) && i < |s.procs| && s.procs[i].caller.OnCallEnd? && Leads(f, s, i, events, b, InLong(pc))
    ensures var (w, q) := RS.Alone(f.long, b.long, pc); Leads(f, s, i, more, b.(long := w), InLong(q))
    decreases RS.Rank(b.long, pc)
  {
    hide RM.Act, Run;
    if pc.Returned? {
      more := events;
    } else {
      var (w, q) := RM.Act(f.long, b.long, pc, true);
      more := OneMore(f, s, i, events, b, InLong(pc));
      assert Leads(f, s, i, more, b.(long := w), InLong(q));
      RankFalls(f.long, b.long, pc);
      more := LongAlone(f, s, i, more, b.(long := w), q);
    }
  }

  lemma {:induction false} ShortAlone(f: Flags, s: State, i: nat, events: seq<Event>, b: Breaker, pc: RM.Pc)
    returns (more: seq<Event>)
    requires SaneFlags(f) && i < |s.procs| && s.procs[i].caller.OnCallEnd? && Leads(f, s, i, events, b, InShort(pc))
    ensures var (w, q) := RS.Alone(f.short, b.short, pc); Leads(f, s, i, more, b.(short := w), InShort(q))
    decreases RS.Rank(b.short, pc)
  {
    hide RM.Act, Run;
    if pc.Returned? {
      more := events;
    } else {
      var (w, q) := RM.Act(f.short, b.short, pc, true);
      more := OneMore(f, s, i, events, b, InShort(pc));
      assert Leads(f, s, i, more, b.(short := w), InShort(q));
      RankFalls(f.short, b.short, pc);
      more := ShortAlone(f, s, i, more, b.(short := w), q);
    }
  }

  lemma RankFalls(cfg: Config, w: RM.Window, pc: RM.Pc)
    requires Sane(cfg) && !pc.Returned?
    ensures var (v, q) := RM.Act(cfg, w, pc, true); RS.Rank(v, q) < RS.Rank(w, pc)
  {
    hide NextLatency, Decay, MaxCost, Capped, Tolerated;
  }

  /** MarkAsBroken on its own. */
  lemma MarkAlone(f: Flags, s: State, i: nat, events: seq<Event>, b: Breaker)
    returns (more: seq<Event>, after: Breaker)
    requires SaneFlags(f) && Leads(f, s, i, events, b, Marking)
    ensures Leads(f, s, i, more, after, Done(false))
    ensures Plain(after) == BO.Marked(f, Plain(b), s.now)
  {
    hide Run, Quick, Lengthened;
    more := OneMore(f, s, i, events, b, Marking);
    if b.broken {
      after := b;
    } else {
      var b1 := b.(broken := true);
      var b2 := b1.(isolatedTimes := b.isolatedTimes + 1);
      var d := Lengthened(f, b.duration, Quick(f, s.now, b.lastReset));
      after := b2.(duration := d);
      more := OneMore(f, s, i, more, b1, Winning);
      more := OneMore(f, s, i, more, b2, Timing);
      more := OneMore(f, s, i, more, b2, Storing(d));
    }
  }

  /** The call has come through the short window. */
  lemma ShortThenEnd(f: Flags, s: State, i: nat, events: seq<Event>, b: Breaker)
    returns (more: seq<Event>, after: Breaker)
    requires SaneFlags(f) && i < |s.procs| && s.procs[i].caller.OnCallEnd?
    requires var key := RM.Key(s.procs[i].caller.code != 0, s.procs[i].caller.latency);
             Leads(f, s, i, events, b, InShort(RM.Entered(b.short, key)))
    ensures var key := RM.Key(s.procs[i].caller.code != 0, s.procs[i].caller.latency);
            var (short, fine) := RM.Ended(f.short, b.short.rec, key);
            var c := Plain(b).(short := short);
            && Leads(f, s, i, more, after, Done(fine))
            && Plain(after) == if fine then c else BO.Marked(f, c, s.now)
  {
    hide Run, RM.Entered, RM.Ended, RS.Alone;
    var key := RM.Key(s.procs[i].caller.code != 0, s.procs[i].caller.latency);
    RS.AloneIsSequential(f.short, b.short, key);
    more := ShortAlone(f, s, i, events, b, RM.Entered(b.short, key));
    var (w, q) := RS.Alone(f.short, b.short, RM.Entered(b.short, key));
    after := b.(short := w);
    more := OneMore(f, s, i, more, after, InShort(q));
    if !q.healthy {
      more, after := MarkAlone(f, s, i, more, after);
    }
  }

  /** A call that starts in any state of the breaker, whatever other calls are
      in progress, and is not interrupted, does what OnCallEnd of the object
      does and returns its answer. */
  lemma CallAlone(f: Flags, s: State, i: nat) returns (events: seq<Event>, after: Breaker)
    requires SaneFlags(f) && i < |s.procs| && s.procs[i].caller.OnCallEnd? && s.procs[i].at.Entering?
    ensures var OnCallEnd(code, latency) := s.procs[i].caller;
            var (fields, answer) := BO.CallEnded(f, Plain(s.b), code, latency, s.now);
            Leads(f, s, i, events, after, Done(answer)) && Plain(after) == fields
  {
    hide Run, RM.Entered, RM.Ended, RS.Alone, BO.Marked;
    var OnCallEnd(code, latency) := s.procs[i].caller;
    var key := RM.Key(code != 0, latency);
    Nothing(f, s, i);
    events := OneMore(f, s, i, [], s.b, Entering);
    after := s.b;
    if code != ELIMIT && !s.b.broken {
      events := OneMore(f, s, i, events, s.b, Admitted);
      RS.AloneIsSequential(f.long, s.b.long, key);
      events := LongAlone(f, s, i, events, s.b, RM.Entered(s.b.long, key));
      var (w, q) := RS.Alone(f.long, s.b.long, RM.Entered(s.b.long, key));
      after := s.b.(long := w);
      events := OneMore(f, s, i, events, after, InLong(q));
      if q.healthy {
        events, after := ShortThenEnd(f, s, i, events, after);
      } else {
        events, after := MarkAlone(f, s, i, events, after);
      }
    }
  }

  /** An isolation from outside does what MarkAsBroken of the object does. */
  lemma BreakAlone(f: Flags, s: State, i: nat) returns (events: seq<Event>, after: Breaker)
    requires SaneFlags(f) && i < |s.procs| && s.procs[i].at.Marking?
    ensures Leads(f, s, i, events, after, Done(false)) && Plain(after) == BO.Marked(f, Plain(s.b), s.now)
  {
    Nothing(f, s, i);
    events, after := MarkAlone(f, s, i, [], s.b);
  }

  /** A Reset that no call overlaps does what Reset of the object does. */
  lemma ResetAlone(f: Flags, s: State)
    requires SaneFlags(f) && AllDone(s)
    ensures Plain(Step(f, s, Reset).b) == BO.Rearmed(f, Plain(s.b), s.now)
  {
  }
}
