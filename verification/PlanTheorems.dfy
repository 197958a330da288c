/** The plan protocol over whole runs: under every schedule. */
module PlanTheorems {
  import opened PlanProtocol
  import opened PlanProofs
  import opened PlanRows
  import opened PlanTermination

  /** A plan that the protocol can execute: one root, which every chain of
      parents leads to, and sites that receive the start message. */
  ghost predicate Executable(plan: Plan, rank: seq<nat>, root: nat, sites: seq<Site>) {
    && ParentsExist(plan) && Ranked(plan, rank)
    && root < |plan| && (forall n :: 0 <= n < |plan| ==> (plan[n].parent == -1 <==> n == root))
    && forall n :: 0 <= n < |plan| ==> plan[n].site in sites
  }

  /** The done flag is set once the root is finished, by the process that
      finished it. */
  ghost predicate DoneFollows(plan: Plan, s: State, root: nat)
    requires Shaped(plan, s) && root < |plan|
  {
    && (s.store.done ==> s.store.finished[root])
    && (s.store.finished[root] ==> s.store.done || exists i :: 0 <= i < |s.procs| && s.procs[i].RootFlagged?)
  }

  ghost predicate Inv(plan: Plan, root: nat, s: State) {
    && Safe(plan, s) && Awake(plan, s) && Accounted(plan, s)
    && root < |plan| && DoneFollows(plan, s, root)
  }

  lemma StepDone(plan: Plan, s: State, root: nat, i: nat, late: bool)
    requires ParentsExist(plan) && Safe(plan, s) && root < |plan| && plan[root].parent == -1
    requires forall n :: 0 <= n < |plan| ==> (plan[n].parent == -1 <==> n == root)
    requires DoneFollows(plan, s, root) && i < |s.procs|
    requires Shaped(plan, Step(plan, s, i, late))
    ensures DoneFollows(plan, Step(plan, s, i, late), root)
  {
    hide Act, Sound, Closed, ProcShaped;
    var t := Step(plan, s, i, late);
    var m := Act(plan, s.store, s.procs[i], late);
    assert Fine(plan, s.store, s.procs[i]);
    ActDone(plan, s.store, s.procs[i], root, late);
    assert t.procs[i] == m.next;
    if t.store.finished[root] && !t.store.done && s.store.finished[root] {
      var j :| 0 <= j < |s.procs| && s.procs[j].RootFlagged?;
      assert j != i && t.procs[j] == s.procs[j];
    }
  }

  lemma ActDone(plan: Plan, st: Store, p: Proc, root: nat, late: bool)
    requires ParentsExist(plan) && Fine(plan, st, p) && root < |plan|
    requires forall n :: 0 <= n < |plan| ==> (plan[n].parent == -1 <==> n == root)
    ensures var m := Act(plan, st, p, late);
            && Fits(plan, m.store)
            && (m.store.done ==> st.done || st.finished[root])
            && (st.done || p.RootFlagged? ==> m.store.done)
            && (st.finished[root] ==> m.store.finished[root])
            && (m.store.finished[root] && !st.finished[root] ==> m.next.RootFlagged?)
  {
    hide Picked, ChildrenDone, SeesInputs;
  }

  lemma StepInv(plan: Plan, rank: seq<nat>, root: nat, sites: seq<Site>, s: State, i: nat, late: bool)
    requires Executable(plan, rank, root, sites) && Inv(plan, root, s) && i < |s.procs|
    ensures Inv(plan, root, Step(plan, s, i, late))
  {
    hide Safe, Awake, Accounted, DoneFollows, Act;
    SafeIsShaped(plan, s);
    StepAwake(plan, s, i, late);
    StepAccounted(plan, s, i, late);
    SafeIsShaped(plan, Step(plan, s, i, late));
    StepDone(plan, s, root, i, late);
  }

  lemma SafeIsShaped(plan: Plan, s: State)
    requires Safe(plan, s)
    ensures Shaped(plan, s)
  {
  }

  lemma BeginInv(plan: Plan, rank: seq<nat>, root: nat, sites: seq<Site>)
    requires Executable(plan, rank, root, sites)
    ensures Inv(plan, root, Begin(plan, sites))
  {
    var s := Begin(plan, sites);
    assert Safe(plan, s);
    forall n: nat | n < |plan| && Waiting(plan, s.store, n)
      ensures exists i :: 0 <= i < |s.procs| && Covers(plan, s.procs[i], n)
    {
      var i :| 0 <= i < |sites| && sites[i] == plan[n].site;
      assert Covers(plan, s.procs[i], n);
    }
    forall c: nat | Inner(plan, c) ensures s.store.stores[c] + InFlight(s.procs, c) == s.store.selects[c] {
      NothingInFlight(s.procs, c);
    }
  }

  lemma {:induction false} NothingInFlight(procs: seq<Proc>, c: nat)
    requires forall i :: 0 <= i < |procs| ==> procs[i].Start?
    ensures InFlight(procs, c) == 0
  {
    if procs != [] {
      NothingInFlight(procs[..|procs| - 1], c);
    }
  }

  /** A query as sql_execute starts it. */
  ghost function Started(plan: Plan, sites: seq<Site>): (s: State)
    ensures Safe(plan, s)
  {
    Begin(plan, sites)
  }

  /** The state after the processes named by `schedule` took a step each. */
  ghost function Run(plan: Plan, s: State, schedule: seq<Turn>): (t: State)
    requires ParentsExist(plan) && Safe(plan, s)
    ensures Safe(plan, t)
  {
    if schedule == [] then s
    else
      var before := Run(plan, s, schedule[..|schedule| - 1]);
      var turn := schedule[|schedule| - 1];
      if turn.i >= |before.procs| then before
      else
        StepSafe(plan, before, turn.i, turn.late);
        Step(plan, before, turn.i, turn.late)
  }

  /** Each entry of the schedule names a process that is not idle. */
  ghost predicate Busy(plan: Plan, s: State, schedule: seq<Turn>)
    requires ParentsExist(plan) && Safe(plan, s)
  {
    schedule == [] ||
    var before := Run(plan, s, schedule[..|schedule| - 1]);
    var i := schedule[|schedule| - 1].i;
    Busy(plan, s, schedule[..|schedule| - 1]) && i < |before.procs| && before.procs[i] != Idle
  }

  lemma {:induction false} RunInv(plan: Plan, rank: seq<nat>, root: nat, sites: seq<Site>, s: State, schedule: seq<Turn>)
    requires Executable(plan, rank, root, sites) && Inv(plan, root, s)
    ensures Inv(plan, root, Run(plan, s, schedule))
  {
    hide Awake, Accounted, DoneFollows, Act;
    if schedule != [] {
      var before := Run(plan, s, schedule[..|schedule| - 1]);
      var turn := schedule[|schedule| - 1];
      RunInv(plan, rank, root, sites, s, schedule[..|schedule| - 1]);
      if turn.i < |before.procs| {
        StepInv(plan, rank, root, sites, before, turn.i, turn.late);
      }
    }
  }

  lemma {:induction false} RunCosts(plan: Plan, s: State, schedule: seq<Turn>)
    requires ParentsExist(plan) && Safe(plan, s) && Busy(plan, s, schedule)
    ensures var t := Run(plan, s, schedule);
            |schedule| + Total(t.store.finished, t.procs) <= Total(s.store.finished, s.procs)
  {
    hide Total, Act;
    if schedule != [] {
      var before := Run(plan, s, schedule[..|schedule| - 1]);
      RunCosts(plan, s, schedule[..|schedule| - 1]);
      StepCosts(plan, before, schedule[|schedule| - 1].i, schedule[|schedule| - 1].late);
    }
  }

  // ---- The theorems ----

  /** No lost wake-up and no livelock: whatever the schedule, a run has at most
      as many steps as the initial state allows, and when it stops because every
      process is idle, every node is finished, the root's result is there and
      the done flag is set. */
  lemma {:induction false} EveryRunCompletes(plan: Plan, rank: seq<nat>, root: nat, sites: seq<Site>, schedule: seq<Turn>)
    requires Executable(plan, rank, root, sites)
    requires Busy(plan, Started(plan, sites), schedule)
    ensures var s, t := Started(plan, sites), Run(plan, Started(plan, sites), schedule);
            && |schedule| <= Total(s.store.finished, s.procs)
            && (Quiet(t) ==> t.store.done && forall n :: 0 <= n < |plan| ==> t.store.finished[n])
  {
    hide Total, Run, Awake, Accounted;
    var s := Started(plan, sites);
    var t := Run(plan, s, schedule);
    BeginInv(plan, rank, root, sites);
    RunInv(plan, rank, root, sites, s, schedule);
    RunCosts(plan, s, schedule);
    if Quiet(t) {
      forall n: nat | n < |plan| ensures t.store.finished[n] {
        QuietMeansFinished(plan, rank, t, n);
      }
    }
  }

  /** The done flag is never set early: in every reachable state a set done flag
      means that the root and every node below it are finished, although scans
      read the flags one at a time and nodes may be executed twice. */
  lemma DoneMeansFinished(plan: Plan, rank: seq<nat>, root: nat, sites: seq<Site>, schedule: seq<Turn>, n: nat)
    requires Executable(plan, rank, root, sites) && n < |plan|
    requires Run(plan, Started(plan, sites), schedule).store.done
    ensures Run(plan, Started(plan, sites), schedule).store.finished[n]
  {
    hide Run, Awake, Accounted;
    var s := Started(plan, sites);
    var t := Run(plan, s, schedule);
    BeginInv(plan, rank, root, sites);
    RunInv(plan, rank, root, sites, s, schedule);
    RootCoversAll(plan, rank, root, t.store.finished, n);
  }

  lemma {:induction false} RootCoversAll(plan: Plan, rank: seq<nat>, root: nat, finished: seq<bool>, n: nat)
    requires ParentsExist(plan) && Ranked(plan, rank) && |finished| == |plan| && Closed(plan, finished)
    requires root < |plan| && finished[root] && forall m :: 0 <= m < |plan| && plan[m].parent == -1 ==> m == root
    requires n < |plan|
    ensures finished[n]
    decreases MaxRank(rank) - rank[n]
  {
    if n != root {
      var p := plan[n].parent;
      RankBelowMax(rank, p);
      RootCoversAll(plan, rank, root, finished, p);
    }
  }

  ghost function MaxRank(rank: seq<nat>): nat {
    if rank == [] then 0
    else
      var m := MaxRank(rank[..|rank| - 1]);
      if rank[|rank| - 1] > m then rank[|rank| - 1] else m
  }

  lemma {:induction false} RankBelowMax(rank: seq<nat>, n: nat)
    requires n < |rank|
    ensures rank[n] <= MaxRank(rank)
  {
    if n < |rank| - 1 {
      RankBelowMax(rank[..|rank| - 1], n);
    }
  }
}
