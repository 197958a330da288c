/** What is left in the tables when a run is over: nothing of a node that was
    selected once. */
module PlanClean {
  import opened PlanProtocol
  import opened PlanProofs
  import opened PlanRows
  import opened PlanTermination
  import opened PlanTheorems
  import opened PlanTree
  import opened PlanOnce
  import opened PlanAlone
  import opened PlanChain

  /** Process `p` is executing the parent of `c` and has still to drop its table. */
  ghost predicate WillDrop(plan: Plan, p: Proc, c: nat)
    requires c < |plan| && ProcShaped(plan, p)
  {
    match p
    case Selected(_, todo, _) => todo[0] == plan[c].parent
    case RootStored(_, todo) => todo[0] == plan[c].parent
    case RootFlagged(_, todo) => todo[0] == plan[c].parent
    case Stored(_, todo) => todo[0] == plan[c].parent
    case Flagged(_, todo) => todo[0] == plan[c].parent
    case Deleting(_, todo, next) => todo[0] == plan[c].parent && next <= c
    case _ => false
  }

  /** A node that was selected had all its children finished, and a root that is
      finished was selected. */
  ghost predicate InOrder(plan: Plan, st: Store)
    requires Fits(plan, st)
  {
    && (forall n: nat :: n < |plan| && st.selects[n] >= 1 ==> ChildrenDone(plan, st.finished, n))
    && (forall n: nat :: n < |plan| && st.finished[n] && plan[n].parent == -1 ==> st.selects[n] >= 1)
  }

  /** The table of `c` is empty, or the parent was not selected yet, or it is
      being executed and the table will be dropped. */
  ghost predicate Dropping(plan: Plan, s: State, c: nat)
    requires Shaped(plan, s) && Inner(plan, c)
  {
    || s.store.tables[c] == 0 || s.store.selects[plan[c].parent] == 0
    || exists i :: 0 <= i < |s.procs| && WillDrop(plan, s.procs[i], c)
  }

  lemma ActInOrder(plan: Plan, st: Store, p: Proc, late: bool)
    requires ParentsExist(plan) && Fine(plan, st, p) && Recorded(plan, st, p)
    requires InOrder(plan, st) && Closed(plan, st.finished)
    ensures var m := Act(plan, st, p, late); Fits(plan, m.store) && InOrder(plan, m.store)
  {
    hide ChildrenDone, Picked, SeesInputs, Closed;
    var m := Act(plan, st, p, late);
    ActSound(plan, st, p, late);
    forall n: nat | n < |plan| && m.store.selects[n] >= 1
      ensures ChildrenDone(plan, m.store.finished, n)
    {
      if st.selects[n] >= 1 {
        DoneGrows(plan, st.finished, m.store.finished, n);
      }
    }
  }

  /** A process that will drop the table goes on to do so, or has just done it. */
  lemma DropperActs(plan: Plan, st: Store, p: Proc, late: bool, c: nat)
    requires ParentsExist(plan) && Fine(plan, st, p) && Inner(plan, c) && WillDrop(plan, p, c)
    ensures var m := Act(plan, st, p, late);
            Fits(plan, m.store) && ((ProcShaped(plan, m.next) && WillDrop(plan, m.next, c)) || m.store.tables[c] == 0)
  {
    hide Picked, SeesInputs, Sound;
  }

  /** Any other process fills the table only when it had rows of `c` to store, and
      selects the parent only to drop the table later. */
  lemma OtherActs(plan: Plan, st: Store, p: Proc, late: bool, c: nat)
    requires ParentsExist(plan) && Fine(plan, st, p) && Inner(plan, c) && !WillDrop(plan, p, c)
    ensures var m := Act(plan, st, p, late);
            && Fits(plan, m.store)
            && (m.store.tables[c] > 0 ==> st.tables[c] > 0 || Owed(p, c) == 1)
            && (m.store.selects[plan[c].parent] > st.selects[plan[c].parent] ==>
                  ProcShaped(plan, m.next) && WillDrop(plan, m.next, c))
  {
    hide Picked, SeesInputs, Sound;
  }

  lemma {:induction false} OneInFlight(procs: seq<Proc>, i: nat, c: nat)
    requires i < |procs|
    ensures Owed(procs[i], c) <= InFlight(procs, c)
  {
    if i < |procs| - 1 {
      OneInFlight(procs[..|procs| - 1], i, c);
    }
  }

  /** Rows that are about to be stored, of a node selected once: the parent was
      not selected yet. */
  lemma FirstStore(plan: Plan, s: State, i: nat, c: nat)
    requires Safe(plan, s) && Accounted(plan, s) && InOrder(plan, s.store)
    requires Inner(plan, c) && s.store.selects[c] <= 1 && i < |s.procs| && Owed(s.procs[i], c) == 1
    ensures s.store.selects[plan[c].parent] == 0
  {
    hide Owed, Recorded;
    OneInFlight(s.procs, i, c);
    assert Kept(plan, s.store, c);
    assert !s.store.finished[c];
  }

  lemma StepDropping(plan: Plan, s: State, i: nat, late: bool, c: nat)
    requires ParentsExist(plan) && Safe(plan, s) && Accounted(plan, s) && InOrder(plan, s.store)
    requires Inner(plan, c) && Dropping(plan, s, c) && i < |s.procs|
    requires Shaped(plan, Step(plan, s, i, late)) && Step(plan, s, i, late).store.selects[c] <= 1
    ensures Dropping(plan, Step(plan, s, i, late), c)
  {
    hide Act, Sound, Closed, ProcShaped, WillDrop, Accounted, InOrder, Owed, Later;
    var t := Step(plan, s, i, late);
    var p := s.procs[i];
    var m := Act(plan, s.store, p, late);
    assert Fine(plan, s.store, p) && t.procs[i] == m.next;
    SelectsGrow(plan, s, i, late, c);
    if WillDrop(plan, p, c) {
      DropperActs(plan, s.store, p, late, c);
    } else {
      OtherActs(plan, s.store, p, late, c);
      if Owed(p, c) == 1 {
        FirstStore(plan, s, i, c);
      }
      if k :| 0 <= k < |s.procs| && WillDrop(plan, s.procs[k], c) {
        assert t.procs[k] == s.procs[k];
      }
    }
  }

  lemma SelectsGrow(plan: Plan, s: State, i: nat, late: bool, c: nat)
    requires ParentsExist(plan) && Safe(plan, s) && Accounted(plan, s) && i < |s.procs| && c < |plan|
    ensures var t := Step(plan, s, i, late); Fits(plan, t.store) && s.store.selects[c] <= t.store.selects[c]
  {
    hide Act, Sound, Closed, ProcShaped, Kept, Recorded;
    assert Fine(plan, s.store, s.procs[i]);
    ActRows(plan, s.store, s.procs[i], late);
  }

  lemma {:induction false} RunDropping(plan: Plan, rank: seq<nat>, root: nat, sites: seq<Site>, schedule: seq<Turn>, c: nat)
    requires Executable(plan, rank, root, sites) && Inner(plan, c)
    ensures var t := Run(plan, Started(plan, sites), schedule);
            && Shaped(plan, t) && InOrder(plan, t.store)
            && (t.store.selects[c] <= 1 ==> Dropping(plan, t, c))
  {
    hide Awake, Accounted, DoneFollows, Act, Step, Dropping, InOrder;
    var s := Started(plan, sites);
    BeginInv(plan, rank, root, sites);
    SafeIsShaped(plan, Run(plan, s, schedule));
    if schedule == [] {
      BeginDropping(plan, sites, c);
    } else {
      var n := |schedule| - 1;
      var before := Run(plan, s, schedule[..n]);
      RunDropping(plan, rank, root, sites, schedule[..n], c);
      RunInv(plan, rank, root, sites, s, schedule[..n]);
      if schedule[n].i < |before.procs| {
        StepInOrder(plan, before, schedule[n].i, schedule[n].late);
        SelectsGrow(plan, before, schedule[n].i, schedule[n].late, c);
        if Run(plan, s, schedule).store.selects[c] <= 1 {
          StepDropping(plan, before, schedule[n].i, schedule[n].late, c);
        }
      }
    }
  }

  lemma StepInOrder(plan: Plan, s: State, i: nat, late: bool)
    requires ParentsExist(plan) && Safe(plan, s) && Accounted(plan, s) && InOrder(plan, s.store) && i < |s.procs|
    ensures Fits(plan, Step(plan, s, i, late).store) && InOrder(plan, Step(plan, s, i, late).store)
  {
    hide Act, Sound, Closed, ProcShaped, InOrder, Recorded, Kept;
    assert Fine(plan, s.store, s.procs[i]);
    ActInOrder(plan, s.store, s.procs[i], late);
  }

  lemma BeginDropping(plan: Plan, sites: seq<Site>, c: nat)
    requires Inner(plan, c)
    ensures var s := Begin(plan, sites); Shaped(plan, s) && InOrder(plan, s.store) && Dropping(plan, s, c)
  {
  }

  /** In every run of every plan: when nothing is left to do, the table of a node
      that was selected only once is empty. */
  lemma TablesAreEmptied(plan: Plan, rank: seq<nat>, root: nat, sites: seq<Site>, schedule: seq<Turn>, c: nat)
    requires Executable(plan, rank, root, sites) && Inner(plan, c)
    requires var t := Run(plan, Started(plan, sites), schedule); Quiet(t) && Fits(plan, t.store) && t.store.selects[c] <= 1
    ensures Run(plan, Started(plan, sites), schedule).store.tables[c] == 0
  {
    hide Run, DoneFollows, Act;
    var s := Started(plan, sites);
    var t := Run(plan, s, schedule);
    RunDropping(plan, rank, root, sites, schedule, c);
    BeginInv(plan, rank, root, sites);
    RunInv(plan, rank, root, sites, s, schedule);
    var n := plan[c].parent;
    QuietMeansFinished(plan, rank, t, n);
    if Inner(plan, n) {
      assert Kept(plan, t.store, n);
    }
  }

  /** In particular those of a node that is alone and of all nodes below it. */
  lemma AloneLeavesNothing(plan: Plan, rank: seq<nat>, root: nat, sites: seq<Site>, schedule: seq<Turn>, v: nat, c: nat)
    requires Executable(plan, rank, root, sites) && Distinct(sites) && v < |plan| && Lone(plan, rank, v)
    requires Inner(plan, c) && Above(plan, rank, v, c) && Quiet(Run(plan, Started(plan, sites), schedule))
    ensures var t := Run(plan, Started(plan, sites), schedule); Fits(plan, t.store) && t.store.tables[c] == 0
  {
    hide Run, Lone, Above;
    SafeIsShaped(plan, Run(plan, Started(plan, sites), schedule));
    BelowOnce(plan, rank, root, sites, v, c, schedule);
    TablesAreEmptied(plan, rank, root, sites, schedule, c);
  }
}
