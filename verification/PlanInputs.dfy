/** What a select finds in the tables of the children: good rows of every one,
    as long as senders wait until the rows are stored, other than those of leaves
    and of nodes that are selected only once. The set `alone` holds such nodes. */
module PlanInputs {
  import opened PlanProtocol
  import opened PlanProofs
  import opened PlanRows
  import opened PlanTheorems
  import opened PlanTree

  /** Node `n` still needs its inputs: its good rows are not delivered, or if it
      is selected only once, that is still to come. */
  ghost predicate Needs(plan: Plan, alone: set<nat>, st: Store, n: nat)
    requires Fits(plan, st) && n < |plan|
  {
    if n in alone then st.selects[n] == 0 else !st.q.delivered[n]
  }

  /** The good rows delivered stay in their table while the parent needs them. */
  ghost predicate Supplied(plan: Plan, alone: set<nat>, st: Store, c: nat)
    requires Fits(plan, st) && Inner(plan, c)
  {
    st.q.delivered[c] && Needs(plan, alone, st, plan[c].parent) ==> st.q.sound[c]
  }

  /** Good rows of a finished node were delivered, after a select of it. */
  ghost predicate Delivered(plan: Plan, st: Store)
    requires Fits(plan, st)
  {
    forall n :: 0 <= n < |plan| ==>
      (st.finished[n] ==> st.q.delivered[n]) && (st.q.delivered[n] ==> st.selects[n] >= 1)
  }

  /** Giving up a push of `n` does no harm. */
  ghost predicate Free(plan: Plan, alone: set<nat>, n: nat) {
    Leaf(plan, n) || n in alone
  }

  /** Rows that are not good are in hand only when good ones were delivered
      before; what comes after the delivery knows of it. Only pushes of leaves and
      of nodes alone were given up, whose rows are always good. */
  ghost predicate Honest(plan: Plan, alone: set<nat>, st: Store, p: Proc)
    requires Fits(plan, st) && ProcShaped(plan, p)
  {
    match p
    case Selected(_, todo, good) => good || (st.q.delivered[todo[0]] && !Free(plan, alone, todo[0]))
    case RootStored(_, todo) => st.q.delivered[todo[0]]
    case RootFlagged(_, todo) => st.q.delivered[todo[0]]
    case Stored(_, todo) => st.q.delivered[todo[0]]
    case Flagged(_, todo) => st.q.delivered[todo[0]]
    case Deleting(_, todo, _) => st.q.delivered[todo[0]] || Free(plan, alone, todo[0])
    case Message(n, good) => good && Free(plan, alone, n) && st.selects[n] >= 1
    case Received(n) => st.q.delivered[n]
    case Forking(n) => st.q.delivered[n]
    case _ => true
  }

  ghost predicate Fed(plan: Plan, alone: set<nat>, s: State)
    requires Shaped(plan, s)
  {
    && (forall c: nat :: Inner(plan, c) ==> Supplied(plan, alone, s.store, c))
    && (forall i :: 0 <= i < |s.procs| ==> Honest(plan, alone, s.store, s.procs[i]))
    && Delivered(plan, s.store)
  }

  /** As long as a node needs its inputs, a select of it finds them all. */
  lemma Finds(plan: Plan, alone: set<nat>, st: Store, n: nat)
    requires Fits(plan, st) && n < |plan| && ChildrenDone(plan, st.finished, n) && Needs(plan, alone, st, n)
    requires Delivered(plan, st)
    requires forall c: nat :: Inner(plan, c) ==> Supplied(plan, alone, st, c)
    ensures SeesInputs(plan, st, n)
  {
    forall c: nat | c < |plan| && plan[c].parent == n
      ensures st.q.sound[c]
    {
      assert Inner(plan, c) && Supplied(plan, alone, st, c);
    }
  }

  /** The step does not give up a push that matters. */
  ghost predicate Careful(plan: Plan, alone: set<nat>, p: Proc, late: bool)
    requires ProcShaped(plan, p)
  {
    late && p.Selected? && Remote(plan, p.todo[0]) ==> Free(plan, alone, p.todo[0])
  }

  /** Nodes of `alone` are not selected a second time. */
  ghost predicate NotAgain(plan: Plan, alone: set<nat>, st: Store, p: Proc)
    requires Fits(plan, st) && ProcShaped(plan, p)
  {
    p.Work? && p.todo != [] && p.todo[0] in alone ==> st.selects[p.todo[0]] == 0
  }

  lemma ActSupplied(plan: Plan, alone: set<nat>, st: Store, p: Proc, late: bool, c: nat)
    requires ParentsExist(plan) && Fine(plan, st, p) && Honest(plan, alone, st, p) && Recorded(plan, st, p)
    requires Careful(plan, alone, p, late) && Inner(plan, c) && Supplied(plan, alone, st, c)
    ensures var m := Act(plan, st, p, late); Fits(plan, m.store) && Supplied(plan, alone, m.store, c)
  {
    hide Picked, Sound, SeesInputs;
  }

  lemma ActDeliversAt(plan: Plan, alone: set<nat>, st: Store, p: Proc, late: bool, n: nat)
    requires ParentsExist(plan) && Fine(plan, st, p) && Honest(plan, alone, st, p) && Recorded(plan, st, p)
    requires n < |plan| && (st.finished[n] ==> st.q.delivered[n]) && (st.q.delivered[n] ==> st.selects[n] >= 1)
    ensures var m := Act(plan, st, p, late);
            && Fits(plan, m.store) && (st.q.delivered[n] ==> m.store.q.delivered[n])
            && (m.store.finished[n] ==> m.store.q.delivered[n]) && (m.store.q.delivered[n] ==> m.store.selects[n] >= 1)
  {
    hide Picked, SeesInputs, Free, Sound;
  }

  lemma ActDelivers(plan: Plan, alone: set<nat>, st: Store, p: Proc, late: bool)
    requires ParentsExist(plan) && Fine(plan, st, p) && Honest(plan, alone, st, p) && Recorded(plan, st, p)
    requires Delivered(plan, st)
    ensures var m := Act(plan, st, p, late);
            && Fits(plan, m.store) && Grows(st.q.delivered, m.store.q.delivered) && Delivered(plan, m.store)
  {
    hide Act, Honest, Recorded, Sound, ProcShaped;
    var m := Act(plan, st, p, late);
    ActRows(plan, st, p, late);
    forall n: nat | n < |plan|
      ensures st.q.delivered[n] ==> m.store.q.delivered[n]
      ensures m.store.finished[n] ==> m.store.q.delivered[n]
      ensures m.store.q.delivered[n] ==> m.store.selects[n] >= 1
    {
      ActDeliversAt(plan, alone, st, p, late, n);
    }
  }

  lemma ActHonest(plan: Plan, alone: set<nat>, st: Store, p: Proc, late: bool)
    requires ParentsExist(plan) && Fine(plan, st, p) && Honest(plan, alone, st, p) && Recorded(plan, st, p)
    requires Careful(plan, alone, p, late) && NotAgain(plan, alone, st, p) && Delivered(plan, st)
    requires forall c: nat :: Inner(plan, c) ==> Supplied(plan, alone, st, c)
    ensures var m := Act(plan, st, p, late);
            && Fits(plan, m.store)
            && (ProcShaped(plan, m.next) ==> Honest(plan, alone, m.store, m.next))
            && (forall q <- m.forked :: ProcShaped(plan, q) ==> Honest(plan, alone, m.store, q))
  {
    hide Picked, Supplied, SeesInputs, Leaf, Delivered;
    if p.Work? && p.todo != [] {
      if Needs(plan, alone, st, p.todo[0]) {
        Finds(plan, alone, st, p.todo[0]);
      }
      LeafSees(plan, st, p.todo[0]);
    }
  }

  lemma LeafSees(plan: Plan, st: Store, n: nat)
    requires Fits(plan, st)
    ensures Leaf(plan, n) ==> SeesInputs(plan, st, n)
  {
  }

  lemma HonestLater(plan: Plan, alone: set<nat>, a: Store, b: Store, p: Proc)
    requires Fits(plan, a) && Fits(plan, b) && ProcShaped(plan, p) && Grows(a.q.delivered, b.q.delivered) && Later(a, b)
    requires Honest(plan, alone, a, p)
    ensures Honest(plan, alone, b, p)
  {
  }

  lemma StepFed(plan: Plan, alone: set<nat>, s: State, i: nat, late: bool)
    requires ParentsExist(plan) && Safe(plan, s) && Accounted(plan, s) && Fed(plan, alone, s)
    requires i < |s.procs| && NotAgain(plan, alone, s.store, s.procs[i]) && Careful(plan, alone, s.procs[i], late)
    ensures Safe(plan, Step(plan, s, i, late)) && Fed(plan, alone, Step(plan, s, i, late))
  {
    hide Act, Sound, Closed, ProcShaped, Honest, Supplied, Kept, Recorded, Delivered, Careful, Later;
    StepSafe(plan, s, i, late);
    var t := Step(plan, s, i, late);
    var m := Act(plan, s.store, s.procs[i], late);
    ActHonest(plan, alone, s.store, s.procs[i], late);
    ActDelivers(plan, alone, s.store, s.procs[i], late);
    ActRows(plan, s.store, s.procs[i], late);
    forall c: nat | Inner(plan, c)
      ensures Supplied(plan, alone, t.store, c)
    {
      ActSupplied(plan, alone, s.store, s.procs[i], late, c);
    }
    forall j | 0 <= j < |t.procs|
      ensures Honest(plan, alone, t.store, t.procs[j])
    {
      assert ProcShaped(plan, t.procs[j]);
      if j < |s.procs| && j != i {
        assert t.procs[j] == s.procs[j];
        HonestLater(plan, alone, s.store, t.store, s.procs[j]);
      } else if j == i {
        assert t.procs[j] == m.next;
      } else {
        assert t.procs[j] in m.forked;
      }
    }
  }

  /** Every sender waits until its rows are stored. */
  ghost predicate Patient(schedule: seq<Turn>) {
    forall k :: 0 <= k < |schedule| ==> !schedule[k].late
  }

  /** Every sender waits until the rows of a node with children are stored. */
  ghost predicate CarefulRun(plan: Plan, s: State, schedule: seq<Turn>)
    requires ParentsExist(plan) && Safe(plan, s)
  {
    schedule == [] ||
    var n := |schedule| - 1;
    var before := Run(plan, s, schedule[..n]);
    && CarefulRun(plan, s, schedule[..n])
    && (schedule[n].i < |before.procs| ==> CarefulTurn(plan, before, schedule[n]))
  }

  ghost predicate CarefulTurn(plan: Plan, s: State, turn: Turn) {
    turn.i < |s.procs| && ProcShaped(plan, s.procs[turn.i]) && Careful(plan, {}, s.procs[turn.i], turn.late)
  }

  lemma {:induction false} PatientIsCareful(plan: Plan, s: State, schedule: seq<Turn>)
    requires ParentsExist(plan) && Safe(plan, s) && Patient(schedule)
    ensures CarefulRun(plan, s, schedule)
  {
    hide Step;
    if schedule != [] {
      var n := |schedule| - 1;
      PatientIsCareful(plan, s, schedule[..n]);
      SafeIsShaped(plan, Run(plan, s, schedule[..n]));
    }
  }

  lemma {:induction false} RunFed(plan: Plan, rank: seq<nat>, root: nat, sites: seq<Site>, schedule: seq<Turn>)
    requires Executable(plan, rank, root, sites) && CarefulRun(plan, Started(plan, sites), schedule)
    ensures var t := Run(plan, Started(plan, sites), schedule);
            Safe(plan, t) && Accounted(plan, t) && Fed(plan, {}, t)
  {
    hide Awake, Accounted, DoneFollows, Act, Fed, Step, Careful;
    var s := Started(plan, sites);
    BeginInv(plan, rank, root, sites);
    if schedule == [] {
      BeginFed(plan, {}, sites);
    } else {
      var n := |schedule| - 1;
      var before := Run(plan, s, schedule[..n]);
      RunFed(plan, rank, root, sites, schedule[..n]);
      RunInv(plan, rank, root, sites, s, schedule);
      if schedule[n].i < |before.procs| {
        StepFed(plan, {}, before, schedule[n].i, schedule[n].late);
      }
    }
  }

  lemma BeginFed(plan: Plan, alone: set<nat>, sites: seq<Site>)
    ensures Shaped(plan, Begin(plan, sites)) && Fed(plan, alone, Begin(plan, sites))
  {
  }

  /** In every run with careful senders, duplicates included: a process about to
      select a node whose rows were not delivered yet, in particular for the
      first time, finds at its own site good rows of every child. */
  lemma InputsAreThere(plan: Plan, rank: seq<nat>, root: nat, sites: seq<Site>, schedule: seq<Turn>, i: nat)
    requires Executable(plan, rank, root, sites) && CarefulRun(plan, Started(plan, sites), schedule)
    requires var t := Run(plan, Started(plan, sites), schedule);
             i < |t.procs| && t.procs[i].Work? && t.procs[i].todo != []
    ensures var t := Run(plan, Started(plan, sites), schedule);
            var n := t.procs[i].todo[0];
            && n < |plan| && t.procs[i].site == plan[n].site
            && (t.store.selects[n] == 0 ==> !t.store.q.delivered[n])
            && (!t.store.q.delivered[n] ==> SeesInputs(plan, t.store, n))
  {
    hide Run, Accounted, Supplied, SeesInputs;
    RunFed(plan, rank, root, sites, schedule);
    var t := Run(plan, Started(plan, sites), schedule);
    var n := t.procs[i].todo[0];
    assert Fine(plan, t.store, t.procs[i]);
    if !t.store.q.delivered[n] {
      Finds(plan, {}, t.store, n);
    }
  }

  /** In such a run good rows of every finished node were delivered, and a set
      done flag means that a good result was written. */
  lemma DoneMeansDelivered(plan: Plan, rank: seq<nat>, root: nat, sites: seq<Site>, schedule: seq<Turn>)
    requires Executable(plan, rank, root, sites) && CarefulRun(plan, Started(plan, sites), schedule)
    ensures var t := Run(plan, Started(plan, sites), schedule);
            && (forall n :: 0 <= n < |plan| && t.store.finished[n] ==> t.store.q.delivered[n])
            && (t.store.done ==> t.store.q.delivered[root])
  {
    hide Run, Accounted, Awake;
    RunFed(plan, rank, root, sites, schedule);
    BeginInv(plan, rank, root, sites);
    RunInv(plan, rank, root, sites, Started(plan, sites), schedule);
  }
}
