/** When a node is executed only once, and when the client's result is good:
    the exact conditions on the plan. */
module PlanChain {
  import opened PlanProtocol
  import opened PlanProofs
  import opened PlanRows
  import opened PlanTheorems
  import opened PlanTree
  import opened PlanInputs
  import opened PlanSolo
  import opened PlanDuplicates
  import opened PlanOnce
  import opened PlanAlone

  // ---- Good rows, whatever is given up ----

  lemma NoSecond(plan: Plan, rank: seq<nat>, root: nat, sites: seq<Site>, alone: set<nat>, schedule: seq<Turn>, i: nat)
    requires Executable(plan, rank, root, sites) && Distinct(sites)
    requires forall v <- alone :: v < |plan| && Lone(plan, rank, v)
    requires i < |Run(plan, Started(plan, sites), schedule).procs|
    ensures var t := Run(plan, Started(plan, sites), schedule);
            Shaped(plan, t) && NotAgain(plan, alone, t.store, t.procs[i])
  {
    hide Run, Lone, Alone;
    var t := Run(plan, Started(plan, sites), schedule);
    SafeIsShaped(plan, t);
    var p := t.procs[i];
    if p.Work? && p.todo != [] && p.todo[0] in alone {
      RunAlone(plan, rank, root, sites, schedule, p.todo[0]);
      Itself(plan, rank, p.todo[0]);
      FirstOnly(plan, rank, p.todo[0], t, i);
    }
  }

  /** When the nodes of `alone` are, and all others with children push within
      their site, then senders need not wait at all. */
  lemma {:induction false} RunFree(plan: Plan, rank: seq<nat>, root: nat, sites: seq<Site>, alone: set<nat>,
                                   schedule: seq<Turn>)
    requires Executable(plan, rank, root, sites) && Distinct(sites)
    requires forall v <- alone :: v < |plan| && Lone(plan, rank, v)
    requires forall w: nat :: w < |plan| && Remote(plan, w) ==> Free(plan, alone, w)
    ensures var t := Run(plan, Started(plan, sites), schedule);
            Safe(plan, t) && Accounted(plan, t) && Fed(plan, alone, t)
  {
    hide Awake, Accounted, DoneFollows, Act, Fed, Step, Free, Remote, NotAgain, Lone;
    var s := Started(plan, sites);
    BeginInv(plan, rank, root, sites);
    if schedule == [] {
      BeginFed(plan, alone, sites);
    } else {
      var n := |schedule| - 1;
      var before := Run(plan, s, schedule[..n]);
      RunFree(plan, rank, root, sites, alone, schedule[..n]);
      RunInv(plan, rank, root, sites, s, schedule[..n]);
      RunInv(plan, rank, root, sites, s, schedule);
      if schedule[n].i < |before.procs| {
        NoSecond(plan, rank, root, sites, alone, schedule[..n], schedule[n].i);
        StepFed(plan, alone, before, schedule[n].i, schedule[n].late);
      }
    }
  }

  // ---- The result ----

  /** A result is good, and it is there once good rows of the root were written. */
  ghost predicate GoodSoFar(root: nat, st: Store)
    requires root < |st.q.delivered|
  {
    st.q.result != Result(false) && (st.q.delivered[root] ==> st.q.result.Result?)
  }

  lemma ActResult(plan: Plan, root: nat, st: Store, p: Proc, late: bool)
    requires ParentsExist(plan) && Fine(plan, st, p) && Honest(plan, {root}, st, p)
    requires root < |plan| && forall n :: 0 <= n < |plan| ==> (plan[n].parent == -1 <==> n == root)
    requires GoodSoFar(root, st)
    ensures var m := Act(plan, st, p, late); Fits(plan, m.store) && GoodSoFar(root, m.store)
  {
    hide Picked, SeesInputs, Sound, Leaf;
  }

  lemma {:induction false} RunResult(plan: Plan, rank: seq<nat>, root: nat, sites: seq<Site>, schedule: seq<Turn>)
    requires Executable(plan, rank, root, sites) && Distinct(sites) && Lone(plan, rank, root)
    requires forall w: nat :: w < |plan| ==> !Remote(plan, w)
    ensures var t := Run(plan, Started(plan, sites), schedule);
            Shaped(plan, t) && Fed(plan, {root}, t) && GoodSoFar(root, t.store)
  {
    hide Act, Sound, ProcShaped, Honest, Supplied, Delivered, Lone, Accounted;
    var s := Started(plan, sites);
    SafeIsShaped(plan, Run(plan, s, schedule));
    RunFree(plan, rank, root, sites, {root}, schedule);
    if schedule != [] {
      var n := |schedule| - 1;
      var before := Run(plan, s, schedule[..n]);
      RunResult(plan, rank, root, sites, schedule[..n]);
      if schedule[n].i < |before.procs| {
        ActResult(plan, root, before.store, before.procs[schedule[n].i], schedule[n].late);
      }
    }
  }

  // ---- A second execution ----

  /** A process comes to `v` among the nodes it picked and executes it. */
  lemma ComesTo(plan: Plan, s: State, schedule: seq<Turn>, t: State, i: nat, k: nat)
    returns (longer: seq<Turn>, u: State)
    requires Reaches(plan, s, schedule, t) && Fits(plan, t.store)
    requires i < |t.procs| && t.procs[i].Work? && AllInner(plan, t.procs[i].todo) && Rising(t.procs[i].todo)
    requires k < |t.procs[i].todo|
    ensures Reaches(plan, s, longer, u) && Fits(plan, u.store) && |t.procs| <= |u.procs|
    ensures forall j :: 0 <= j < |t.procs| && j != i ==> u.procs[j] == t.procs[j]
    ensures var v := t.procs[i].todo[k]; u.store.selects[v] == t.store.selects[v] + 1
  {
    hide Reaches;
    var todo := t.procs[i].todo;
    assert todo == todo[..k] + todo[k..];
    longer, u := ExecuteAll(plan, s, schedule, t, i, todo[..k], todo[k..]);
    longer, u := ExecuteOne(plan, s, longer, u, i);
  }

  lemma InnerTwice(plan: Plan, rank: seq<nat>, root: nat, sites: seq<Site>, schedule: seq<Turn>, t: State,
                   a: nat, b: nat, v: nat)
    returns (longer: seq<Turn>, u: State)
    requires Executable(plan, rank, root, sites) && Reaches(plan, Started(plan, sites), schedule, t)
    requires Fits(plan, t.store) && TwoFor(plan, t, v, a, b) && v != root
    ensures Reaches(plan, Started(plan, sites), longer, u) && Fits(plan, u.store) && u.store.selects[v] >= 2
  {
    hide Reaches, Now;
    var s := Started(plan, sites);
    var site := plan[v].site;
    var todo := Now(plan, t, site);
    NowIs(plan, t, site);
    ReachesFits(plan, s, schedule, t);
    if Ready(plan, t, root) {
      RootLast(plan, rank, root, sites, t, v);
    }
    NowInner(plan, rank, root, sites, t, site);
    var k: nat :| k < |todo| && todo[k] == v;
    longer, u := BothPick(plan, s, schedule, t, a, b, site);
    longer, u := ComesTo(plan, s, longer, u, a, k);
    longer, u := ComesTo(plan, s, longer, u, b, k);
  }

  // ---- The exact conditions ----

  ghost predicate NodeOnceIn(plan: Plan, sites: seq<Site>, v: nat, schedule: seq<Turn>)
    requires ParentsExist(plan)
  {
    var t := Run(plan, Started(plan, sites), schedule);
    v < |t.store.selects| ==> t.store.selects[v] <= 1
  }

  ghost predicate OnceIn(plan: Plan, sites: seq<Site>, schedule: seq<Turn>)
    requires ParentsExist(plan)
  {
    var t := Run(plan, Started(plan, sites), schedule);
    forall n :: 0 <= n < |t.store.selects| ==> t.store.selects[n] <= 1
  }

  ghost predicate GoodIn(plan: Plan, sites: seq<Site>, schedule: seq<Turn>)
    requires ParentsExist(plan)
  {
    var t := Run(plan, Started(plan, sites), schedule);
    t.store.done ==> t.store.q.result == Result(true)
  }

  lemma BelowOnce(plan: Plan, rank: seq<nat>, root: nat, sites: seq<Site>, v: nat, n: nat, schedule: seq<Turn>)
    requires Executable(plan, rank, root, sites) && Distinct(sites) && v < |plan| && Lone(plan, rank, v)
    requires n < |plan| && Above(plan, rank, v, n)
    ensures NodeOnceIn(plan, sites, n, schedule)
  {
    hide Run, Lone, Above;
    RunAlone(plan, rank, root, sites, schedule, v);
  }

  /** A node with children is selected at most once in every schedule if and only
      if what is below it is one chain at its site and only what is above or
      below leaves scans there; patient senders make no difference. */
  lemma NodeOnceIff(plan: Plan, rank: seq<nat>, root: nat, sites: seq<Site>, v: nat)
    requires Executable(plan, rank, root, sites) && Distinct(sites) && v < |plan| && !Leaf(plan, v)
    ensures (forall schedule: seq<Turn> :: NodeOnceIn(plan, sites, v, schedule)) <==> Lone(plan, rank, v)
    ensures (forall schedule: seq<Turn> :: Patient(schedule) ==> NodeOnceIn(plan, sites, v, schedule))
            <==> Lone(plan, rank, v)
  {
    hide Run, Lone, Above;
    if Lone(plan, rank, v) {
      Itself(plan, rank, v);
      forall schedule: seq<Turn>
        ensures NodeOnceIn(plan, sites, v, schedule)
      {
        BelowOnce(plan, rank, root, sites, v, v, schedule);
      }
    } else {
      var schedule, t, a, b := Doubled(plan, rank, root, sites, v);
      if v == root {
        var c: nat :| c < |plan| && plan[c].parent == v;
        schedule, t := RootTwice(plan, rank, root, sites, schedule, t, a, b, c);
      } else {
        schedule, t := InnerTwice(plan, rank, root, sites, schedule, t, a, b, v);
      }
      assert Patient(schedule) && !NodeOnceIn(plan, sites, v, schedule);
    }
  }

  lemma ChainOnce(plan: Plan, rank: seq<nat>, root: nat, sites: seq<Site>, schedule: seq<Turn>)
    requires Executable(plan, rank, root, sites) && SingleChain(plan) && Distinct(sites)
    ensures OnceIn(plan, sites, schedule)
  {
    hide Run, SingleChain, Above, Lone;
    ChainIsLone(plan, rank, root, sites);
    var t := Run(plan, Started(plan, sites), schedule);
    SafeIsShaped(plan, t);
    forall n: nat | n < |plan|
      ensures t.store.selects[n] <= 1
    {
      RootAbove(plan, rank, root, n);
      BelowOnce(plan, rank, root, sites, root, n, schedule);
    }
  }

  lemma ChainGood(plan: Plan, rank: seq<nat>, root: nat, sites: seq<Site>, schedule: seq<Turn>)
    requires Executable(plan, rank, root, sites) && SingleChain(plan) && Distinct(sites)
    ensures GoodIn(plan, sites, schedule)
  {
    hide Run, Accounted, Awake, Lone;
    ChainIsLone(plan, rank, root, sites);
    RunResult(plan, rank, root, sites, schedule);
    BeginInv(plan, rank, root, sites);
    RunInv(plan, rank, root, sites, Started(plan, sites), schedule);
  }

  /** Every node is selected at most once in every schedule if and only if the
      plan is one chain at one site; patient senders make no difference. */
  lemma OnceIff(plan: Plan, rank: seq<nat>, root: nat, sites: seq<Site>)
    requires Executable(plan, rank, root, sites) && Distinct(sites)
    ensures (forall schedule: seq<Turn> :: OnceIn(plan, sites, schedule)) <==> SingleChain(plan)
    ensures (forall schedule: seq<Turn> :: Patient(schedule) ==> OnceIn(plan, sites, schedule)) <==> SingleChain(plan)
  {
    hide Run, SingleChain;
    if SingleChain(plan) {
      forall schedule: seq<Turn>
        ensures OnceIn(plan, sites, schedule)
      {
        ChainOnce(plan, rank, root, sites, schedule);
      }
    } else {
      var schedule := ExecutedTwice(plan, rank, root, sites);
      assert !OnceIn(plan, sites, schedule);
    }
  }

  /** The result that the client reads comes from a select that saw good rows of
      all its inputs, in every schedule, if and only if the plan is one chain at
      one site; patient senders make no difference. */
  lemma ResultGoodIff(plan: Plan, rank: seq<nat>, root: nat, sites: seq<Site>)
    requires Executable(plan, rank, root, sites) && Distinct(sites)
    ensures (forall schedule: seq<Turn> :: GoodIn(plan, sites, schedule)) <==> SingleChain(plan)
    ensures (forall schedule: seq<Turn> :: Patient(schedule) ==> GoodIn(plan, sites, schedule)) <==> SingleChain(plan)
  {
    hide Run, SingleChain;
    if SingleChain(plan) {
      forall schedule: seq<Turn>
        ensures GoodIn(plan, sites, schedule)
      {
        ChainGood(plan, rank, root, sites, schedule);
      }
    } else {
      var schedule := ExecutedTwice(plan, rank, root, sites);
      assert !GoodIn(plan, sites, schedule);
    }
  }
}
