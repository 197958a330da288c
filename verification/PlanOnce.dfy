/** Which nodes two scans can reach: exactly those that are not alone on their
    way up. Where that is the root, the client's result comes from a second
    execution. */
module PlanOnce {
  import opened PlanProtocol
  import opened PlanProofs
  import opened PlanTheorems
  import opened PlanTree
  import opened PlanInputs
  import opened PlanSolo
  import opened PlanDuplicates

  /** No node has two children, and all nodes are at one site. */
  ghost predicate SingleChain(plan: Plan) {
    && (forall a: nat, b: nat :: a < |plan| && b < |plan| && plan[a].parent == plan[b].parent != -1 ==> a == b)
    && (forall a: nat, b: nat :: a < |plan| && b < |plan| ==> plan[a].site == plan[b].site)
  }

  /** Every site has its first scan to come. */
  lemma BeginAttended(plan: Plan, rank: seq<nat>, root: nat, sites: seq<Site>, v: nat)
    requires Executable(plan, rank, root, sites)
    ensures var s := Started(plan, sites);
            Reaches(plan, s, [], s) && Fits(plan, s.store) && Attended(plan, rank, s, -1, v)
  {
    hide Above;
    var s := Started(plan, sites);
    SafeIsShaped(plan, s);
    forall m: nat | m < |plan|
      ensures Served(s.procs, -1, plan[m].site)
    {
      var i :| 0 <= i < |sites| && sites[i] == plan[m].site;
      assert s.procs[i] == Start(plan[m].site);
    }
  }

  // ---- A node with two children ----

  /** Scans run until a child of `v` is executed; its scan can be spared when it
      is not the only child. */
  lemma {:induction false} UntilChild(plan: Plan, rank: seq<nat>, root: nat, sites: seq<Site>, s: State,
                                      schedule: seq<Turn>, t: State, v: nat, x: nat, y: nat)
    returns (longer: seq<Turn>, u: State, e: nat)
    requires Executable(plan, rank, root, sites) && Reaches(plan, s, schedule, t) && Fits(plan, t.store)
    requires Attended(plan, rank, t, -1, v)
    requires Inner(plan, x) && Inner(plan, y) && x != y && plan[x].parent == plan[y].parent == v
    requires forall c: nat :: c < |plan| && plan[c].parent == v ==> !t.store.finished[c]
    ensures Reaches(plan, s, longer, u) && Fits(plan, u.store) && Spare(plan, rank, u, e, v) && Onward(plan, t, u)
    decreases Unfinished(t)
  {
    hide Reaches, Now, Attended, Onward, Above, Beside;
    var m := SomeReady(plan, rank, t, v);
    var site := plan[m].site;
    var todo := Now(plan, t, site);
    var a;
    longer, u, a := Advance(plan, rank, root, sites, s, schedule, t, -1, v, m);
    ReachesFits(plan, s, schedule, t);
    StaysUnfinished(plan, t, site, u, v);
    if k: nat :| k < |todo| && plan[todo[k]].parent == v {
      e := |t.procs| + k;
      if Ready(plan, u, v) {
        assert x in todo && y in todo;
        var z := if todo[k] == x then y else x;
        var j: nat :| j < |todo| && todo[j] == z;
      }
      AttendedAfter(plan, rank, t, site, {a}, u, |t.procs|, e, v);
      NothingOnward(plan, u);
      AddsOnward(plan, t, site, u, u);
    } else {
      var w := u;
      longer, u, e := UntilChild(plan, rank, root, sites, s, longer, u, v, x, y);
      AddsOnward(plan, t, site, w, u);
    }
  }

  // ---- A change of site ----

  /** Node `w` below `v` pushes its rows to another site. */
  ghost predicate RemoteBelow(plan: Plan, rank: seq<nat>, v: nat, w: nat)
    requires ParentsExist(plan) && Ranked(plan, rank)
  {
    w < |plan| && w != v && Remote(plan, w) && Above(plan, rank, v, w)
  }

  lemma {:induction false} AllAtOneSite(plan: Plan, rank: seq<nat>, v: nat, n: nat)
    requires ParentsExist(plan) && Ranked(plan, rank) && v < |plan| && n < |plan| && Above(plan, rank, v, n)
    requires forall w: nat :: w < |plan| ==> !RemoteBelow(plan, rank, v, w)
    ensures plan[n].site == plan[v].site
    decreases MaxRank(rank) - rank[n]
  {
    RankBelowMax(rank, n);
    if n != v {
      RankBelowMax(rank, plan[n].parent);
      AllAtOneSite(plan, rank, v, plan[n].parent);
      assert !RemoteBelow(plan, rank, v, n);
    }
  }

  /** A lowest remote push: none is below it. */
  lemma {:induction false} LowestRemote(plan: Plan, rank: seq<nat>, v: nat, w: nat) returns (low: nat)
    requires ParentsExist(plan) && Ranked(plan, rank) && RemoteBelow(plan, rank, v, w)
    ensures RemoteBelow(plan, rank, v, low)
    ensures forall x: nat :: RemoteBelow(plan, rank, v, x) ==> rank[x] >= rank[low]
    decreases rank[w]
  {
    if x: nat :| RemoteBelow(plan, rank, v, x) && rank[x] < rank[w] {
      low := LowestRemote(plan, rank, v, x);
    } else {
      low := w;
    }
  }

  /** Below the lowest remote push all nodes are at one site. */
  lemma {:induction false} SameSiteBelow(plan: Plan, rank: seq<nat>, v: nat, w: nat, n: nat)
    requires ParentsExist(plan) && Ranked(plan, rank) && v < |plan| && RemoteBelow(plan, rank, v, w)
    requires n < |plan| && Above(plan, rank, w, n)
    requires forall x: nat :: RemoteBelow(plan, rank, v, x) ==> rank[x] >= rank[w]
    ensures plan[n].site == plan[w].site
    decreases MaxRank(rank) - rank[n]
  {
    RankBelowMax(rank, n);
    RankAbove(plan, rank, w, n);
    if n != w {
      RankBelowMax(rank, plan[n].parent);
      SameSiteBelow(plan, rank, v, w, plan[n].parent);
      AboveTrans(plan, rank, v, w, n);
      RankAbove(plan, rank, v, w);
      assert !RemoteBelow(plan, rank, v, n);
    }
  }

  /** Where the lowest remote push below `v` arrives, the first scan of the site
      has nothing to do before. */
  lemma FromSiteChange(plan: Plan, rank: seq<nat>, root: nat, sites: seq<Site>, v: nat) returns (u: nat, e: nat)
    requires Executable(plan, rank, root, sites) && v < |plan| && OnePath(plan, rank, v) && !OneSite(plan, rank, v)
    ensures u < |plan| && Above(plan, rank, v, u)
    ensures Fits(plan, Started(plan, sites).store) && Spare(plan, rank, Started(plan, sites), e, u)
  {
    hide Above, Leaf, OnePath, Attended;
    if forall w: nat :: w < |plan| ==> !RemoteBelow(plan, rank, v, w) {
      forall n: nat | n < |plan| && Above(plan, rank, v, n)
        ensures plan[n].site == plan[v].site
      {
        AllAtOneSite(plan, rank, v, n);
      }
    }
    var w: nat :| w < |plan| && RemoteBelow(plan, rank, v, w);
    w := LowestRemote(plan, rank, v, w);
    u := plan[w].parent;
    ParentAbove(plan, rank, v, w);
    e :| 0 <= e < |sites| && sites[e] == plan[u].site;
    BeginAttended(plan, rank, root, sites, u);
    FirstScanIdle(plan, rank, root, sites, v, w, e);
  }

  lemma ParentAbove(plan: Plan, rank: seq<nat>, v: nat, w: nat)
    requires ParentsExist(plan) && Ranked(plan, rank) && Inner(plan, w) && w != v && Above(plan, rank, v, w)
    ensures Above(plan, rank, v, plan[w].parent)
  {
  }

  lemma FirstScanIdle(plan: Plan, rank: seq<nat>, root: nat, sites: seq<Site>, v: nat, w: nat, e: nat)
    requires Executable(plan, rank, root, sites) && v < |plan| && OnePath(plan, rank, v)
    requires RemoteBelow(plan, rank, v, w) && Above(plan, rank, v, plan[w].parent)
    requires forall x: nat :: RemoteBelow(plan, rank, v, x) ==> rank[x] >= rank[w]
    requires e < |sites| && sites[e] == plan[plan[w].parent].site
    ensures var s := Started(plan, sites); Fits(plan, s.store) && Attended(plan, rank, s, e, plan[w].parent)
  {
    hide Above, OnePath, Remote;
    var s := Started(plan, sites);
    RemoteSites(plan, w);
    var u := plan[w].parent;
    BeginAttended(plan, rank, root, sites, u);
    forall m: nat | m < |plan| && Ready(plan, s, m) && Above(plan, rank, u, m)
      ensures Served(s.procs, e, plan[m].site)
    {
      assert m != u;
      var c := Between(plan, rank, u, m);
      OnlyChild(plan, rank, v, c, w);
      SameSiteBelow(plan, rank, v, w, m);
      var i :| 0 <= i < |sites| && sites[i] == plan[m].site;
      assert s.procs[i] == Start(plan[m].site);
    }
  }

  lemma OnlyChild(plan: Plan, rank: seq<nat>, v: nat, c: nat, w: nat)
    requires ParentsExist(plan) && Ranked(plan, rank) && OnePath(plan, rank, v)
    requires Inner(plan, c) && Inner(plan, w) && plan[c].parent == plan[w].parent && Above(plan, rank, v, plan[w].parent)
    ensures c == w
  {
  }

  lemma RemoteSites(plan: Plan, w: nat)
    requires Remote(plan, w)
    ensures Inner(plan, w) && plan[plan[w].parent].site != plan[w].site
  {
  }

  // ---- A scan from elsewhere ----

  /** A lowest stray node. */
  lemma {:induction false} LowestStray(plan: Plan, rank: seq<nat>, v: nat, x: nat) returns (low: nat)
    requires ParentsExist(plan) && Ranked(plan, rank) && v < |plan| && Stray(plan, rank, v, x)
    ensures Stray(plan, rank, v, low)
    ensures forall y: nat :: Stray(plan, rank, v, y) ==> rank[y] >= rank[low]
    decreases rank[x]
  {
    if y: nat :| Stray(plan, rank, v, y) && rank[y] < rank[x] {
      low := LowestStray(plan, rank, v, y);
    } else {
      low := x;
    }
  }

  /** Of what is at or below the lowest stray node only leaves are at the site of
      `v`. */
  lemma StrayLeaves(plan: Plan, rank: seq<nat>, v: nat, x: nat, m: nat)
    requires ParentsExist(plan) && Ranked(plan, rank) && v < |plan| && Stray(plan, rank, v, x)
    requires forall y: nat :: Stray(plan, rank, v, y) ==> rank[y] >= rank[x]
    requires m < |plan| && Above(plan, rank, x, m) && plan[m].site == plan[v].site
    ensures Leaf(plan, m)
  {
    if z: nat :| z < |plan| && plan[z].parent == m {
      RankAbove(plan, rank, x, m);
      ChildBelow(plan, rank, x, z);
      if Above(plan, rank, v, z) {
        AboveLinear(plan, rank, v, x, z);
      }
      if Above(plan, rank, z, v) {
        AboveTrans(plan, rank, x, z, v);
      }
    }
  }

  /** At or below `v` only leaves are finished, and if any is, then all leaves of
      the site are. */
  ghost predicate OnlyLeaves(plan: Plan, rank: seq<nat>, t: State, v: nat)
    requires ParentsExist(plan) && Ranked(plan, rank) && Fits(plan, t.store) && v < |plan|
  {
    forall n: nat :: n < |plan| && Above(plan, rank, v, n) && t.store.finished[n] ==>
      && Leaf(plan, n)
      && forall l: nat :: Leaf(plan, l) && plan[l].site == plan[v].site ==> t.store.finished[l]
  }

  lemma StillOnlyLeaves(plan: Plan, rank: seq<nat>, t: State, u: State, v: nat, m: nat)
    requires ParentsExist(plan) && Ranked(plan, rank) && Fits(plan, t.store) && Fits(plan, u.store)
    requires v < |plan| && OneSite(plan, rank, v) && OnlyLeaves(plan, rank, t, v)
    requires Ready(plan, t, m) && (plan[m].site == plan[v].site ==> Leaf(plan, m))
    requires Adds(plan, t, u, Now(plan, t, plan[m].site))
    ensures OnlyLeaves(plan, rank, u, v)
  {
    hide Now, Above, Beside;
    NowIs(plan, t, plan[m].site);
    forall n: nat | n < |plan| && Above(plan, rank, v, n) && u.store.finished[n] && !t.store.finished[n]
      ensures Leaf(plan, n)
      ensures forall l: nat :: Leaf(plan, l) && plan[l].site == plan[v].site ==> u.store.finished[l]
    {
      if c: nat :| c < |plan| && plan[c].parent == n {
        ChildBelow(plan, rank, v, c);
      }
      forall l: nat | Leaf(plan, l) && plan[l].site == plan[v].site
        ensures u.store.finished[l]
      {
        assert t.store.finished[l] || Ready(plan, t, l);
      }
    }
  }

  /** Scans run until the stray node `x` is executed; the scan it leaves at the
      site of `v` can be spared there. */
  lemma {:induction false} UntilStray(plan: Plan, rank: seq<nat>, root: nat, sites: seq<Site>, s: State,
                                      schedule: seq<Turn>, t: State, v: nat, x: nat)
    returns (longer: seq<Turn>, u: State, e: nat)
    requires Executable(plan, rank, root, sites) && Reaches(plan, s, schedule, t) && Fits(plan, t.store)
    requires v < |plan| && !Leaf(plan, v) && OneSite(plan, rank, v) && Stray(plan, rank, v, x)
    requires forall y: nat :: Stray(plan, rank, v, y) ==> rank[y] >= rank[x]
    requires Attended(plan, rank, t, -1, v) && OnlyLeaves(plan, rank, t, v) && !t.store.finished[x]
    ensures Reaches(plan, s, longer, u) && Fits(plan, u.store) && Spare(plan, rank, u, e, v) && Onward(plan, t, u)
    decreases Unfinished(t)
  {
    hide Reaches, Now, Attended, Onward, Leaf, OneSite, Above, Fired, Spare, OnlyLeaves, ChildrenDone, Adds;
    var m := x;
    Itself(plan, rank, x);
    if !ChildrenDone(plan, t.store.finished, x) {
      m := SomeReady(plan, rank, t, x);
    }
    var site := plan[m].site;
    if site == plan[v].site {
      StrayLeaves(plan, rank, v, x, m);
    }
    var a;
    longer, u, a := Advance(plan, rank, root, sites, s, schedule, t, -1, v, m);
    FiredAdds(plan, t, site, {a}, u, |t.procs|);
    StillOnlyLeaves(plan, rank, t, u, v, m);
    if u.store.finished[x] {
      e := StraySpare(plan, rank, t, site, {a}, u, v, x);
      NothingOnward(plan, u);
      AddsOnward(plan, t, site, u, u);
    } else {
      var w := u;
      longer, u, e := UntilStray(plan, rank, root, sites, s, longer, u, v, x);
      AddsOnward(plan, t, site, w, u);
    }
  }

  lemma StraySpare(plan: Plan, rank: seq<nat>, t: State, site: Site, used: set<int>, u: State, v: nat, x: nat)
    returns (e: nat)
    requires ParentsExist(plan) && Ranked(plan, rank) && Fits(plan, t.store) && Fits(plan, u.store)
    requires Fired(plan, t, site, used, u, |t.procs|) && Attended(plan, rank, t, -1, v)
    requires v < |plan| && !Leaf(plan, v) && Stray(plan, rank, v, x) && OnlyLeaves(plan, rank, u, v)
    requires u.store.finished[x] && !t.store.finished[x]
    ensures Spare(plan, rank, u, e, v)
  {
    hide Now, Attended, Leaf, Beside;
    var todo := Now(plan, t, site);
    var k: nat :| k < |todo| && todo[k] == x;
    e := |t.procs| + k;
    AttendedAfter(plan, rank, t, site, used, u, |t.procs|, e, v);
    Itself(plan, rank, v);
  }

  // ---- Two scans for a node ----

  /** A node with children that is not alone is reached by two scans. */
  lemma Doubled(plan: Plan, rank: seq<nat>, root: nat, sites: seq<Site>, v: nat)
    returns (schedule: seq<Turn>, t: State, a: nat, b: nat)
    requires Executable(plan, rank, root, sites) && v < |plan| && !Leaf(plan, v) && !Lone(plan, rank, v)
    ensures Reaches(plan, Started(plan, sites), schedule, t) && Fits(plan, t.store) && TwoFor(plan, t, v, a, b)
    ensures Attended(plan, rank, t, -1, v)
    ensures Fits(plan, Started(plan, sites).store) && Onward(plan, Started(plan, sites), t)
  {
    hide Reaches, Leaf, Above, OnePath, OneSite, Attended, Onward, TwoFor;
    var s := Started(plan, sites);
    BeginAttended(plan, rank, root, sites, v);
    var u, e, w := s, 0, v;
    schedule := [];
    if !OnePath(plan, rank, v) {
      var x, y := Branch(plan, rank, v);
      w := plan[x].parent;
      BeginAttended(plan, rank, root, sites, w);
      schedule, u, e := UntilChild(plan, rank, root, sites, s, [], s, w, x, y);
    } else if !OneSite(plan, rank, v) {
      w, e := FromSiteChange(plan, rank, root, sites, v);
      NothingOnward(plan, s);
    } else {
      var x: nat :| x < |plan| && Stray(plan, rank, v, x);
      x := LowestStray(plan, rank, v, x);
      schedule, u, e := UntilStray(plan, rank, root, sites, s, [], s, v, x);
      Itself(plan, rank, v);
    }
    schedule, t, a, b := Climb(plan, rank, root, sites, s, schedule, u, e, w, v);
    OnwardTrans(plan, s, u, t);
  }

  lemma Branch(plan: Plan, rank: seq<nat>, v: nat) returns (x: nat, y: nat)
    requires ParentsExist(plan) && Ranked(plan, rank) && !OnePath(plan, rank, v)
    ensures Inner(plan, x) && Inner(plan, y) && x != y && plan[x].parent == plan[y].parent
    ensures Above(plan, rank, v, plan[x].parent)
  {
    x, y :| Inner(plan, x) && Inner(plan, y) && plan[x].parent == plan[y].parent && x != y
            && Above(plan, rank, v, plan[x].parent);
  }

  // ---- The root is executed twice ----

  lemma OnlyRoot(plan: Plan, rank: seq<nat>, root: nat, sites: seq<Site>, t: State)
    requires Executable(plan, rank, root, sites) && Fits(plan, t.store) && Closed(plan, t.store.finished)
    requires Ready(plan, t, root)
    ensures Now(plan, t, plan[root].site) == [root]
  {
    hide Now, ChildrenDone;
    var todo := Now(plan, t, plan[root].site);
    NowIs(plan, t, plan[root].site);
    forall k | 0 <= k < |todo|
      ensures todo[k] == root
    {
      assert todo[k] in todo;
      if todo[k] != root {
        RootLast(plan, rank, root, sites, t, todo[k]);
      }
    }
    assert root in todo;
    var last := |todo| - 1;
    assert todo[0] == todo[last];
  }

  /** The root's rows are selected and written to the result. */
  lemma RootWrites(plan: Plan, s: State, schedule: seq<Turn>, t: State, i: nat) returns (longer: seq<Turn>, u: State)
    requires Reaches(plan, s, schedule, t) && Fits(plan, t.store)
    requires i < |t.procs| && t.procs[i].Work? && t.procs[i].todo != []
    requires t.procs[i].todo[0] < |plan| && plan[t.procs[i].todo[0]].parent == -1
    ensures Reaches(plan, s, longer, u) && Fits(plan, u.store)
    ensures var n := t.procs[i].todo[0];
            && u.procs == t.procs[i := RootStored(t.procs[i].site, t.procs[i].todo)]
            && u.store == WriteResult(t.store.(selects := Add(t.store.selects, n)), n, SeesInputs(plan, t.store, n))
  {
    hide Reaches, SeesInputs, Picked;
    ReachesShaped(plan, s, schedule, t);
    var site, todo := t.procs[i].site, t.procs[i].todo;
    longer, u := GoOn(plan, s, schedule, t, i, false);
    assert u.procs == t.procs[i := Selected(site, todo, SeesInputs(plan, t.store, todo[0]))];
    longer, u := GoOn(plan, s, longer, u, i, false);
    assert u.procs == t.procs[i := RootStored(site, todo)];
  }

  /** The flags of the root are set and the tables of its children dropped. */
  lemma RootRest(plan: Plan, s: State, schedule: seq<Turn>, t: State, i: nat) returns (longer: seq<Turn>, u: State)
    requires Reaches(plan, s, schedule, t) && Fits(plan, t.store)
    requires i < |t.procs| && t.procs[i].RootStored? && t.procs[i].todo != [] && t.procs[i].todo[0] < |plan|
    ensures Reaches(plan, s, longer, u) && Fits(plan, u.store)
    ensures var n := t.procs[i].todo[0];
            && Dropped(plan, SetFlag(t.store, n).(done := true), u.store, n, 0)
            && u.procs == t.procs[i := Work(t.procs[i].site, t.procs[i].todo[1..])]
  {
    hide Reaches, SeesInputs, Picked, Dropped;
    ReachesShaped(plan, s, schedule, t);
    var site, todo := t.procs[i].site, t.procs[i].todo;
    longer, u := GoOn(plan, s, schedule, t, i, false);
    assert u.procs == t.procs[i := RootFlagged(site, todo)];
    longer, u := GoOn(plan, s, longer, u, i, false);
    assert u.procs == t.procs[i := Deleting(site, todo, 0)];
    longer, u := DropAlone(plan, s, longer, u, i, 0);
    assert u.procs == t.procs[i := Work(site, todo[1..])];
  }

  /** The second execution finds nothing and overwrites the result. */
  lemma RootTwice(plan: Plan, rank: seq<nat>, root: nat, sites: seq<Site>, schedule: seq<Turn>, t: State,
                  a: nat, b: nat, c: nat)
    returns (longer: seq<Turn>, u: State)
    requires Executable(plan, rank, root, sites) && Reaches(plan, Started(plan, sites), schedule, t)
    requires Fits(plan, t.store) && TwoFor(plan, t, root, a, b) && c < |plan| && plan[c].parent == root
    ensures Reaches(plan, Started(plan, sites), longer, u) && Fits(plan, u.store)
    ensures u.store.done && u.store.q.result == Result(false) && u.store.selects[root] >= 2
  {
    hide Reaches, Now, Ready;
    var s := Started(plan, sites);
    var site := plan[root].site;
    ReachesFits(plan, s, schedule, t);
    OnlyRoot(plan, rank, root, sites, t);
    longer, u := BothPick(plan, s, schedule, t, a, b, site);
    longer, u := RootWrites(plan, s, longer, u, a);
    longer, u := RootRest(plan, s, longer, u, a);
    assert !u.store.q.sound[c] && !SeesInputs(plan, u.store, root);
    longer, u := RootWrites(plan, s, longer, u, b);
  }

  /** Every plan other than a single chain has a patient schedule after which
      the root was selected twice, the done flag is set, and the result the
      client reads comes from a select that did not see its inputs. */
  lemma ExecutedTwice(plan: Plan, rank: seq<nat>, root: nat, sites: seq<Site>)
    returns (schedule: seq<Turn>)
    requires Executable(plan, rank, root, sites) && !SingleChain(plan)
    ensures Patient(schedule)
    ensures var t := Run(plan, Started(plan, sites), schedule);
            && Fits(plan, t.store)
            && t.store.done && t.store.q.result == Result(false) && t.store.selects[root] >= 2
  {
    hide Run, SingleChain, Lone;
    ChainIsLone(plan, rank, root, sites);
    var c := RootHasChild(plan, rank, root, sites);
    var t, a, b;
    schedule, t, a, b := Doubled(plan, rank, root, sites, root);
    schedule, t := RootTwice(plan, rank, root, sites, schedule, t, a, b, c);
  }

  /** The root is alone if and only if the plan is a single chain. */
  lemma ChainIsLone(plan: Plan, rank: seq<nat>, root: nat, sites: seq<Site>)
    requires Executable(plan, rank, root, sites)
    ensures Lone(plan, rank, root) <==> SingleChain(plan)
  {
    hide Above;
    forall n: nat | n < |plan|
      ensures Above(plan, rank, root, n)
    {
      RootAbove(plan, rank, root, n);
    }
  }

  lemma RootHasChild(plan: Plan, rank: seq<nat>, root: nat, sites: seq<Site>) returns (c: nat)
    requires Executable(plan, rank, root, sites) && !SingleChain(plan)
    ensures c < |plan| && plan[c].parent == root
  {
    var n: nat :| n < |plan| && n != root;
    RootAbove(plan, rank, root, n);
    c := Between(plan, rank, root, n);
  }
}
