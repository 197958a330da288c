/** Two scans for one node. Everything ready has a scan to come at its site; a
    second one that can be spared is carried up the plan to any node above. */
module PlanDuplicates {
  import opened PlanProtocol
  import opened PlanProofs
  import opened PlanTheorems
  import opened PlanTree
  import opened PlanSolo

  /** What a scan at `site` picks now. */
  ghost function Now(plan: Plan, t: State, site: Site): seq<nat>
    requires Fits(plan, t.store)
  {
    Picked(plan, t.store.finished, site, |plan|)
  }

  ghost predicate Ready(plan: Plan, t: State, m: nat)
    requires Fits(plan, t.store)
  {
    m < |plan| && !t.store.finished[m] && ChildrenDone(plan, t.store.finished, m)
  }

  /** A scan other than process `e` is to come at `site`. */
  ghost predicate Served(procs: seq<Proc>, e: int, site: Site) {
    exists i :: 0 <= i < |procs| && i != e && procs[i] == Start(site)
  }

  /** For everything ready a scan is to come, and for what is at or below `v`
      one other than `e`. */
  ghost predicate Attended(plan: Plan, rank: seq<nat>, t: State, e: int, v: nat)
    requires ParentsExist(plan) && Ranked(plan, rank) && Fits(plan, t.store)
  {
    forall m: nat :: m < |plan| && Ready(plan, t, m) ==>
      && Served(t.procs, -1, plan[m].site)
      && (Above(plan, rank, v, m) ==> Served(t.procs, e, plan[m].site))
  }

  /** Process `e` is a scan to come at the site of the unfinished node `v` that
      nothing at or below `v` needs; -1 stands for none. */
  ghost predicate Spare(plan: Plan, rank: seq<nat>, t: State, e: int, v: nat)
    requires ParentsExist(plan) && Ranked(plan, rank) && Fits(plan, t.store) && v < |plan|
  {
    && Attended(plan, rank, t, e, v) && !t.store.finished[v]
    && -1 <= e < |t.procs| && (e >= 0 ==> t.procs[e] == Start(plan[v].site))
  }

  /** The nodes in `todo` are finished in addition, and nothing else changed but
      that rows may be gone. */
  ghost predicate Adds(plan: Plan, t: State, u: State, todo: seq<nat>)
    requires Fits(plan, t.store) && Fits(plan, u.store)
  {
    && (forall n: nat :: n < |plan| ==> (u.store.finished[n] <==> t.store.finished[n] || n in todo))
    && Beside(plan, t.store, u.store, todo)
  }

  /** Nodes finished before and nodes unfinished still were not selected, and
      their rows did not become good. */
  ghost predicate Onward(plan: Plan, t: State, u: State)
    requires Fits(plan, t.store) && Fits(plan, u.store)
  {
    forall n: nat :: n < |plan| ==>
      && (t.store.finished[n] ==> u.store.finished[n])
      && (t.store.finished[n] || !u.store.finished[n] ==>
            u.store.selects[n] == t.store.selects[n] && (u.store.q.sound[n] ==> t.store.q.sound[n]))
  }

  lemma AddsOnward(plan: Plan, t: State, site: Site, u: State, w: State)
    requires Fits(plan, t.store) && Fits(plan, u.store) && Fits(plan, w.store)
    requires Adds(plan, t, u, Now(plan, t, site)) && Onward(plan, u, w)
    ensures Onward(plan, t, w)
  {
    hide Now;
    NowIs(plan, t, site);
  }

  // ---- One scan runs ----

  lemma NowIs(plan: Plan, t: State, site: Site)
    requires Fits(plan, t.store)
    ensures forall m: nat :: m in Now(plan, t, site) <==> Ready(plan, t, m) && plan[m].site == site
    ensures Rising(Now(plan, t, site)) && AllBelow(Now(plan, t, site), |plan|)
  {
    hide Picked, ChildrenDone;
    PickedIs(plan, t.store.finished, site, |plan|);
    PickedRises(plan, t.store.finished, site, |plan|);
  }

  lemma NowInner(plan: Plan, rank: seq<nat>, root: nat, sites: seq<Site>, t: State, site: Site)
    requires Executable(plan, rank, root, sites) && Fits(plan, t.store) && !Ready(plan, t, root)
    ensures AllInner(plan, Now(plan, t, site))
  {
    hide Now, Ready;
    NowIs(plan, t, site);
    var todo := Now(plan, t, site);
    forall k | 0 <= k < |todo|
      ensures Inner(plan, todo[k]) && plan[todo[k]].parent != todo[k]
    {
      assert todo[k] in todo;
    }
  }

  lemma ReachesFits(plan: Plan, s: State, schedule: seq<Turn>, t: State)
    requires Reaches(plan, s, schedule, t)
    ensures ParentsExist(plan) && Fits(plan, t.store) && Closed(plan, t.store.finished)
  {
  }

  /** What the processes `used`, all scans at `site`, leave behind when they
      execute everything ready there: the k-th node's scan is `base + k`. */
  ghost predicate Fired(plan: Plan, t: State, site: Site, used: set<int>, u: State, base: nat)
    requires Fits(plan, t.store) && Fits(plan, u.store)
  {
    var todo := Now(plan, t, site);
    && AllInner(plan, todo) && Adds(plan, t, u, todo)
    && |t.procs| <= base && base + |todo| <= |u.procs|
    && (forall i :: 0 <= i < |t.procs| && t.procs[i] != Start(site) ==> u.procs[i] == t.procs[i])
    && (forall i :: 0 <= i < |t.procs| && i !in used ==> u.procs[i] == t.procs[i])
    && (forall k :: 0 <= k < |todo| ==> u.procs[base + k] == Start(plan[plan[todo[k]].parent].site))
  }

  /** The scan `a` runs alone. */
  lemma FireOne(plan: Plan, rank: seq<nat>, root: nat, sites: seq<Site>, s: State, schedule: seq<Turn>, t: State, a: nat)
    returns (longer: seq<Turn>, u: State)
    requires Executable(plan, rank, root, sites) && Reaches(plan, s, schedule, t) && Fits(plan, t.store)
    requires a < |t.procs| && t.procs[a].Start? && !Ready(plan, t, root)
    ensures Reaches(plan, s, longer, u) && Fits(plan, u.store)
    ensures Fired(plan, t, t.procs[a].site, {a}, u, |t.procs|)
  {
    hide Reaches, Ready, Picked, Beside;
    var site := t.procs[a].site;
    var todo := Now(plan, t, site);
    NowIs(plan, t, site);
    NowInner(plan, rank, root, sites, t, site);
    longer, u := StartAlone(plan, s, schedule, t, a);
    assert todo + [] == todo;
    longer, u := ExecuteAll(plan, s, longer, u, a, todo, []);
    SetIs(t.store.finished, todo);
    assert u.procs == t.procs[a := Work(site, [])] + Forks(plan, todo);
    forall k | 0 <= k < |todo|
      ensures |Forks(plan, todo)| == |todo|
      ensures u.procs[|t.procs| + k] == Start(plan[plan[todo[k]].parent].site)
    {
      ForksAre(plan, todo, k);
    }
  }

  // ---- Two scans run at once ----

  /** The scans `a` and `b` both read the flags before either goes on. */
  lemma BothPick(plan: Plan, s: State, schedule: seq<Turn>, t: State, a: nat, b: nat, site: Site)
    returns (longer: seq<Turn>, u: State)
    requires Reaches(plan, s, schedule, t) && Fits(plan, t.store)
    requires a < |t.procs| && b < |t.procs| && a != b && t.procs[a] == t.procs[b] == Start(site)
    ensures Reaches(plan, s, longer, u)
    ensures var w := Work(site, Now(plan, t, site)); u == State(t.store, t.procs[a := w][b := w])
  {
    hide Reaches, Picked;
    longer, u := StartAlone(plan, s, schedule, t, a);
    longer, u := StartAlone(plan, s, longer, u, b);
  }

  lemma {:induction false} ForksLength(plan: Plan, todo: seq<nat>)
    requires AllInner(plan, todo)
    ensures |Forks(plan, todo)| == |todo|
  {
    if todo != [] {
      ForksAre(plan, todo, 0);
    }
  }

  /** Both execute everything: each node's rows are stored twice, and each node
      leaves two scans for its parent. */
  lemma BothExecute(plan: Plan, s: State, schedule: seq<Turn>, t: State, a: nat, b: nat, site: Site)
    returns (longer: seq<Turn>, u: State)
    requires Reaches(plan, s, schedule, t) && Fits(plan, t.store) && AllInner(plan, Now(plan, t, site))
    requires a < |t.procs| && b < |t.procs| && a != b && t.procs[a] == t.procs[b] == Start(site)
    ensures Reaches(plan, s, longer, u) && Fits(plan, u.store) && Adds(plan, t, u, Now(plan, t, site))
    ensures var forks := Forks(plan, Now(plan, t, site));
            u.procs == t.procs[a := Work(site, [])][b := Work(site, [])] + forks + forks
  {
    hide Reaches, Picked;
    var todo := Now(plan, t, site);
    var w, done := Work(site, todo), Work(site, []);
    NowIs(plan, t, site);
    longer, u := BothPick(plan, s, schedule, t, a, b, site);
    var p := u.procs;
    assert todo + [] == todo;
    longer, u := ExecuteAll(plan, s, longer, u, a, todo, []);
    assert u.procs == p[a := done] + Forks(plan, todo);
    SetIs(t.store.finished, todo);
    SetIs(u.store.finished, todo);
    longer, u := ExecuteAll(plan, s, longer, u, b, todo, []);
    assert (p[a := done] + Forks(plan, todo))[b := done] == p[a := done][b := done] + Forks(plan, todo);
    assert p[a := done][b := done] == t.procs[a := done][b := done];
  }

  /** With a second scan spent on it, a ready node `v` leaves a spare one for its
      parent. */
  lemma FirePair(plan: Plan, rank: seq<nat>, root: nat, sites: seq<Site>, s: State, schedule: seq<Turn>, t: State,
                 a: nat, b: nat, v: nat)
    returns (longer: seq<Turn>, u: State, e: nat)
    requires Executable(plan, rank, root, sites) && Reaches(plan, s, schedule, t) && Fits(plan, t.store)
    requires Inner(plan, v) && Ready(plan, t, v) && !Ready(plan, t, root) && Attended(plan, rank, t, -1, v)
    requires a < |t.procs| && b < |t.procs| && a != b && t.procs[a] == t.procs[b] == Start(plan[v].site)
    ensures Reaches(plan, s, longer, u) && Fits(plan, u.store) && Adds(plan, t, u, Now(plan, t, plan[v].site))
    ensures Spare(plan, rank, u, e, plan[v].parent)
  {
    hide Reaches, Ready, Picked, Now, Attended;
    var site := plan[v].site;
    var todo := Now(plan, t, site);
    NowIs(plan, t, site);
    NowInner(plan, rank, root, sites, t, site);
    ForksLength(plan, todo);
    longer, u := BothExecute(plan, s, schedule, t, a, b, site);
    var n := |t.procs|;
    forall k | 0 <= k < |todo|
      ensures u.procs[n + k] == u.procs[n + |todo| + k] == Start(plan[plan[todo[k]].parent].site)
    {
      ForksAre(plan, todo, k);
    }
    var k: nat :| k < |todo| && todo[k] == v;
    e := n + |todo| + k;
    assert Fired(plan, t, site, {a, b}, u, n);
    AttendedFor(plan, rank, t, v, plan[v].parent);
    AttendedAfter(plan, rank, t, site, {a, b}, u, n, e, plan[v].parent);
    ReachesFits(plan, s, schedule, t);
    ParentWaits(plan, t, u, v);
  }

  /** The parent of a node just executed was not executed along with it. */
  lemma ParentWaits(plan: Plan, t: State, u: State, v: nat)
    requires Fits(plan, t.store) && Fits(plan, u.store) && Closed(plan, t.store.finished)
    requires Ready(plan, t, v) && Inner(plan, v) && Adds(plan, t, u, Now(plan, t, plan[v].site))
    ensures !u.store.finished[plan[v].parent]
  {
    hide Now;
    NowIs(plan, t, plan[v].site);
    var p := plan[v].parent;
    assert !ChildrenDone(plan, t.store.finished, p);
  }

  // ---- Everything ready stays attended ----

  lemma AttendedFor(plan: Plan, rank: seq<nat>, t: State, v: nat, w: nat)
    requires ParentsExist(plan) && Ranked(plan, rank) && Fits(plan, t.store)
    requires Attended(plan, rank, t, -1, v)
    ensures Attended(plan, rank, t, -1, w)
  {
    hide Ready, Served, Above;
  }

  /** What was ready and was not executed keeps the scan it had. */
  lemma StillServed(plan: Plan, t: State, site: Site, used: set<int>, u: State, base: nat, e: int, m: nat)
    requires Fits(plan, t.store) && Fits(plan, u.store) && Fired(plan, t, site, used, u, base)
    requires Ready(plan, t, m) && Ready(plan, u, m) && Served(t.procs, if e < |t.procs| then e else -1, plan[m].site)
    ensures Served(u.procs, e, plan[m].site)
  {
    hide Now;
    NowIs(plan, t, site);
    var i :| 0 <= i < |t.procs| && i != (if e < |t.procs| then e else -1) && t.procs[i] == Start(plan[m].site);
    assert u.procs[i] == Start(plan[m].site);
  }

  /** What became ready has the scan of a child. */
  lemma NewlyServed(plan: Plan, t: State, site: Site, used: set<int>, u: State, base: nat, e: int, m: nat)
    requires Fits(plan, t.store) && Fits(plan, u.store) && Fired(plan, t, site, used, u, base)
    requires !Ready(plan, t, m) && Ready(plan, u, m)
    requires var todo := Now(plan, t, site);
             base <= e < base + |todo| && plan[todo[e - base]].parent == m ==>
               exists k :: 0 <= k < |todo| && k != e - base && plan[todo[k]].parent == m
    ensures Served(u.procs, e, plan[m].site)
  {
    hide Now;
    var todo := Now(plan, t, site);
    var c: nat :| c < |plan| && plan[c].parent == m && !t.store.finished[c];
    var k: nat :| k < |todo| && todo[k] == c;
    if base + k == e {
      k :| 0 <= k < |todo| && k != e - base && plan[todo[k]].parent == m;
    }
    assert u.procs[base + k] == Start(plan[m].site);
  }

  lemma AttendedAfter(plan: Plan, rank: seq<nat>, t: State, site: Site, used: set<int>, u: State, base: nat, e: int, v: nat)
    requires ParentsExist(plan) && Ranked(plan, rank) && Fits(plan, t.store) && Fits(plan, u.store)
    requires Fired(plan, t, site, used, u, base) && Attended(plan, rank, t, if e < |t.procs| then e else -1, v)
    requires var todo := Now(plan, t, site);
             base <= e < base + |todo| && Above(plan, rank, v, plan[todo[e - base]].parent)
               && Ready(plan, u, plan[todo[e - base]].parent) ==>
               exists k :: 0 <= k < |todo| && k != e - base && plan[todo[k]].parent == plan[todo[e - base]].parent
    ensures Attended(plan, rank, u, e, v)
  {
    hide Fired, Ready, Served, Above, Now;
    FiredBase(plan, t, site, used, u, base);
    forall m: nat | m < |plan| && Ready(plan, u, m)
      ensures Served(u.procs, -1, plan[m].site)
      ensures Above(plan, rank, v, m) ==> Served(u.procs, e, plan[m].site)
    {
      if Ready(plan, t, m) {
        StillServed(plan, t, site, used, u, base, -1, m);
        if Above(plan, rank, v, m) {
          StillServed(plan, t, site, used, u, base, e, m);
        }
      } else {
        NewlyServed(plan, t, site, used, u, base, -1, m);
        if Above(plan, rank, v, m) {
          NewlyServed(plan, t, site, used, u, base, e, m);
        }
      }
    }
  }

  lemma FiredBase(plan: Plan, t: State, site: Site, used: set<int>, u: State, base: nat)
    requires Fits(plan, t.store) && Fits(plan, u.store) && Fired(plan, t, site, used, u, base)
    ensures AllInner(plan, Now(plan, t, site)) && |t.procs| <= base
  {
  }

  // ---- Until a node is ready ----

  ghost function Unfinished(t: State): set<nat> {
    set n: nat | n < |t.store.finished| && !t.store.finished[n]
  }

  lemma Fewer(plan: Plan, t: State, u: State, todo: seq<nat>, m: nat)
    requires Fits(plan, t.store) && Fits(plan, u.store) && Adds(plan, t, u, todo)
    requires m < |plan| && m in todo && !t.store.finished[m]
    ensures Unfinished(u) < Unfinished(t)
  {
    assert m in Unfinished(t) && m !in Unfinished(u);
  }

  /** Below a node that is not ready some other node is. */
  lemma {:induction false} SomeReady(plan: Plan, rank: seq<nat>, t: State, v: nat) returns (m: nat)
    requires ParentsExist(plan) && Ranked(plan, rank) && Fits(plan, t.store)
    requires v < |plan| && !ChildrenDone(plan, t.store.finished, v)
    ensures Ready(plan, t, m) && Inner(plan, m) && m != v && Above(plan, rank, v, m)
    decreases rank[v]
  {
    var c: nat :| c < |plan| && plan[c].parent == v && !t.store.finished[c];
    if ChildrenDone(plan, t.store.finished, c) {
      m := c;
    } else {
      m := SomeReady(plan, rank, t, c);
      AboveTrans(plan, rank, v, c, m);
    }
  }

  /** The root is ready only when every other node is finished. */
  lemma RootLast(plan: Plan, rank: seq<nat>, root: nat, sites: seq<Site>, t: State, m: nat)
    requires Executable(plan, rank, root, sites) && Fits(plan, t.store) && Closed(plan, t.store.finished)
    requires Ready(plan, t, root) && m < |plan| && m != root
    ensures t.store.finished[m]
  {
    RootAbove(plan, rank, root, m);
    NotBoth(plan, rank, t.store.finished, root, m);
  }

  /** The node `m` at or below `v` is executed, by another scan than `e`. */
  lemma Advance(plan: Plan, rank: seq<nat>, root: nat, sites: seq<Site>, s: State, schedule: seq<Turn>, t: State,
                e: int, v: nat, m: nat)
    returns (longer: seq<Turn>, u: State, a: nat)
    requires Executable(plan, rank, root, sites) && Reaches(plan, s, schedule, t) && Fits(plan, t.store)
    requires Attended(plan, rank, t, e, v) && -1 <= e < |t.procs| && Ready(plan, t, m) && Inner(plan, m)
    requires e == -1 || Above(plan, rank, v, m)
    ensures Reaches(plan, s, longer, u) && Fits(plan, u.store) && Fired(plan, t, plan[m].site, {a}, u, |t.procs|)
    ensures a != e && m in Now(plan, t, plan[m].site) && Unfinished(u) < Unfinished(t)
    ensures Attended(plan, rank, u, e, v)
  {
    hide Reaches, ChildrenDone, Now, Above, Fired;
    assert Served(t.procs, e, plan[m].site);
    a :| 0 <= a < |t.procs| && a != e && t.procs[a] == Start(plan[m].site);
    ReachesFits(plan, s, schedule, t);
    if Ready(plan, t, root) {
      RootLast(plan, rank, root, sites, t, m);
    }
    NowIs(plan, t, plan[m].site);
    longer, u := FireOne(plan, rank, root, sites, s, schedule, t, a);
    FiredBase(plan, t, plan[m].site, {a}, u, |t.procs|);
    AttendedAfter(plan, rank, t, plan[m].site, {a}, u, |t.procs|, e, v);
    FiredAdds(plan, t, plan[m].site, {a}, u, |t.procs|);
    Fewer(plan, t, u, Now(plan, t, plan[m].site), m);
  }

  lemma FiredAdds(plan: Plan, t: State, site: Site, used: set<int>, u: State, base: nat)
    requires Fits(plan, t.store) && Fits(plan, u.store) && Fired(plan, t, site, used, u, base)
    ensures Adds(plan, t, u, Now(plan, t, site)) && |t.procs| <= |u.procs|
    ensures forall i :: 0 <= i < |t.procs| && i !in used ==> u.procs[i] == t.procs[i]
  {
  }

  lemma StaysUnfinished(plan: Plan, t: State, site: Site, u: State, v: nat)
    requires Fits(plan, t.store) && Fits(plan, u.store) && Adds(plan, t, u, Now(plan, t, site))
    requires v < |plan| && !t.store.finished[v] && !ChildrenDone(plan, t.store.finished, v)
    ensures !u.store.finished[v]
  {
    hide Now;
    NowIs(plan, t, site);
  }

  /** Scans run until node `v` is ready, without the spare one if there is one. */
  lemma {:induction false} Approach(plan: Plan, rank: seq<nat>, root: nat, sites: seq<Site>, s: State,
                                    schedule: seq<Turn>, t: State, e: int, v: nat)
    returns (longer: seq<Turn>, u: State)
    requires Executable(plan, rank, root, sites) && Reaches(plan, s, schedule, t) && Fits(plan, t.store)
    requires v < |plan| && Spare(plan, rank, t, e, v)
    ensures Reaches(plan, s, longer, u) && Fits(plan, u.store) && Spare(plan, rank, u, e, v)
    ensures Ready(plan, u, v) && Onward(plan, t, u) && Unfinished(u) <= Unfinished(t)
    decreases Unfinished(t)
  {
    hide Reaches, Now, ChildrenDone, Attended, Adds, Onward, Fired, Above;
    if ChildrenDone(plan, t.store.finished, v) {
      longer, u := schedule, t;
      NothingOnward(plan, t);
    } else {
      var m := SomeReady(plan, rank, t, v);
      var a;
      longer, u, a := Advance(plan, rank, root, sites, s, schedule, t, e, v, m);
      FiredAdds(plan, t, plan[m].site, {a}, u, |t.procs|);
      StaysUnfinished(plan, t, plan[m].site, u, v);
      var w := u;
      longer, u := Approach(plan, rank, root, sites, s, longer, u, e, v);
      AddsOnward(plan, t, plan[m].site, w, u);
    }
  }

  lemma NothingOnward(plan: Plan, t: State)
    requires Fits(plan, t.store)
    ensures Onward(plan, t, t)
  {
  }

  /** Node `v` is ready and two scans are to come at its site. */
  ghost predicate TwoFor(plan: Plan, t: State, v: nat, a: nat, b: nat)
    requires Fits(plan, t.store)
  {
    && Ready(plan, t, v)
    && a < |t.procs| && b < |t.procs| && a != b && t.procs[a] == t.procs[b] == Start(plan[v].site)
  }

  lemma OnwardTrans(plan: Plan, t: State, u: State, w: State)
    requires Fits(plan, t.store) && Fits(plan, u.store) && Fits(plan, w.store)
    requires Onward(plan, t, u) && Onward(plan, u, w)
    ensures Onward(plan, t, w)
  {
  }

  /** The spare scan of `v` becomes one of two scans for any node above. */
  lemma {:induction false} Climb(plan: Plan, rank: seq<nat>, root: nat, sites: seq<Site>, s: State,
                                 schedule: seq<Turn>, t: State, e: nat, v: nat, goal: nat)
    returns (longer: seq<Turn>, u: State, a: nat, b: nat)
    requires Executable(plan, rank, root, sites) && Reaches(plan, s, schedule, t) && Fits(plan, t.store)
    requires v < |plan| && goal < |plan| && Spare(plan, rank, t, e, v) && Above(plan, rank, goal, v)
    ensures Reaches(plan, s, longer, u) && Fits(plan, u.store) && TwoFor(plan, u, goal, a, b)
    ensures Attended(plan, rank, u, -1, goal) && Onward(plan, t, u)
    decreases Unfinished(t)
  {
    hide Reaches, Now, ChildrenDone, Attended, Onward, Adds;
    longer, u := Approach(plan, rank, root, sites, s, schedule, t, e, v);
    a := SpareServed(plan, rank, u, e, v);
    b := e;
    SpareAttended(plan, rank, u, e, v);
    if v == goal {
      return;
    }
    ReachesFits(plan, s, longer, u);
    if Ready(plan, u, root) {
      RootLast(plan, rank, root, sites, u, v);
    }
    var w := u;
    var e';
    longer, u, e' := FirePair(plan, rank, root, sites, s, longer, u, a, b, v);
    NowIs(plan, w, plan[v].site);
    Fewer(plan, w, u, Now(plan, w, plan[v].site), v);
    var x := u;
    longer, u, a, b := Climb(plan, rank, root, sites, s, longer, u, e', plan[v].parent, goal);
    AddsOnward(plan, w, plan[v].site, x, u);
    OnwardTrans(plan, t, w, u);
  }

  lemma SpareServed(plan: Plan, rank: seq<nat>, t: State, e: int, v: nat) returns (a: nat)
    requires ParentsExist(plan) && Ranked(plan, rank) && Fits(plan, t.store) && v < |plan|
    requires Spare(plan, rank, t, e, v) && Ready(plan, t, v)
    ensures a < |t.procs| && a != e && t.procs[a] == Start(plan[v].site)
  {
    assert Served(t.procs, e, plan[v].site);
    a :| 0 <= a < |t.procs| && a != e && t.procs[a] == Start(plan[v].site);
  }

  lemma SpareAttended(plan: Plan, rank: seq<nat>, t: State, e: int, v: nat)
    requires ParentsExist(plan) && Ranked(plan, rank) && Fits(plan, t.store) && v < |plan| && Spare(plan, rank, t, e, v)
    ensures forall w: nat :: Attended(plan, rank, t, -1, w)
  {
    hide Ready, Served, Above;
  }
}
