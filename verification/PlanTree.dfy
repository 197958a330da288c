/** The shape of a plan: what is above and below a node, and which nodes can be
    reached by one scan only. */
module PlanTree {
  import opened PlanProtocol
  import opened PlanProofs
  import opened PlanTheorems

  /** `a` is `n` or on its way to the root. */
  ghost predicate Above(plan: Plan, rank: seq<nat>, a: nat, n: nat)
    requires ParentsExist(plan) && Ranked(plan, rank) && n < |plan|
    decreases MaxRank(rank) - rank[n]
  {
    RankBelowMax(rank, n);
    n == a || (plan[n].parent != -1 && (RankBelowMax(rank, plan[n].parent); Above(plan, rank, a, plan[n].parent)))
  }

  ghost predicate Leaf(plan: Plan, m: nat) {
    m < |plan| && forall c: nat :: c < |plan| ==> plan[c].parent != m
  }

  /** Node `w` pushes its rows to another site. */
  ghost predicate Remote(plan: Plan, w: nat) {
    Inner(plan, w) && plan[plan[w].parent].site != plan[w].site
  }

  /** Everything below `v` is at its site. */
  ghost predicate OneSite(plan: Plan, rank: seq<nat>, v: nat)
    requires ParentsExist(plan) && Ranked(plan, rank) && v < |plan|
  {
    forall n: nat :: n < |plan| && Above(plan, rank, v, n) ==> plan[n].site == plan[v].site
  }

  /** Neither `v` nor any node below it has two children. */
  ghost predicate OnePath(plan: Plan, rank: seq<nat>, v: nat)
    requires ParentsExist(plan) && Ranked(plan, rank)
  {
    forall x: nat, y: nat :: Inner(plan, x) && Inner(plan, y) && plan[x].parent == plan[y].parent && x != y ==>
      !Above(plan, rank, v, plan[x].parent)
  }

  /** Node `x` leaves a scan at the site of `v` and is neither above nor below
      it. */
  ghost predicate Stray(plan: Plan, rank: seq<nat>, v: nat, x: nat)
    requires ParentsExist(plan) && Ranked(plan, rank) && v < |plan|
  {
    && Inner(plan, x) && plan[plan[x].parent].site == plan[v].site
    && !Above(plan, rank, v, x) && !Above(plan, rank, x, v)
  }

  /** What is below `v` is one chain of nodes at its site, and only what is above
      or below leaves scans there. */
  ghost predicate Lone(plan: Plan, rank: seq<nat>, v: nat)
    requires ParentsExist(plan) && Ranked(plan, rank) && v < |plan|
  {
    && OneSite(plan, rank, v) && OnePath(plan, rank, v)
    && forall x: nat :: x < |plan| ==> !Stray(plan, rank, v, x)
  }

  // ---- Ancestors ----

  lemma Itself(plan: Plan, rank: seq<nat>, v: nat)
    requires ParentsExist(plan) && Ranked(plan, rank) && v < |plan|
    ensures Above(plan, rank, v, v)
  {
  }

  lemma {:induction false} AboveTrans(plan: Plan, rank: seq<nat>, a: nat, b: nat, n: nat)
    requires ParentsExist(plan) && Ranked(plan, rank) && b < |plan| && n < |plan|
    requires Above(plan, rank, a, b) && Above(plan, rank, b, n)
    ensures Above(plan, rank, a, n)
    decreases MaxRank(rank) - rank[n]
  {
    RankBelowMax(rank, n);
    if n != b {
      RankBelowMax(rank, plan[n].parent);
      AboveTrans(plan, rank, a, b, plan[n].parent);
    }
  }

  /** Two nodes above the same node are one above the other. */
  lemma {:induction false} AboveLinear(plan: Plan, rank: seq<nat>, a: nat, b: nat, n: nat)
    requires ParentsExist(plan) && Ranked(plan, rank) && a < |plan| && b < |plan| && n < |plan|
    requires Above(plan, rank, a, n) && Above(plan, rank, b, n)
    ensures Above(plan, rank, a, b) || Above(plan, rank, b, a)
    decreases MaxRank(rank) - rank[n]
  {
    RankBelowMax(rank, n);
    if n != a && n != b {
      RankBelowMax(rank, plan[n].parent);
      AboveLinear(plan, rank, a, b, plan[n].parent);
    }
  }

  /** A proper descendant is below some child. */
  lemma {:induction false} Between(plan: Plan, rank: seq<nat>, a: nat, n: nat) returns (c: nat)
    requires ParentsExist(plan) && Ranked(plan, rank) && a < |plan| && n < |plan| && a != n && Above(plan, rank, a, n)
    ensures c < |plan| && plan[c].parent == a && Above(plan, rank, c, n)
    decreases MaxRank(rank) - rank[n]
  {
    RankBelowMax(rank, n);
    var p := plan[n].parent;
    RankBelowMax(rank, p);
    if p == a {
      c := n;
    } else {
      c := Between(plan, rank, a, p);
    }
  }

  lemma {:induction false} RootAbove(plan: Plan, rank: seq<nat>, root: nat, n: nat)
    requires ParentsExist(plan) && Ranked(plan, rank) && n < |plan| && root < |plan|
    requires forall m :: 0 <= m < |plan| && plan[m].parent == -1 ==> m == root
    ensures Above(plan, rank, root, n)
    decreases MaxRank(rank) - rank[n]
  {
    RankBelowMax(rank, n);
    if n != root {
      RankBelowMax(rank, plan[n].parent);
      RootAbove(plan, rank, root, plan[n].parent);
    }
  }

  lemma {:induction false} RankAbove(plan: Plan, rank: seq<nat>, a: nat, n: nat)
    requires ParentsExist(plan) && Ranked(plan, rank) && a < |plan| && n < |plan| && Above(plan, rank, a, n)
    ensures rank[n] <= rank[a] && (n != a ==> rank[n] < rank[a])
    decreases MaxRank(rank) - rank[n]
  {
    RankBelowMax(rank, n);
    if n != a {
      RankBelowMax(rank, plan[n].parent);
      RankAbove(plan, rank, a, plan[n].parent);
    }
  }

  /** What is below a child is below its parent. */
  lemma ChildBelow(plan: Plan, rank: seq<nat>, v: nat, c: nat)
    requires ParentsExist(plan) && Ranked(plan, rank) && Inner(plan, c) && Above(plan, rank, v, plan[c].parent)
    ensures Above(plan, rank, v, c)
  {
  }

  /** In one path any two nodes are one above the other. */
  lemma {:induction false} Comparable(plan: Plan, rank: seq<nat>, v: nat, m: nat, n: nat)
    requires ParentsExist(plan) && Ranked(plan, rank) && v < |plan| && OnePath(plan, rank, v)
    requires m < |plan| && n < |plan| && Above(plan, rank, v, m) && Above(plan, rank, v, n)
    ensures Above(plan, rank, m, n) || Above(plan, rank, n, m)
    decreases MaxRank(rank) - rank[m]
  {
    RankBelowMax(rank, m);
    if m != v {
      var p := plan[m].parent;
      RankBelowMax(rank, p);
      Comparable(plan, rank, v, p, n);
      if Above(plan, rank, p, n) && p != n {
        var c := Between(plan, rank, p, n);
        assert c == m;
      }
    }
  }

  // ---- What is finished ----

  /** A finished node has everything below it finished. */
  lemma {:induction false} FinishedBelow(plan: Plan, rank: seq<nat>, finished: seq<bool>, a: nat, n: nat)
    requires ParentsExist(plan) && Ranked(plan, rank) && |finished| == |plan| && Closed(plan, finished)
    requires a < |plan| && n < |plan| && Above(plan, rank, a, n) && finished[a]
    ensures finished[n]
    decreases MaxRank(rank) - rank[n]
  {
    RankBelowMax(rank, n);
    if n != a {
      RankBelowMax(rank, plan[n].parent);
      FinishedBelow(plan, rank, finished, a, plan[n].parent);
      assert ChildrenDone(plan, finished, plan[n].parent);
    }
  }

  /** A node whose children are finished has everything below it finished. */
  lemma NotBoth(plan: Plan, rank: seq<nat>, finished: seq<bool>, m: nat, n: nat)
    requires ParentsExist(plan) && Ranked(plan, rank) && |finished| == |plan| && Closed(plan, finished)
    requires m < |plan| && n < |plan| && m != n && Above(plan, rank, m, n)
    requires ChildrenDone(plan, finished, m)
    ensures finished[n]
  {
    var c := Between(plan, rank, m, n);
    FinishedBelow(plan, rank, finished, c, n);
  }

  /** In one path at most one node is ready and unfinished. */
  lemma OneReady(plan: Plan, rank: seq<nat>, v: nat, st: Store, m: nat, n: nat)
    requires ParentsExist(plan) && Ranked(plan, rank) && v < |plan| && OnePath(plan, rank, v)
    requires Fits(plan, st) && Closed(plan, st.finished)
    requires m < |plan| && n < |plan| && Above(plan, rank, v, m) && Above(plan, rank, v, n)
    requires Waiting(plan, st, m) && Waiting(plan, st, n)
    ensures m == n
  {
    hide ChildrenDone, OnePath;
    Comparable(plan, rank, v, m, n);
    if m != n {
      if Above(plan, rank, m, n) {
        NotBoth(plan, rank, st.finished, m, n);
      } else {
        NotBoth(plan, rank, st.finished, n, m);
      }
    }
  }
}
