/** Every step of a process that is not idle makes the rest of the run shorter,
    although scans and executions start further ones. */
module PlanTermination {
  import opened PlanProtocol
  import opened PlanProofs

  /** Unfinished nodes below `k`, not counting `m`. */
  ghost function Without(finished: seq<bool>, m: int, k: nat): nat
    requires k <= |finished|
  {
    if k == 0 then 0
    else Without(finished, m, k - 1) + if finished[k - 1] || k - 1 == m then 0 else 1
  }

  /** What a scan to come may still cost when `k` of `n` nodes are unfinished:
      it may pick each of them, and each one's scan finds one node less. */
  ghost function ScanCost(n: nat, k: nat): nat {
    n + 3 + if k == 0 then 0 else k * (n + 7 + ScanCost(n, k - 1))
  }

  lemma {:induction false} ScanCostMonotone(n: nat, a: nat, b: nat)
    requires a <= b
    ensures ScanCost(n, a) <= ScanCost(n, b)
    decreases b
  {
    if a < b {
      ScanCostMonotone(n, a, b - 1);
      AtLeastOnce(b, n + 7 + ScanCost(n, b - 1));
    }
  }

  lemma AtLeastOnce(k: nat, x: nat)
    requires k >= 1
    ensures x <= k * x
  {
    assert k * x == x + (k - 1) * x;
  }

  /** The cost of a node picked: its own steps and the scan it starts. */
  ghost function ItemCost(finished: seq<bool>, m: nat): nat {
    |finished| + 7 + ForkCost(finished, m)
  }

  ghost function ForkCost(finished: seq<bool>, m: nat): nat {
    ScanCost(|finished|, Without(finished, m, |finished|))
  }

  ghost function ItemsCost(finished: seq<bool>, todo: seq<nat>): nat {
    if todo == [] then 0 else ItemsCost(finished, todo[..|todo| - 1]) + ItemCost(finished, todo[|todo| - 1])
  }

  /** The nodes below `k` that a scan with snapshot `snap` may pick. */
  ghost function PickCost(finished: seq<bool>, snap: seq<bool>, k: nat): nat
    requires k <= |finished|
  {
    if k == 0 then 0
    else
      var read := k - 1 < |snap|;
      PickCost(finished, snap, k - 1) +
      if (if read then snap[k - 1] else finished[k - 1]) then 0 else ItemCost(finished, k - 1)
  }

  ghost function Cost(finished: seq<bool>, p: Proc): nat {
    var n := |finished|;
    match p
    case Start(_) => ScanCost(n, Without(finished, -1, n))
    case Scan(_, snap) => (if |snap| <= n then n - |snap| else 0) + 2 + PickCost(finished, snap, n)
    case Work(_, todo) => 1 + ItemsCost(finished, todo)
    case Selected(_, todo, _) => if todo == [] then 0 else n + 7 + ForkCost(finished, todo[0]) + ItemsCost(finished, todo[1..])
    case RootStored(_, todo) => if todo == [] then 0 else n + 5 + ItemsCost(finished, todo[1..])
    case RootFlagged(_, todo) => if todo == [] then 0 else n + 4 + ItemsCost(finished, todo[1..])
    case Stored(_, todo) => if todo == [] then 0 else n + 6 + ForkCost(finished, todo[0]) + ItemsCost(finished, todo[1..])
    case Flagged(_, todo) => if todo == [] then 0 else n + 5 + ForkCost(finished, todo[0]) + ItemsCost(finished, todo[1..])
    case Deleting(_, todo, next) =>
      if todo == [] then 0 else (if next <= n then n - next else 0) + 2 + ItemsCost(finished, todo[1..])
    case Message(m, _) => 3 + ForkCost(finished, m)
    case Received(m) => 2 + ForkCost(finished, m)
    case Forking(m) => 1 + ForkCost(finished, m)
    case Idle => 0
  }

  // ---- Flags that are set make everything cheaper ----

  lemma {:induction false} WithoutGrows(a: seq<bool>, b: seq<bool>, m: int, k: nat)
    requires Grows(a, b) && k <= |a|
    ensures Without(b, m, k) <= Without(a, m, k)
  {
    if k > 0 {
      WithoutGrows(a, b, m, k - 1);
    }
  }

  lemma ItemCheaper(a: seq<bool>, b: seq<bool>, m: nat)
    requires Grows(a, b)
    ensures ForkCost(b, m) <= ForkCost(a, m) && ItemCost(b, m) <= ItemCost(a, m)
  {
    WithoutGrows(a, b, m, |a|);
    ScanCostMonotone(|a|, Without(b, m, |a|), Without(a, m, |a|));
  }

  lemma {:induction false} ItemsCheaper(a: seq<bool>, b: seq<bool>, todo: seq<nat>)
    requires Grows(a, b)
    ensures ItemsCost(b, todo) <= ItemsCost(a, todo)
  {
    hide ItemCost;
    if todo != [] {
      ItemsCheaper(a, b, todo[..|todo| - 1]);
      ItemCheaper(a, b, todo[|todo| - 1]);
    }
  }

  lemma {:induction false} PickCheaper(a: seq<bool>, b: seq<bool>, snap: seq<bool>, k: nat)
    requires Grows(a, b) && k <= |a|
    ensures PickCost(b, snap, k) <= PickCost(a, snap, k)
  {
    hide ItemCost;
    if k > 0 {
      PickCheaper(a, b, snap, k - 1);
      ItemCheaper(a, b, k - 1);
    }
  }

  lemma Cheaper(a: seq<bool>, b: seq<bool>, p: Proc)
    requires Grows(a, b)
    ensures Cost(b, p) <= Cost(a, p)
  {
    hide ItemsCost, PickCost, ForkCost, ScanCost, Without;
    var n := |a|;
    match p {
      case Start(_) =>
        WithoutGrows(a, b, -1, n);
        ScanCostMonotone(n, Without(b, -1, n), Without(a, -1, n));
      case Scan(_, snap) => PickCheaper(a, b, snap, n);
      case Work(_, todo) => ItemsCheaper(a, b, todo);
      case Selected(_, todo, _) => if todo != [] { ItemCheaper(a, b, todo[0]); ItemsCheaper(a, b, todo[1..]); }
      case RootStored(_, todo) => if todo != [] { ItemsCheaper(a, b, todo[1..]); }
      case RootFlagged(_, todo) => if todo != [] { ItemsCheaper(a, b, todo[1..]); }
      case Stored(_, todo) => if todo != [] { ItemCheaper(a, b, todo[0]); ItemsCheaper(a, b, todo[1..]); }
      case Flagged(_, todo) => if todo != [] { ItemCheaper(a, b, todo[0]); ItemsCheaper(a, b, todo[1..]); }
      case Deleting(_, todo, _) => if todo != [] { ItemsCheaper(a, b, todo[1..]); }
      case Message(m, _) => ItemCheaper(a, b, m);
      case Received(m) => ItemCheaper(a, b, m);
      case Forking(m) => ItemCheaper(a, b, m);
      case Idle =>
    }
  }

  // ---- Each step costs ----

  lemma {:induction false} ItemsSplit(finished: seq<bool>, todo: seq<nat>)
    requires todo != []
    ensures ItemsCost(finished, todo) == ItemCost(finished, todo[0]) + ItemsCost(finished, todo[1..])
  {
    hide ItemCost;
    if |todo| > 1 {
      var n := |todo| - 1;
      ItemsSplit(finished, todo[..n]);
      assert todo[1..][..n - 1] == todo[..n][1..];
    } else {
      assert todo[..0] == [] && todo[1..] == [];
    }
  }

  /** Not counting a finished node changes nothing. */
  lemma {:induction false} WithoutFinished(finished: seq<bool>, m: nat, k: nat)
    requires k <= |finished| && m < |finished| && finished[m]
    ensures Without(finished, m, k) == Without(finished, -1, k)
  {
    if k > 0 {
      WithoutFinished(finished, m, k - 1);
    }
  }

  lemma {:induction false} WithoutOne(finished: seq<bool>, m: nat, k: nat)
    requires k <= |finished| && m < |finished| && !finished[m]
    ensures Without(finished, -1, k) == Without(finished, m, k) + if m < k then 1 else 0
  {
    if k > 0 {
      WithoutOne(finished, m, k - 1);
    }
  }

  /** A scan that has read nothing may pick every unfinished node. */
  lemma {:induction false} FreshPick(finished: seq<bool>, k: nat)
    requires k <= |finished|
    ensures var left := Without(finished, -1, |finished|);
            PickCost(finished, [], k) ==
            if left == 0 then 0 else Without(finished, -1, k) * (|finished| + 7 + ScanCost(|finished|, left - 1))
  {
    hide ScanCost;
    var n := |finished|;
    if k > 0 {
      FreshPick(finished, k - 1);
      WithoutLess(finished, k);
      if !finished[k - 1] {
        WithoutOne(finished, k - 1, n);
        var each := n + 7 + ScanCost(n, Without(finished, -1, n) - 1);
        assert PickCost(finished, [], k) == PickCost(finished, [], k - 1) + each;
        OnceMore(Without(finished, -1, k - 1), each);
      }
    }
  }

  lemma OnceMore(k: nat, x: nat)
    ensures (k + 1) * x == k * x + x
  {
  }

  lemma {:induction false} WithoutLess(finished: seq<bool>, k: nat)
    requires k <= |finished|
    ensures Without(finished, -1, k) <= Without(finished, -1, |finished|)
    decreases |finished| - k
  {
    if k < |finished| {
      WithoutLess(finished, k + 1);
    }
  }

  lemma StartCosts(finished: seq<bool>)
    ensures ScanCost(|finished|, Without(finished, -1, |finished|)) == |finished| + 3 + PickCost(finished, [], |finished|)
  {
    hide PickCost;
    FreshPick(finished, |finished|);
  }

  /** Reading a flag keeps the set of nodes that may be picked. */
  lemma {:induction false} ReadKeepsPick(finished: seq<bool>, snap: seq<bool>, k: nat)
    requires k <= |finished| && |snap| < |finished|
    ensures PickCost(finished, snap + [finished[|snap|]], k) == PickCost(finished, snap, k)
  {
    hide ItemCost;
    if k > 0 {
      ReadKeepsPick(finished, snap, k - 1);
    }
  }

  lemma {:induction false} PickedCosts(plan: Plan, finished: seq<bool>, snap: seq<bool>, site: Site, k: nat)
    requires |finished| == |snap| == |plan| && k <= |plan|
    ensures ItemsCost(finished, Picked(plan, snap, site, k)) <= PickCost(finished, snap, k)
  {
    hide ItemCost, ChildrenDone;
    if k > 0 {
      PickedCosts(plan, finished, snap, site, k - 1);
      var before := Picked(plan, snap, site, k - 1);
      assert (before + [k - 1])[..|before|] == before;
    }
  }

  /** One step of a process that is not idle, counted with the process it may
      start and the flags as they are before the step. */
  lemma ActCosts(plan: Plan, st: Store, p: Proc, late: bool)
    requires ParentsExist(plan) && Fine(plan, st, p) && p != Idle
    ensures var m := Act(plan, st, p, late);
            Cost(st.finished, m.next) + (if m.forked == [] then 0 else Cost(st.finished, m.forked[0])) < Cost(st.finished, p)
            && |m.forked| <= 1
  {
    hide ItemsCost, PickCost, ScanCost, Without, Picked, ChildrenDone, SeesInputs;
    var f := st.finished;
    var n := |f|;
    match p {
      case Start(site) => StartCosts(f);
      case Scan(site, snap) =>
        if |snap| < n {
          ReadKeepsPick(f, snap, n);
        } else {
          PickedCosts(plan, f, snap, site, n);
        }
      case Work(site, todo) => if todo != [] { ItemsSplit(f, todo); }
      case Flagged(site, todo) => WithoutFinished(f, todo[0], n);
      case Forking(m) => WithoutFinished(f, m, n);
      case _ =>
    }
  }

  // ---- The whole state ----

  ghost function Total(finished: seq<bool>, procs: seq<Proc>): nat {
    if procs == [] then 0 else Total(finished, procs[..|procs| - 1]) + Cost(finished, procs[|procs| - 1])
  }

  lemma {:induction false} TotalUpdate(finished: seq<bool>, procs: seq<Proc>, i: nat, q: Proc)
    requires i < |procs|
    ensures Total(finished, procs[i := q]) + Cost(finished, procs[i]) == Total(finished, procs) + Cost(finished, q)
  {
    hide Cost;
    var n := |procs| - 1;
    if i < n {
      TotalUpdate(finished, procs[..n], i, q);
      assert procs[i := q][..n] == procs[..n][i := q];
    } else {
      assert procs[i := q][..n] == procs[..n];
    }
  }

  lemma {:induction false} TotalCheaper(a: seq<bool>, b: seq<bool>, procs: seq<Proc>)
    requires Grows(a, b)
    ensures Total(b, procs) <= Total(a, procs)
  {
    hide Cost;
    if procs != [] {
      TotalCheaper(a, b, procs[..|procs| - 1]);
      Cheaper(a, b, procs[|procs| - 1]);
    }
  }

  /** Every step of a process that is not idle lowers the total cost. */
  lemma StepCosts(plan: Plan, s: State, i: nat, late: bool)
    requires ParentsExist(plan) && Safe(plan, s) && i < |s.procs| && s.procs[i] != Idle
    ensures var t := Step(plan, s, i, late);
            Total(t.store.finished, t.procs) < Total(s.store.finished, s.procs)
  {
    hide Act, Cost, Sound, Closed;
    var m := Act(plan, s.store, s.procs[i], late);
    var f, procs := s.store.finished, s.procs[i := m.next];
    ActSound(plan, s.store, s.procs[i], late);
    ActCosts(plan, s.store, s.procs[i], late);
    TotalUpdate(f, s.procs, i, m.next);
    if m.forked == [] {
      assert procs + m.forked == procs;
    } else {
      assert m.forked == [m.forked[0]] && (procs + m.forked)[..|procs|] == procs;
    }
    TotalCheaper(f, m.store.finished, procs + m.forked);
  }
}
