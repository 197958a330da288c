/** Senders that give up waiting: which plans it harms. Where two scans reach a
    node that pushes to another site, both may give up, the second one having
    found the tables of the children dropped; its message may arrive first, and
    then a first select of the parent does not find its input although all flags
    below it are set. */
module PlanLate {
  import opened PlanProtocol
  import opened PlanProofs
  import opened PlanRows
  import opened PlanTheorems
  import opened PlanTree
  import opened PlanInputs
  import opened PlanSolo
  import opened PlanDuplicates
  import opened PlanOnce
  import opened PlanAlone
  import opened PlanChain

  /** A schedule leads from `s` to `t`. */
  ghost predicate Leads(plan: Plan, s: State, schedule: seq<Turn>, t: State) {
    ParentsExist(plan) && Safe(plan, s) && Run(plan, s, schedule) == t
  }

  lemma {:induction false} RunConcat(plan: Plan, s: State, first: seq<Turn>, second: seq<Turn>)
    requires ParentsExist(plan) && Safe(plan, s)
    ensures Run(plan, s, first + second) == Run(plan, Run(plan, s, first), second)
  {
    hide Step, Safe;
    if second == [] {
      assert first + second == first;
    } else {
      var n := |second| - 1;
      assert (first + second)[..|first| + n] == first + second[..n];
      RunConcat(plan, s, first, second[..n]);
    }
  }

  lemma Then(plan: Plan, s: State, first: seq<Turn>, t: State, second: seq<Turn>, u: State)
    requires Leads(plan, s, first, t) && Leads(plan, t, second, u)
    ensures Leads(plan, s, first + second, u)
  {
    hide Run, Safe;
    RunConcat(plan, s, first, second);
  }

  /** From any state on a run the next part may be counted from there. */
  lemma Anew(plan: Plan, s: State, schedule: seq<Turn>, t: State)
    requires Leads(plan, s, schedule, t)
    ensures Reaches(plan, t, [], t) && Fits(plan, t.store)
  {
    hide Step;
    SafeIsShaped(plan, t);
  }

  lemma ReachesLeads(plan: Plan, s: State, schedule: seq<Turn>, t: State)
    requires Reaches(plan, s, schedule, t)
    ensures Leads(plan, s, schedule, t)
  {
  }

  // ---- A push that is given up ----

  /** A process selects its node, gives up waiting for the reply, and drops the
      tables of the children while its message is on the way. */
  lemma GivesUp(plan: Plan, s: State, schedule: seq<Turn>, t: State, i: nat)
    returns (longer: seq<Turn>, u: State, good: bool)
    requires Reaches(plan, s, schedule, t) && Fits(plan, t.store)
    requires i < |t.procs| && t.procs[i].Work? && t.procs[i].todo != [] && Remote(plan, t.procs[i].todo[0])
    ensures Leads(plan, s, longer, u) && Fits(plan, u.store)
    ensures var n := t.procs[i].todo[0];
            && good == SeesInputs(plan, t.store, n)
            && Dropped(plan, t.store.(selects := Add(t.store.selects, n)), u.store, n, 0)
            && u.procs == t.procs[i := Work(t.procs[i].site, t.procs[i].todo[1..])] + [Message(n, good)]
  {
    hide Reaches, SeesInputs, Picked, Dropped, Safe;
    ReachesShaped(plan, s, schedule, t);
    ReachesSafe(plan, s, schedule, t);
    var site, todo := t.procs[i].site, t.procs[i].todo;
    var n := todo[0];
    good := SeesInputs(plan, t.store, n);
    var v;
    longer, v := GoOn(plan, s, schedule, t, i, false);
    assert v.procs == t.procs[i := Selected(site, todo, good)];
    longer, u := GoOn(plan, s, longer, v, i, true);
    assert u.procs == t.procs[i := Deleting(site, todo, 0)] + [Message(n, good)];
    Anew(plan, s, longer, u);
    v := u;
    var rest;
    rest, u := DropAlone(plan, v, [], v, i, 0);
    assert u.procs == t.procs[i := Work(site, todo[1..])] + [Message(n, good)];
    ReachesLeads(plan, v, rest, u);
    Then(plan, s, longer, v, rest, u);
    longer := longer + rest;
  }

  lemma ReachesSafe(plan: Plan, s: State, schedule: seq<Turn>, t: State)
    requires Reaches(plan, s, schedule, t)
    ensures ParentsExist(plan) && Safe(plan, s) && MineAll(plan, t)
  {
  }

  ghost predicate MineAll(plan: Plan, t: State) {
    forall i :: 0 <= i < |t.procs| && t.procs[i].Work? ==> Mine(plan, t.procs[i].site, t.procs[i].todo)
  }

  /** What giving up the push of `v` after executing the nodes in `before` leaves. */
  ghost predicate GaveUp(plan: Plan, a: Store, b: Store, before: seq<nat>, v: nat, good: bool)
    requires Fits(plan, a) && Fits(plan, b) && v < |plan|
  {
    && (forall n: nat :: n < |plan| ==> (b.finished[n] <==> a.finished[n] || n in before))
    && Beside(plan, a, b, before + [v]) && (b.q.sound[v] ==> a.q.sound[v])
    && (forall c: nat :: c < |plan| && plan[c].parent == v ==> !b.q.sound[c])
    && (good ==> forall c: nat :: c < |plan| && plan[c].parent == v ==> a.q.sound[c])
  }

  /** A process executes the first nodes it picked and gives up the push of the
      next one, `v`. */
  lemma GivesUpAt(plan: Plan, s: State, schedule: seq<Turn>, t: State, i: nat, before: seq<nat>, v: nat, rest: seq<nat>)
    returns (longer: seq<Turn>, u: State, good: bool)
    requires Reaches(plan, s, schedule, t) && Fits(plan, t.store) && AllInner(plan, before)
    requires i < |t.procs| && t.procs[i].Work? && t.procs[i].todo == before + ([v] + rest) && Remote(plan, v)
    requires v !in before && forall c: nat :: c < |plan| && plan[c].parent == v ==> c !in before
    ensures Leads(plan, s, longer, u) && Fits(plan, u.store) && GaveUp(plan, t.store, u.store, before, v, good)
    ensures u.procs == t.procs[i := Work(t.procs[i].site, rest)] + Forks(plan, before) + [Message(v, good)]
  {
    hide Reaches, Leads;
    var w;
    longer, w := ExecuteAll(plan, s, schedule, t, i, before, [v] + rest);
    SetIs(t.store.finished, before);
    longer, u, good := GivesUp(plan, s, longer, w, i);
    assert ([v] + rest)[1..] == rest;
    var site := t.procs[i].site;
    assert w.procs[i := Work(site, rest)] == t.procs[i := Work(site, rest)] + Forks(plan, before);
  }

  /** The message arrives: its rows are stored, the flag is set, and a scan is to
      come at the site of the parent. */
  lemma Arrives(plan: Plan, s: State, schedule: seq<Turn>, t: State, j: nat) returns (longer: seq<Turn>, u: State)
    requires Reaches(plan, s, schedule, t) && Fits(plan, t.store)
    requires j < |t.procs| && t.procs[j].Message? && Inner(plan, t.procs[j].node)
    ensures Reaches(plan, s, longer, u) && Fits(plan, u.store)
    ensures var n := t.procs[j].node;
            && u.store == SetFlag(StoreRows(t.store, n, t.procs[j].good), n)
            && u.procs == t.procs[j := Start(plan[plan[n].parent].site)]
  {
    hide Reaches, Picked;
    ReachesShaped(plan, s, schedule, t);
    var n := t.procs[j].node;
    longer, u := GoOn(plan, s, schedule, t, j, false);
    assert u.procs == t.procs[j := Received(n)];
    longer, u := GoOn(plan, s, longer, u, j, false);
    assert u.procs == t.procs[j := Forking(n)];
    longer, u := GoOn(plan, s, longer, u, j, false);
    assert u.procs == t.procs[j := Start(plan[plan[n].parent].site)];
  }

  // ---- Both give up ----

  /** Both scans have picked `before + [v] + rest` and give up the push of `v`. */
  lemma TwoGiveUp(plan: Plan, t: State, a: nat, b: nat, site: Site, before: seq<nat>, v: nat, rest: seq<nat>)
    returns (longer: seq<Turn>, u: State, good: bool)
    requires Reaches(plan, t, [], t) && Fits(plan, t.store) && AllInner(plan, before) && Remote(plan, v) && !Leaf(plan, v)
    requires a < |t.procs| && b < |t.procs| && a != b
    requires t.procs[a] == t.procs[b] == Work(site, before + ([v] + rest))
    requires v !in before && forall c: nat :: c < |plan| && plan[c].parent == v ==> c !in before
    ensures Leads(plan, t, longer, u) && Fits(plan, u.store)
    ensures GaveUp(plan, t.store, u.store, before, v, false)
    ensures var forks, w := Forks(plan, before), Work(site, rest);
            u.procs == t.procs[a := w][b := w] + forks + [Message(v, good)] + forks + [Message(v, false)]
  {
    hide Reaches, Leads, Beside;
    var forks, w := Forks(plan, before), Work(site, rest);
    var x;
    longer, x, good := GivesUpAt(plan, t, [], t, a, before, v, rest);
    Anew(plan, t, longer, x);
    var more, no;
    assert x.procs[b] == t.procs[b];
    more, u, no := GivesUpAt(plan, x, [], x, b, before, v, rest);
    Then(plan, t, longer, x, more, u);
    longer := longer + more;
    GaveUpTwice(plan, t.store, x.store, u.store, before, v, good, no);
    assert x.procs[b := w] == t.procs[a := w][b := w] + forks + [Message(v, good)];
  }

  lemma GaveUpTwice(plan: Plan, a: Store, b: Store, c: Store, before: seq<nat>, v: nat, good: bool, again: bool)
    requires Fits(plan, a) && Fits(plan, b) && Fits(plan, c) && v < |plan| && !Leaf(plan, v)
    requires GaveUp(plan, a, b, before, v, good) && GaveUp(plan, b, c, before, v, again)
    ensures !again && GaveUp(plan, a, c, before, v, false)
  {
  }

  /** What is left once the second message has arrived first: the nodes picked
      are finished, there are no good rows of `v`, and a scan is to come for the
      parent of each. */
  ghost predicate Harmed(plan: Plan, t: State, u: State, todo: seq<nat>, v: nat, a: nat, b: nat)
    requires Fits(plan, t.store) && Fits(plan, u.store) && v < |plan| && AllInner(plan, todo)
  {
    && Adds(plan, t, u, todo) && (u.store.q.sound[v] ==> t.store.q.sound[v])
    && |t.procs| <= |u.procs|
    && (forall i :: 0 <= i < |t.procs| && i != a && i != b ==> u.procs[i] == t.procs[i])
    && (forall k :: 0 <= k < |todo| ==> Served(u.procs, -1, plan[plan[todo[k]].parent].site))
  }

  lemma SecondFirst(plan: Plan, t: State, a: nat, b: nat, site: Site, before: seq<nat>, v: nat, rest: seq<nat>)
    returns (longer: seq<Turn>, u: State)
    requires Reaches(plan, t, [], t) && Fits(plan, t.store) && Remote(plan, v) && !Leaf(plan, v)
    requires AllInner(plan, before + ([v] + rest))
    requires a < |t.procs| && b < |t.procs| && a != b
    requires t.procs[a] == t.procs[b] == Work(site, before + ([v] + rest))
    requires v !in before && v !in rest && forall c: nat :: c < |plan| && plan[c].parent == v ==> c !in before
    ensures Leads(plan, t, longer, u) && Fits(plan, u.store)
    ensures Harmed(plan, t, u, before + ([v] + rest), v, a, b)
  {
    hide Reaches, Leads, GaveUp, Adds, Leaf, Beside;
    var todo := before + ([v] + rest);
    InnerParts(plan, before, v, rest);
    var x, good;
    longer, x, good := TwoGiveUp(plan, t, a, b, site, before, v, rest);
    Anew(plan, t, longer, x);
    var j := |x.procs| - 1;
    var more, y;
    assert x.procs[b] == Work(site, rest) && rest + [] == rest;
    more, y := ExecuteAll(plan, x, [], x, b, rest, []);
    SetIs(x.store.finished, rest);
    assert y.procs[j] == Message(v, false);
    more, u := Arrives(plan, x, more, y, j);
    ReachesLeads(plan, x, more, u);
    Then(plan, t, longer, x, more, u);
    longer := longer + more;
    HarmedStore(plan, t, x.store, y.store, u, before, v, rest);
    ForksLength(plan, before);
    forall k | 0 <= k < |todo|
      ensures Served(u.procs, -1, plan[plan[todo[k]].parent].site)
    {
      var i := HarmedScan(plan, t, a, b, x.procs, y.procs, u.procs, site, before, v, rest, good, k);
    }
  }

  lemma InnerParts(plan: Plan, before: seq<nat>, v: nat, rest: seq<nat>)
    requires AllInner(plan, before + ([v] + rest))
    ensures AllInner(plan, before) && AllInner(plan, rest)
  {
    var todo := before + ([v] + rest);
    assert forall k :: 0 <= k < |before| ==> before[k] == todo[k];
    assert forall k :: 0 <= k < |rest| ==> rest[k] == todo[|before| + 1 + k];
  }

  lemma HarmedScan(plan: Plan, t: State, a: nat, b: nat, x: seq<Proc>, y: seq<Proc>, u: seq<Proc>, site: Site,
                   before: seq<nat>, v: nat, rest: seq<nat>, good: bool, k: nat)
    returns (i: nat)
    requires Inner(plan, v) && AllInner(plan, before) && AllInner(plan, rest) && k < |before| + 1 + |rest|
    requires a < |t.procs| && b < |t.procs|
    requires var forks, w := Forks(plan, before), Work(site, rest);
             x == t.procs[a := w][b := w] + forks + [Message(v, good)] + forks + [Message(v, false)]
    requires y == x[b := Work(site, [])] + Forks(plan, rest)
    requires u == y[|x| - 1 := Start(plan[plan[v].parent].site)]
    ensures var n := (before + ([v] + rest))[k];
            Inner(plan, n) && i < |u| && u[i] == Start(plan[plan[n].parent].site)
  {
    if k < |before| {
      ForksAre(plan, before, k);
      i := |t.procs| + k;
    } else if k == |before| {
      i := |x| - 1;
    } else {
      ForksAre(plan, rest, k - |before| - 1);
      i := |x| + (k - |before| - 1);
    }
  }

  lemma HarmedStore(plan: Plan, t: State, x: Store, y: Store, u: State, before: seq<nat>, v: nat, rest: seq<nat>)
    requires Fits(plan, t.store) && Fits(plan, x) && Fits(plan, y) && v < |plan| && v !in rest
    requires GaveUp(plan, t.store, x, before, v, false)
    requires Beside(plan, x, y, rest) && forall n: nat :: n < |plan| ==> (y.finished[n] <==> x.finished[n] || n in rest)
    requires u.store == SetFlag(StoreRows(y, v, false), v)
    ensures Fits(plan, u.store) && Adds(plan, t, u, before + ([v] + rest)) && (u.store.q.sound[v] ==> t.store.q.sound[v])
  {
  }

  /** Two scans for a ready node `v` harm it; everything ready is still attended. */
  lemma BothGiveUp(plan: Plan, rank: seq<nat>, root: nat, sites: seq<Site>, t: State, a: nat, b: nat, v: nat)
    returns (longer: seq<Turn>, u: State)
    requires Executable(plan, rank, root, sites) && Reaches(plan, t, [], t) && Fits(plan, t.store)
    requires TwoFor(plan, t, v, a, b) && Attended(plan, rank, t, -1, v) && Remote(plan, v) && !Leaf(plan, v)
    ensures Leads(plan, t, longer, u) && Fits(plan, u.store)
    ensures Adds(plan, t, u, Now(plan, t, plan[v].site)) && (u.store.q.sound[v] ==> t.store.q.sound[v])
    ensures Spare(plan, rank, u, -1, plan[v].parent) && !u.store.finished[plan[v].parent]
  {
    hide Reaches, Leads, Now, ChildrenDone, Leaf, Attended, Adds, Above, Harmed;
    var site := plan[v].site;
    var todo := Now(plan, t, site);
    ReachesFits(plan, t, [], t);
    var before, rest := AroundReady(plan, rank, root, sites, t, v);
    var x;
    longer, x := BothPick(plan, t, [], t, a, b, site);
    ReachesLeads(plan, t, longer, x);
    Anew(plan, t, longer, x);
    var more;
    more, u := SecondFirst(plan, x, a, b, site, before, v, rest);
    Then(plan, t, longer, x, more, u);
    longer := longer + more;
    HarmedFrom(plan, t, x, u, todo, v, a, b, Work(site, todo));
    StillAttended(plan, rank, t, u, site, v, a, b);
    ParentWaits(plan, t, u, v);
  }

  lemma Around(todo: seq<nat>, v: nat) returns (before: seq<nat>, rest: seq<nat>)
    requires Rising(todo) && v in todo
    ensures todo == before + ([v] + rest) && v !in before && v !in rest
  {
    var k: nat :| k < |todo| && todo[k] == v;
    before, rest := todo[..k], todo[k + 1..];
  }

  /** What a scan picks before and after the ready node `v`. */
  lemma AroundReady(plan: Plan, rank: seq<nat>, root: nat, sites: seq<Site>, t: State, v: nat)
    returns (before: seq<nat>, rest: seq<nat>)
    requires Executable(plan, rank, root, sites) && Fits(plan, t.store) && Closed(plan, t.store.finished)
    requires Ready(plan, t, v) && v != root
    ensures Now(plan, t, plan[v].site) == before + ([v] + rest) && AllInner(plan, Now(plan, t, plan[v].site))
    ensures AllInner(plan, before) && v !in before && v !in rest
    ensures forall c: nat :: c < |plan| && plan[c].parent == v ==> c !in before
  {
    hide Now, ChildrenDone;
    var site := plan[v].site;
    var todo := Now(plan, t, site);
    NowIs(plan, t, site);
    if Ready(plan, t, root) {
      RootLast(plan, rank, root, sites, t, v);
    }
    NowInner(plan, rank, root, sites, t, site);
    before, rest := Around(todo, v);
    assert forall k :: 0 <= k < |before| ==> before[k] == todo[k];
    forall c: nat | c < |plan| && plan[c].parent == v
      ensures c !in before
    {
      ReadyChild(plan, t, v, c);
      assert c !in todo;
    }
  }

  lemma ReadyChild(plan: Plan, t: State, v: nat, c: nat)
    requires Fits(plan, t.store) && Ready(plan, t, v) && c < |plan| && plan[c].parent == v
    ensures t.store.finished[c]
  {
  }

  lemma HarmedFrom(plan: Plan, t: State, x: State, u: State, todo: seq<nat>, v: nat, a: nat, b: nat, w: Proc)
    requires Fits(plan, t.store) && Fits(plan, u.store) && v < |plan| && AllInner(plan, todo)
    requires a < |t.procs| && b < |t.procs| && x.store == t.store
    requires x.procs == t.procs[a := w][b := w]
    requires Harmed(plan, x, u, todo, v, a, b)
    ensures Harmed(plan, t, u, todo, v, a, b) && Adds(plan, t, u, todo)
    ensures u.store.q.sound[v] ==> t.store.q.sound[v]
  {
  }

  lemma StillAttended(plan: Plan, rank: seq<nat>, t: State, u: State, site: Site, v: nat, a: nat, b: nat)
    requires ParentsExist(plan) && Ranked(plan, rank) && Fits(plan, t.store) && Fits(plan, u.store)
    requires v < |plan| && AllInner(plan, Now(plan, t, site)) && Attended(plan, rank, t, -1, v)
    requires a < |t.procs| && b < |t.procs| && t.procs[a] == t.procs[b] == Start(site)
    requires Harmed(plan, t, u, Now(plan, t, site), v, a, b)
    ensures forall w: nat :: Attended(plan, rank, u, -1, w)
  {
    hide Now, Above, Beside;
    var todo := Now(plan, t, site);
    NowIs(plan, t, site);
    forall m: nat | m < |plan| && Ready(plan, u, m)
      ensures Served(u.procs, -1, plan[m].site)
    {
      if Ready(plan, t, m) {
        var i :| 0 <= i < |t.procs| && t.procs[i] == Start(plan[m].site);
        assert u.procs[i] == t.procs[i];
      } else {
        var c: nat :| c < |plan| && plan[c].parent == m && !t.store.finished[c];
        var k: nat :| k < |todo| && todo[k] == c;
      }
    }
  }

  // ---- The select that misses its input ----

  /** Process `i` is about to select `n` for the first time and does not find
      good rows of every child. */
  ghost predicate Misses(plan: Plan, t: State, i: nat, n: nat) {
    && Fits(plan, t.store) && n < |plan|
    && i < |t.procs| && t.procs[i].Work? && t.procs[i].todo != [] && t.procs[i].todo[0] == n
    && t.store.selects[n] == 0 && ChildrenDone(plan, t.store.finished, n) && !SeesInputs(plan, t.store, n)
  }

  /** Scans run until the parent of the harmed node `v` is about to be selected. */
  lemma UntilMissed(plan: Plan, rank: seq<nat>, root: nat, sites: seq<Site>, t: State, v: nat)
    returns (longer: seq<Turn>, u: State, i: nat)
    requires Executable(plan, rank, root, sites) && Reaches(plan, t, [], t) && Fits(plan, t.store) && Inner(plan, v)
    requires Spare(plan, rank, t, -1, plan[v].parent) && t.store.finished[v] && !t.store.q.sound[v]
    requires t.store.selects[plan[v].parent] == 0
    ensures Leads(plan, t, longer, u) && Misses(plan, u, i, plan[v].parent)
  {
    hide Reaches, Now, Spare, ChildrenDone, SeesInputs, Picked;
    var p := plan[v].parent;
    var x;
    longer, x := Approach(plan, rank, root, sites, t, [], t, -1, p);
    i := SpareServed(plan, rank, x, -1, p);
    var site := plan[p].site;
    ReachesFits(plan, t, longer, x);
    var before, rest := BeforeReady(plan, rank, root, sites, x, p);
    NowIsPicked(plan, x, site);
    longer, u := StartAlone(plan, t, longer, x, i);
    longer, u := ExecuteAll(plan, t, longer, u, i, before, [p] + rest);
    SetIs(x.store.finished, before);
    DoneGrows(plan, x.store.finished, u.store.finished, p);
    NotSeen(plan, u, v);
    ReachesLeads(plan, t, longer, u);
  }

  lemma NotSeen(plan: Plan, t: State, v: nat)
    requires Fits(plan, t.store) && Inner(plan, v) && !t.store.q.sound[v]
    ensures !SeesInputs(plan, t.store, plan[v].parent)
  {
  }

  /** What a scan picks before the ready node `p`, the root not being among it. */
  lemma BeforeReady(plan: Plan, rank: seq<nat>, root: nat, sites: seq<Site>, t: State, p: nat)
    returns (before: seq<nat>, rest: seq<nat>)
    requires Executable(plan, rank, root, sites) && Fits(plan, t.store) && Closed(plan, t.store.finished)
    requires Ready(plan, t, p)
    ensures Now(plan, t, plan[p].site) == before + ([p] + rest) && AllInner(plan, before) && p !in before
    ensures forall n: nat :: n < |plan| && t.store.finished[n] ==> n !in before
  {
    hide Now, ChildrenDone;
    if p != root {
      before, rest := AroundReady(plan, rank, root, sites, t, p);
      NowIs(plan, t, plan[p].site);
    } else {
      OnlyRoot(plan, rank, root, sites, t);
      before, rest := [], [];
    }
  }

  lemma NowIsPicked(plan: Plan, t: State, site: Site)
    requires Fits(plan, t.store)
    ensures Now(plan, t, site) == Picked(plan, t.store.finished, site, |plan|)
  {
  }

  /** A node with children that pushes to another site and is not alone: both of
      two scans give up, and a first select of the parent misses its input. */
  lemma FirstSelectMisses(plan: Plan, rank: seq<nat>, root: nat, sites: seq<Site>, v: nat)
    returns (schedule: seq<Turn>, i: nat)
    requires Executable(plan, rank, root, sites)
    requires v < |plan| && Remote(plan, v) && !Leaf(plan, v) && !Lone(plan, rank, v)
    ensures Misses(plan, Run(plan, Started(plan, sites), schedule), i, plan[v].parent)
  {
    hide Run, Reaches, Lone, Leaf, Attended, Spare, TwoFor, Now, Misses, Safe;
    var s := Started(plan, sites);
    var t, a, b;
    schedule, t, a, b := Doubled(plan, rank, root, sites, v);
    ReachesLeads(plan, s, schedule, t);
    Anew(plan, s, schedule, t);
    var more, u := BothGiveUp(plan, rank, root, sites, t, a, b, v);
    HarmedState(plan, sites, s, t, a, b, u, v);
    Then(plan, s, schedule, t, more, u);
    schedule := schedule + more;
    Anew(plan, s, schedule, u);
    more, t, i := UntilMissed(plan, rank, root, sites, u, v);
    Then(plan, s, schedule, u, more, t);
    schedule := schedule + more;
  }

  lemma HarmedState(plan: Plan, sites: seq<Site>, s: State, t: State, a: nat, b: nat, u: State, v: nat)
    requires s == Begin(plan, sites) && Fits(plan, s.store) && Fits(plan, t.store) && Fits(plan, u.store)
    requires Onward(plan, s, t) && TwoFor(plan, t, v, a, b) && Inner(plan, v)
    requires Adds(plan, t, u, Now(plan, t, plan[v].site)) && (u.store.q.sound[v] ==> t.store.q.sound[v])
    requires !u.store.finished[plan[v].parent]
    ensures u.store.finished[v] && !u.store.q.sound[v] && u.store.selects[plan[v].parent] == 0
  {
    hide Now;
    NowIs(plan, t, plan[v].site);
  }

  // ---- The exact condition ----

  /** Process `i`, about to select its node for the first time, finds good rows
      of every child. */
  ghost predicate FirstFinds(plan: Plan, rank: seq<nat>, root: nat, sites: seq<Site>, schedule: seq<Turn>, i: nat) {
    Executable(plan, rank, root, sites) ==>
      var t := Run(plan, Started(plan, sites), schedule);
      && Fits(plan, t.store)
      && (i < |t.procs| && t.procs[i].Work? && t.procs[i].todo != [] ==>
            var n := t.procs[i].todo[0];
            n < |plan| && t.store.selects[n] == 0 ==> SeesInputs(plan, t.store, n))
  }

  /** Every node with children that pushes to another site is alone. */
  ghost predicate Harmless(plan: Plan, rank: seq<nat>)
    requires ParentsExist(plan) && Ranked(plan, rank)
  {
    forall w: nat :: w < |plan| && Remote(plan, w) && !Leaf(plan, w) ==> Lone(plan, rank, w)
  }

  /** First selects find their inputs in every schedule of a plan, whatever
      pushes are given up, if and only if every node with children that pushes to
      another site is alone on its way up. */
  lemma HarmlessIff(plan: Plan, rank: seq<nat>, root: nat, sites: seq<Site>)
    requires Executable(plan, rank, root, sites) && Distinct(sites)
    ensures (forall schedule: seq<Turn>, i: nat :: FirstFinds(plan, rank, root, sites, schedule, i))
            <==> Harmless(plan, rank)
  {
    hide Run, Lone, Leaf, Remote;
    if Harmless(plan, rank) {
      forall schedule: seq<Turn>, i: nat
        ensures FirstFinds(plan, rank, root, sites, schedule, i)
      {
        HarmlessFinds(plan, rank, root, sites, schedule, i);
      }
    } else {
      var w: nat :| w < |plan| && Remote(plan, w) && !Leaf(plan, w) && !Lone(plan, rank, w);
      var schedule, i := FirstSelectMisses(plan, rank, root, sites, w);
      assert !FirstFinds(plan, rank, root, sites, schedule, i);
    }
  }

  lemma HarmlessFinds(plan: Plan, rank: seq<nat>, root: nat, sites: seq<Site>, schedule: seq<Turn>, i: nat)
    requires Executable(plan, rank, root, sites) && Distinct(sites) && Harmless(plan, rank)
    ensures FirstFinds(plan, rank, root, sites, schedule, i)
  {
    hide Run, Lone, Leaf, Remote, Accounted, Supplied, SeesInputs;
    var alone := set w: nat | w < |plan| && Remote(plan, w) && !Leaf(plan, w);
    RunFree(plan, rank, root, sites, alone, schedule);
    var t := Run(plan, Started(plan, sites), schedule);
    if i < |t.procs| && t.procs[i].Work? && t.procs[i].todo != [] {
      var n := t.procs[i].todo[0];
      assert Fine(plan, t.store, t.procs[i]);
      if t.store.selects[n] == 0 {
        Finds(plan, alone, t.store, n);
      }
    }
  }

  /** First selects find their inputs in all runs of all plans. */
  ghost predicate InputsPromise(patient: bool) {
    forall plan: Plan, rank: seq<nat>, root: nat, sites: seq<Site>, schedule: seq<Turn>, i: nat ::
      (patient ==> Patient(schedule)) ==> FirstFinds(plan, rank, root, sites, schedule, i)
  }

  /** Two leaves and their parent at site 1, the root at site 2. */
  const PLAN: Plan := [Node(2, 1), Node(2, 1), Node(3, 1), Node(-1, 2)]
  const SITES: seq<Site> := [1, 2]

  lemma Runs()
    ensures Executable(PLAN, [0, 0, 1, 2], 3, SITES) && !Harmless(PLAN, [0, 0, 1, 2])
  {
    assert PLAN[0].parent == PLAN[1].parent == 2 && PLAN[2].parent == 3;
    assert Inner(PLAN, 0) && Inner(PLAN, 1) && Remote(PLAN, 2);
    Itself(PLAN, [0, 0, 1, 2], 2);
    assert !OnePath(PLAN, [0, 0, 1, 2], 2);
  }

  /** That is so if and only if senders wait until their rows are stored. */
  lemma InputsPromiseIff(patient: bool)
    ensures InputsPromise(patient) <==> patient
  {
    hide Run, Executable, Harmless;
    if patient {
      forall plan: Plan, rank: seq<nat>, root: nat, sites: seq<Site>, schedule: seq<Turn>, i: nat | Patient(schedule)
        ensures FirstFinds(plan, rank, root, sites, schedule, i)
      {
        if Executable(plan, rank, root, sites) {
          PromiseKept(plan, rank, root, sites, schedule, i);
        }
      }
    } else {
      Runs();
      HarmlessIff(PLAN, [0, 0, 1, 2], 3, SITES);
      var schedule: seq<Turn>, i: nat :| !FirstFinds(PLAN, [0, 0, 1, 2], 3, SITES, schedule, i);
    }
  }

  lemma PromiseKept(plan: Plan, rank: seq<nat>, root: nat, sites: seq<Site>, schedule: seq<Turn>, i: nat)
    requires Executable(plan, rank, root, sites) && Patient(schedule)
    ensures FirstFinds(plan, rank, root, sites, schedule, i)
  {
    hide Run, Awake;
    var t := Run(plan, Started(plan, sites), schedule);
    SafeIsShaped(plan, t);
    if i < |t.procs| && t.procs[i].Work? && t.procs[i].todo != [] {
      PatientIsCareful(plan, Started(plan, sites), schedule);
      InputsAreThere(plan, rank, root, sites, schedule, i);
    }
  }
}
