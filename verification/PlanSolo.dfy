/** Schedules in which one process goes on by itself: it scans, executes all it
    picked, and leaves scans behind that others have still to start. */
module PlanSolo {
  import opened PlanProtocol
  import opened PlanProofs
  import opened PlanTheorems
  import opened PlanInputs

  /** A patient schedule leads from `s` to `t`. */
  ghost predicate Reaches(plan: Plan, s: State, schedule: seq<Turn>, t: State) {
    && ParentsExist(plan) && Safe(plan, s) && Patient(schedule)
    && Run(plan, s, schedule) == t && Shaped(plan, t)
  }

  lemma GoOn(plan: Plan, s: State, schedule: seq<Turn>, t: State, i: nat, late: bool)
    returns (longer: seq<Turn>, u: State)
    requires Reaches(plan, s, schedule, t) && i < |t.procs|
    ensures longer == schedule + [Turn(i, late)]
    ensures u == Step(plan, t, i, late) && Run(plan, s, longer) == u && Shaped(plan, u)
    ensures !late ==> Reaches(plan, s, longer, u)
  {
    hide Step, Safe;
    longer := schedule + [Turn(i, late)];
    assert longer[..|longer| - 1] == schedule;
    u := Run(plan, s, longer);
    SafeIsShaped(plan, u);
  }

  /** A scan that runs on its own picks from the flags as they are. */
  lemma {:induction false} ScanAlone(plan: Plan, s: State, schedule: seq<Turn>, t: State, i: nat, k: nat)
    returns (longer: seq<Turn>, u: State)
    requires Reaches(plan, s, schedule, t) && k <= |plan|
    requires i < |t.procs| && t.procs[i].Scan? && t.procs[i].snap == t.store.finished[..k]
    ensures Reaches(plan, s, longer, u)
    ensures var site := t.procs[i].site;
            u == State(t.store, t.procs[i := Work(site, Picked(plan, t.store.finished, site, |plan|))])
    decreases |plan| - k
  {
    hide Reaches, Picked;
    ReachesShaped(plan, s, schedule, t);
    longer, u := GoOn(plan, s, schedule, t, i, false);
    if k < |plan| {
      assert u.procs[i].snap == u.store.finished[..k + 1];
      var v := u;
      longer, u := ScanAlone(plan, s, longer, u, i, k + 1);
      assert v.procs[i := u.procs[i]] == t.procs[i := u.procs[i]];
    } else {
      assert t.store.finished[..k] == t.store.finished;
    }
  }

  lemma ReachesShaped(plan: Plan, s: State, schedule: seq<Turn>, t: State)
    requires Reaches(plan, s, schedule, t)
    ensures ParentsExist(plan) && Shaped(plan, t)
  {
  }

  lemma StartAlone(plan: Plan, s: State, schedule: seq<Turn>, t: State, i: nat) returns (longer: seq<Turn>, u: State)
    requires Reaches(plan, s, schedule, t) && i < |t.procs| && t.procs[i].Start?
    ensures Reaches(plan, s, longer, u)
    ensures ParentsExist(plan) && Shaped(plan, t)
    ensures var site := t.procs[i].site;
            u == State(t.store, t.procs[i := Work(site, Picked(plan, t.store.finished, site, |plan|))])
  {
    hide Reaches, Picked;
    ReachesShaped(plan, s, schedule, t);
    longer, u := GoOn(plan, s, schedule, t, i, false);
    assert u.procs == t.procs[i := Scan(t.procs[i].site, [])];
    var v := u;
    longer, u := ScanAlone(plan, s, longer, u, i, 0);
    assert v.procs[i := u.procs[i]] == t.procs[i := u.procs[i]];
  }

  /** What dropping the children's tables of `n` from the k-th on leaves. */
  ghost predicate Dropped(plan: Plan, a: Store, b: Store, n: nat, k: nat)
    requires Fits(plan, a) && Fits(plan, b)
  {
    && b.finished == a.finished && b.selects == a.selects && b.done == a.done && b.q.result == a.q.result
    && forall c :: 0 <= c < |plan| ==> b.q.sound[c] == (a.q.sound[c] && !(k <= c && plan[c].parent == n))
  }

  lemma {:induction false} DropAlone(plan: Plan, s: State, schedule: seq<Turn>, t: State, i: nat, k: nat)
    returns (longer: seq<Turn>, u: State)
    requires Reaches(plan, s, schedule, t) && Fits(plan, t.store)
    requires i < |t.procs| && t.procs[i].Deleting? && t.procs[i].next == k <= |plan| && t.procs[i].todo != []
    ensures Reaches(plan, s, longer, u) && Fits(plan, u.store)
    ensures Dropped(plan, t.store, u.store, t.procs[i].todo[0], k)
    ensures u.procs == t.procs[i := Work(t.procs[i].site, t.procs[i].todo[1..])]
    decreases |plan| - k
  {
    hide Reaches, SeesInputs, Dropped, DropRows, Mine;
    ReachesShaped(plan, s, schedule, t);
    var site, todo := t.procs[i].site, t.procs[i].todo;
    longer, u := GoOn(plan, s, schedule, t, i, false);
    if k < |plan| {
      var v := u;
      assert v.procs == t.procs[i := Deleting(site, todo, k + 1)];
      longer, u := DropAlone(plan, s, longer, u, i, k + 1);
      DroppedMore(plan, t.store, v.store, u.store, todo[0], k);
      assert v.procs[i := u.procs[i]] == t.procs[i := u.procs[i]];
    } else {
      NothingDropped(plan, t.store, todo[0]);
    }
  }

  lemma DroppedMore(plan: Plan, a: Store, b: Store, c: Store, n: nat, k: nat)
    requires Fits(plan, a) && Fits(plan, b) && Fits(plan, c) && k < |plan|
    requires b == if plan[k].parent == n then DropRows(a, k) else a
    requires Dropped(plan, b, c, n, k + 1)
    ensures Dropped(plan, a, c, n, k)
  {
  }

  lemma NothingDropped(plan: Plan, a: Store, n: nat)
    requires Fits(plan, a)
    ensures Dropped(plan, a, a, n, |plan|)
  {
  }

  /** What executing an inner node leaves: its flag set, one select more, and
      the tables of its children dropped. */
  ghost predicate Executed(plan: Plan, a: Store, b: Store, n: nat)
    requires Fits(plan, a) && Fits(plan, b) && n < |plan|
  {
    && b.finished == a.finished[n := true] && b.selects == Add(a.selects, n)
    && b.q.result == a.q.result
    && b.q.sound[n] == (a.q.sound[n] || SeesInputs(plan, a, n))
    && forall c :: 0 <= c < |plan| && c != n ==> b.q.sound[c] == (a.q.sound[c] && plan[c].parent != n)
  }

  /** The rows are selected and stored, the flag is set. */
  lemma PushOne(plan: Plan, s: State, schedule: seq<Turn>, t: State, i: nat) returns (longer: seq<Turn>, u: State)
    requires Reaches(plan, s, schedule, t) && Fits(plan, t.store)
    requires i < |t.procs| && t.procs[i].Work? && t.procs[i].todo != [] && Inner(plan, t.procs[i].todo[0])
    ensures Reaches(plan, s, longer, u) && Fits(plan, u.store)
    ensures var n := t.procs[i].todo[0];
            && u.procs == t.procs[i := Flagged(t.procs[i].site, t.procs[i].todo)]
            && u.store == SetFlag(StoreRows(t.store.(selects := Add(t.store.selects, n)), n, SeesInputs(plan, t.store, n)), n)
  {
    hide Reaches, SeesInputs, Picked;
    ReachesShaped(plan, s, schedule, t);
    var site, todo := t.procs[i].site, t.procs[i].todo;
    var n := todo[0];
    longer, u := GoOn(plan, s, schedule, t, i, false);
    assert u.procs == t.procs[i := Selected(site, todo, SeesInputs(plan, t.store, n))];
    longer, u := GoOn(plan, s, longer, u, i, false);
    assert u.procs == t.procs[i := Stored(site, todo)];
    longer, u := GoOn(plan, s, longer, u, i, false);
    assert u.procs == t.procs[i := Flagged(site, todo)];
  }

  lemma ForkOne(plan: Plan, s: State, schedule: seq<Turn>, t: State, i: nat) returns (longer: seq<Turn>, u: State)
    requires Reaches(plan, s, schedule, t) && Fits(plan, t.store)
    requires i < |t.procs| && t.procs[i].Flagged? && t.procs[i].todo != [] && Inner(plan, t.procs[i].todo[0])
    ensures Reaches(plan, s, longer, u) && Fits(plan, u.store)
    ensures var n := t.procs[i].todo[0];
            && Dropped(plan, t.store, u.store, n, 0)
            && u.procs == t.procs[i := Work(t.procs[i].site, t.procs[i].todo[1..])]
                          + [Start(plan[plan[n].parent].site)]
  {
    hide Reaches, SeesInputs, Picked, Dropped;
    ReachesShaped(plan, s, schedule, t);
    var site, todo := t.procs[i].site, t.procs[i].todo;
    longer, u := GoOn(plan, s, schedule, t, i, false);
    var fork := Start(plan[plan[todo[0]].parent].site);
    assert u.procs == t.procs[i := Deleting(site, todo, 0)] + [fork];
    longer, u := DropAlone(plan, s, longer, u, i, 0);
    assert u.procs == t.procs[i := Work(site, todo[1..])] + [fork];
  }

  lemma ExecuteOne(plan: Plan, s: State, schedule: seq<Turn>, t: State, i: nat) returns (longer: seq<Turn>, u: State)
    requires Reaches(plan, s, schedule, t) && Fits(plan, t.store)
    requires i < |t.procs| && t.procs[i].Work? && t.procs[i].todo != []
    requires Inner(plan, t.procs[i].todo[0]) && plan[t.procs[i].todo[0]].parent != t.procs[i].todo[0]
    ensures Reaches(plan, s, longer, u) && Fits(plan, u.store)
    ensures var n := t.procs[i].todo[0];
            && Executed(plan, t.store, u.store, n)
            && u.procs == t.procs[i := Work(t.procs[i].site, t.procs[i].todo[1..])]
                          + [Start(plan[plan[n].parent].site)]
  {
    hide Reaches, SeesInputs;
    longer, u := PushOne(plan, s, schedule, t, i);
    longer, u := ForkOne(plan, s, longer, u, i);
    var site, todo := t.procs[i].site, t.procs[i].todo;
    assert t.procs[i := Flagged(site, todo)][i := Work(site, todo[1..])] == t.procs[i := Work(site, todo[1..])];
  }

  /** Nodes with a parent other than themselves. */
  predicate AllInner(plan: Plan, todo: seq<nat>) {
    forall k :: 0 <= k < |todo| ==> Inner(plan, todo[k]) && plan[todo[k]].parent != todo[k]
  }

  predicate AllBelow(todo: seq<nat>, n: nat) {
    forall k :: 0 <= k < |todo| ==> todo[k] < n
  }

  function Forks(plan: Plan, todo: seq<nat>): seq<Proc>
    requires AllInner(plan, todo)
  {
    if todo == [] then [] else [Start(plan[plan[todo[0]].parent].site)] + Forks(plan, todo[1..])
  }

  function Set(finished: seq<bool>, todo: seq<nat>): seq<bool>
    requires AllBelow(todo, |finished|)
    decreases |todo|
  {
    if todo == [] then finished else Set(finished[todo[0] := true], todo[1..])
  }

  /** Of nodes not in `todo` no select is added and no rows become good. */
  ghost predicate Beside(plan: Plan, a: Store, b: Store, todo: seq<nat>)
    requires Fits(plan, a) && Fits(plan, b)
  {
    forall n: nat :: n < |plan| && n !in todo ==>
      b.selects[n] == a.selects[n] && (b.q.sound[n] ==> a.q.sound[n])
  }

  /** A process executes the first nodes it picked. */
  lemma {:induction false} ExecuteAll(plan: Plan, s: State, schedule: seq<Turn>, t: State, i: nat,
                                      todo: seq<nat>, rest: seq<nat>)
    returns (longer: seq<Turn>, u: State)
    requires Reaches(plan, s, schedule, t) && Fits(plan, t.store)
    requires i < |t.procs| && t.procs[i].Work? && t.procs[i].todo == todo + rest
    requires AllInner(plan, todo)
    ensures Reaches(plan, s, longer, u) && Fits(plan, u.store)
    ensures u.store.finished == Set(t.store.finished, todo) && Beside(plan, t.store, u.store, todo)
    ensures u.procs == t.procs[i := Work(t.procs[i].site, rest)] + Forks(plan, todo)
    decreases |todo|
  {
    hide Reaches, Executed, Beside;
    if todo == [] {
      longer, u := schedule, t;
      assert todo + rest == rest;
      assert t.procs[i := Work(t.procs[i].site, rest)] == t.procs == t.procs + [];
      NothingBeside(plan, t.store, t.store, t.store, todo);
    } else {
      assert (todo + rest)[0] == todo[0] && (todo + rest)[1..] == todo[1..] + rest;
      longer, u := ExecuteOne(plan, s, schedule, t, i);
      ExecutedFlag(plan, t.store, u.store, todo[0]);
      var v := u;
      longer, u := ExecuteAll(plan, s, longer, u, i, todo[1..], rest);
      NothingBeside(plan, t.store, v.store, u.store, todo);
      var w := Work(t.procs[i].site, rest);
      assert v.procs[i := w] == t.procs[i := w] + [v.procs[|t.procs|]];
      assert u.procs == t.procs[i := w] + ([v.procs[|t.procs|]] + Forks(plan, todo[1..]));
    }
  }

  lemma NothingBeside(plan: Plan, a: Store, b: Store, c: Store, todo: seq<nat>)
    requires Fits(plan, a) && Fits(plan, b) && Fits(plan, c)
    requires todo == [] ==> a == c
    requires todo != [] ==> todo[0] < |plan| && Executed(plan, a, b, todo[0]) && Beside(plan, b, c, todo[1..])
    ensures Beside(plan, a, c, todo)
  {
    if todo != [] {
      assert todo == [todo[0]] + todo[1..];
    }
  }

  lemma ExecutedFlag(plan: Plan, a: Store, b: Store, n: nat)
    requires Fits(plan, a) && Fits(plan, b) && n < |plan| && Executed(plan, a, b, n)
    ensures b.finished == a.finished[n := true]
  {
  }

  lemma {:induction false} ForksAre(plan: Plan, todo: seq<nat>, k: nat)
    requires AllInner(plan, todo)
    requires k < |todo|
    ensures |Forks(plan, todo)| == |todo|
    ensures Forks(plan, todo)[k] == Start(plan[plan[todo[k]].parent].site)
  {
    if k > 0 {
      ForksAre(plan, todo[1..], k - 1);
    } else if |todo| > 1 {
      ForksAre(plan, todo[1..], 0);
    }
  }

  lemma {:induction false} SetIs(finished: seq<bool>, todo: seq<nat>)
    requires AllBelow(todo, |finished|)
    ensures |Set(finished, todo)| == |finished|
    ensures forall n: nat :: n < |finished| ==> (Set(finished, todo)[n] <==> finished[n] || n in todo)
    decreases |todo|
  {
    if todo != [] {
      assert todo == [todo[0]] + todo[1..];
      SetIs(finished[todo[0] := true], todo[1..]);
    }
  }

  predicate Rising(todo: seq<nat>) {
    forall i, j :: 0 <= i < j < |todo| ==> todo[i] < todo[j]
  }

  /** A scan picks nodes in increasing order. */
  lemma {:induction false} PickedRises(plan: Plan, flags: seq<bool>, site: Site, k: nat)
    requires |flags| == |plan| && k <= |plan|
    ensures AllBelow(Picked(plan, flags, site, k), k) && Rising(Picked(plan, flags, site, k))
  {
    hide ChildrenDone;
    if k > 0 {
      PickedRises(plan, flags, site, k - 1);
      RisesOn(Picked(plan, flags, site, k - 1), k - 1);
    }
  }

  lemma RisesOn(todo: seq<nat>, k: nat)
    requires AllBelow(todo, k) && Rising(todo)
    ensures AllBelow(todo, k + 1) && AllBelow(todo + [k], k + 1) && Rising(todo + [k])
  {
  }
}
