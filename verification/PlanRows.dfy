/** Conservation of rows: every select is stored once or still in flight. */
module PlanRows {
  import opened PlanProtocol
  import opened PlanProofs

  /** How many selects of node `c` process `p` has still to have stored. */
  ghost function Owed(p: Proc, c: nat): nat {
    if (p.Selected? && p.todo != [] && p.todo[0] == c) || (p.Message? && p.node == c) then 1 else 0
  }

  ghost function InFlight(procs: seq<Proc>, c: nat): nat {
    if procs == [] then 0 else InFlight(procs[..|procs| - 1], c) + Owed(procs[|procs| - 1], c)
  }

  lemma {:induction false} InFlightUpdate(procs: seq<Proc>, i: nat, q: Proc, c: nat)
    requires i < |procs|
    ensures InFlight(procs[i := q], c) + Owed(procs[i], c) == InFlight(procs, c) + Owed(q, c)
  {
    hide Owed;
    var n := |procs| - 1;
    if i < n {
      InFlightUpdate(procs[..n], i, q, c);
      assert procs[i := q][..n] == procs[..n][i := q];
    } else {
      assert procs[i := q][..n] == procs[..n];
    }
  }

  lemma {:induction false} InFlightConcat(a: seq<Proc>, b: seq<Proc>, c: nat)
    ensures InFlight(a + b, c) == InFlight(a, c) + InFlight(b, c)
  {
    hide Owed;
    if b == [] {
      assert a + b == a;
    } else {
      assert (a + b)[..|a + b| - 1] == a + b[..|b| - 1];
      InFlightConcat(a, b[..|b| - 1], c);
    }
  }

  /** What the process has already done for the node in hand. */
  ghost predicate Recorded(plan: Plan, st: Store, p: Proc)
    requires Fits(plan, st) && ProcShaped(plan, p)
  {
    match p
    case Selected(_, todo, _) => st.selects[todo[0]] >= 1
    case RootStored(_, todo) => st.selects[todo[0]] >= 1
    case RootFlagged(_, todo) => st.selects[todo[0]] >= 1
    case Stored(_, todo) => st.selects[todo[0]] >= 1 && st.stores[todo[0]] >= 1
    case Flagged(_, todo) => st.selects[todo[0]] >= 1 && st.stores[todo[0]] >= 1
    case Deleting(_, todo, _) => st.selects[todo[0]] >= 1
    case Received(n) => st.stores[n] >= 1
    case Forking(n) => st.stores[n] >= 1
    case _ => true
  }

  /** A finished node was stored, and until its parent is first selected its
      table holds everything that was ever stored. */
  ghost predicate Kept(plan: Plan, st: Store, c: nat)
    requires Fits(plan, st) && Inner(plan, c)
  {
    && (st.finished[c] ==> st.stores[c] >= 1)
    && (st.selects[plan[c].parent] == 0 ==> st.tables[c] == st.stores[c])
  }

  ghost predicate Accounted(plan: Plan, s: State)
    requires Shaped(plan, s)
  {
    && (forall i :: 0 <= i < |s.procs| ==> Recorded(plan, s.store, s.procs[i]))
    && (forall c: nat :: Inner(plan, c) ==> Kept(plan, s.store, c))
    && (forall c: nat :: Inner(plan, c) ==> s.store.stores[c] + InFlight(s.procs, c) == s.store.selects[c])
  }

  /** Selects and stores are only ever added. */
  ghost predicate Later(a: Store, b: Store) {
    && |a.selects| == |b.selects| && |a.stores| == |b.stores|
    && (forall n :: 0 <= n < |a.selects| ==> a.selects[n] <= b.selects[n])
    && (forall n :: 0 <= n < |a.stores| ==> a.stores[n] <= b.stores[n])
  }

  lemma ActKept(plan: Plan, st: Store, p: Proc, late: bool, c: nat)
    requires ParentsExist(plan) && Fine(plan, st, p) && Recorded(plan, st, p)
    requires Inner(plan, c) && Kept(plan, st, c)
    ensures var m := Act(plan, st, p, late); Fits(plan, m.store) && Kept(plan, m.store, c)
  {
    hide Picked, Sound, SeesInputs;
  }

  lemma ActRows(plan: Plan, st: Store, p: Proc, late: bool)
    requires ParentsExist(plan) && Fine(plan, st, p) && Recorded(plan, st, p)
    ensures var m := Act(plan, st, p, late);
            && Fits(plan, m.store) && Later(st, m.store)
            && (ProcShaped(plan, m.next) ==> Recorded(plan, m.store, m.next))
            && (forall q <- m.forked :: q.Message? || q.Start?)
  {
    hide Picked, Sound, SeesInputs;
  }

  /** A step settles what it adds: the stores, the rows in flight and the
      selects of every inner node balance. */
  lemma ActBalances(plan: Plan, st: Store, p: Proc, c: nat, late: bool)
    requires ParentsExist(plan) && Fine(plan, st, p) && Inner(plan, c)
    ensures var m := Act(plan, st, p, late);
            && Fits(plan, m.store)
            && (m.store.stores[c] - st.stores[c]) + Owed(m.next, c) + InFlight(m.forked, c)
               == (m.store.selects[c] - st.selects[c]) + Owed(p, c)
  {
    hide Picked, Sound, SeesInputs;
    var m := Act(plan, st, p, late);
    assert InFlight([], c) == 0;
    if m.forked != [] {
      assert m.forked == [m.forked[0]] && m.forked[..0] == [];
      assert InFlight(m.forked, c) == Owed(m.forked[0], c);
    }
  }

  lemma StepAccounted(plan: Plan, s: State, i: nat, late: bool)
    requires ParentsExist(plan) && Safe(plan, s) && Accounted(plan, s) && i < |s.procs|
    ensures Safe(plan, Step(plan, s, i, late)) && Accounted(plan, Step(plan, s, i, late))
  {
    hide Act, Sound, Closed, ProcShaped, Kept, Owed, Recorded;
    StepSafe(plan, s, i, late);
    var t := Step(plan, s, i, late);
    var p := s.procs[i];
    var m := Act(plan, s.store, p, late);
    ActRows(plan, s.store, p, late);
    forall c: nat | Inner(plan, c) ensures Kept(plan, t.store, c) {
      ActKept(plan, s.store, p, late, c);
    }
    forall j | 0 <= j < |t.procs| ensures Recorded(plan, t.store, t.procs[j]) {
      assert ProcShaped(plan, t.procs[j]);
      if j < |s.procs| && j != i {
        assert t.procs[j] == s.procs[j];
        RecordedLater(plan, s.store, t.store, s.procs[j]);
      } else if j == i {
        assert t.procs[j] == m.next;
      } else {
        assert t.procs[j] in m.forked;
        NewIsRecorded(plan, t.store, t.procs[j]);
      }
    }
    forall c: nat | Inner(plan, c) ensures t.store.stores[c] + InFlight(t.procs, c) == t.store.selects[c] {
      ActBalances(plan, s.store, p, c, late);
      InFlightUpdate(s.procs, i, m.next, c);
      InFlightConcat(s.procs[i := m.next], m.forked, c);
    }
  }

  lemma NewIsRecorded(plan: Plan, st: Store, p: Proc)
    requires Fits(plan, st) && ProcShaped(plan, p) && (p.Message? || p.Start?)
    ensures Recorded(plan, st, p)
  {
  }

  lemma RecordedLater(plan: Plan, a: Store, b: Store, p: Proc)
    requires Fits(plan, a) && Fits(plan, b) && ProcShaped(plan, p) && Later(a, b) && Recorded(plan, a, p)
    ensures Recorded(plan, b, p)
  {
  }
}
