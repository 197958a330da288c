/** What every interleaving of the plan protocol keeps. */
module PlanProofs {
  import opened PlanProtocol

  /** Flags are only ever set. */
  ghost predicate Grows(a: seq<bool>, b: seq<bool>) {
    |a| == |b| && forall n :: 0 <= n < |a| && a[n] ==> b[n]
  }

  ghost predicate AllReady(plan: Plan, finished: seq<bool>, todo: seq<nat>)
    requires |finished| == |plan|
  {
    forall k :: 0 <= k < |todo| ==> ChildrenDone(plan, finished, todo[k])
  }

  /** What a process relies on: flags it has read as set are set, and every node
      it deals with has all its children finished. */
  ghost predicate Sound(plan: Plan, finished: seq<bool>, p: Proc)
    requires |finished| == |plan| && ProcShaped(plan, p)
  {
    match p
    case Scan(_, snap) => forall k :: 0 <= k < |snap| && snap[k] ==> finished[k]
    case Work(_, todo) => AllReady(plan, finished, todo)
    case Selected(_, todo, _) => AllReady(plan, finished, todo)
    case RootStored(_, todo) => AllReady(plan, finished, todo)
    case RootFlagged(_, todo) => AllReady(plan, finished, todo) && finished[todo[0]]
    case Stored(_, todo) => AllReady(plan, finished, todo)
    case Flagged(_, todo) => AllReady(plan, finished, todo) && finished[todo[0]]
    case Deleting(_, todo, _) => AllReady(plan, finished, todo)
    case Message(n, _) => ChildrenDone(plan, finished, n)
    case Received(n) => ChildrenDone(plan, finished, n)
    case Forking(n) => ChildrenDone(plan, finished, n) && finished[n]
    case _ => true
  }

  /** The finished set is closed under children. */
  ghost predicate Closed(plan: Plan, finished: seq<bool>)
    requires |finished| == |plan|
  {
    forall n: nat :: n < |plan| && finished[n] ==> ChildrenDone(plan, finished, n)
  }

  lemma DoneGrows(plan: Plan, a: seq<bool>, b: seq<bool>, n: nat)
    requires |a| == |plan| && Grows(a, b) && ChildrenDone(plan, a, n)
    ensures ChildrenDone(plan, b, n)
  {
  }

  lemma SoundGrows(plan: Plan, a: seq<bool>, b: seq<bool>, p: Proc)
    requires |a| == |plan| && Grows(a, b) && ProcShaped(plan, p) && Sound(plan, a, p)
    ensures Sound(plan, b, p)
  {
    hide ChildrenDone;
    forall n: nat | ChildrenDone(plan, a, n) ensures ChildrenDone(plan, b, n) {
      DoneGrows(plan, a, b, n);
    }
  }

  lemma SetFlagClosed(plan: Plan, st: Store, n: nat)
    requires Fits(plan, st) && n < |plan| && Closed(plan, st.finished) && ChildrenDone(plan, st.finished, n)
    ensures var after := SetFlag(st, n);
            Fits(plan, after) && Grows(st.finished, after.finished) && Closed(plan, after.finished)
  {
    hide ChildrenDone;
    var after := SetFlag(st, n);
    forall m: nat | m < |plan| && after.finished[m] ensures ChildrenDone(plan, after.finished, m) {
      DoneGrows(plan, st.finished, after.finished, m);
    }
  }

  /** What a scan picks is ready, although it read the flags one at a time. */
  lemma PickedReady(plan: Plan, finished: seq<bool>, snap: seq<bool>, site: Site)
    requires |finished| == |snap| == |plan| && Grows(snap, finished)
    ensures var todo := Picked(plan, snap, site, |plan|); Mine(plan, site, todo) && AllReady(plan, finished, todo)
  {
    hide Picked, ChildrenDone;
    var todo := Picked(plan, snap, site, |plan|);
    PickedIs(plan, snap, site, |plan|);
    forall k | 0 <= k < |todo|
      ensures todo[k] < |plan| && plan[todo[k]].site == site && ChildrenDone(plan, finished, todo[k])
    {
      assert todo[k] in todo;
      DoneGrows(plan, snap, finished, todo[k]);
    }
  }

  ghost predicate Fine(plan: Plan, st: Store, p: Proc) {
    Fits(plan, st) && ProcShaped(plan, p) && Sound(plan, st.finished, p)
  }

  /** One step of a sound process leaves sound processes and closed flags. */
  lemma ActSound(plan: Plan, st: Store, p: Proc, late: bool)
    requires ParentsExist(plan) && Fine(plan, st, p) && Closed(plan, st.finished)
    ensures var m := Act(plan, st, p, late);
            && Fits(plan, m.store) && Grows(st.finished, m.store.finished) && Closed(plan, m.store.finished)
            && Fine(plan, m.store, m.next) && forall q <- m.forked :: Fine(plan, m.store, q)
  {
    hide ChildrenDone, Picked, Closed, SeesInputs;
    var m := Act(plan, st, p, late);
    match p {
      case Scan(site, snap) =>
        if |snap| == |plan| {
          PickedReady(plan, st.finished, snap, site);
        }
      case RootStored(site, todo) =>
        SetFlagClosed(plan, st, todo[0]);
        SoundGrows(plan, st.finished, m.store.finished, p);
      case Stored(site, todo) =>
        SetFlagClosed(plan, st, todo[0]);
        SoundGrows(plan, st.finished, m.store.finished, p);
      case Received(n) =>
        SetFlagClosed(plan, st, n);
        SoundGrows(plan, st.finished, m.store.finished, p);
      case _ =>
    }
  }

  /** Every process is sound and the flags are closed. */
  ghost predicate Safe(plan: Plan, s: State) {
    && Shaped(plan, s) && Closed(plan, s.store.finished)
    && forall i :: 0 <= i < |s.procs| ==> Fine(plan, s.store, s.procs[i])
  }

  lemma StepSafe(plan: Plan, s: State, i: nat, late: bool)
    requires ParentsExist(plan) && Safe(plan, s) && i < |s.procs|
    ensures Safe(plan, Step(plan, s, i, late)) && Grows(s.store.finished, Step(plan, s, i, late).store.finished)
  {
    hide Act, Sound, Closed, ProcShaped;
    var t := Step(plan, s, i, late);
    var m := Act(plan, s.store, s.procs[i], late);
    ActSound(plan, s.store, s.procs[i], late);
    forall j | 0 <= j < |t.procs| ensures Fine(plan, t.store, t.procs[j]) {
      if j < |s.procs| && j != i {
        assert t.procs[j] == s.procs[j];
        SoundGrows(plan, s.store.finished, t.store.finished, s.procs[j]);
      } else if j >= |s.procs| {
        assert t.procs[j] in m.forked;
      }
    }
  }

  // ---- No lost wake-up ----

  /** Process `p` will see to node `n`, which is ready and unfinished: a scan to
      come at its site, a scan that has read only set flags of its children,
      a process with the node in hand, or a message with its rows. */
  ghost predicate Covers(plan: Plan, p: Proc, n: nat)
    requires n < |plan| && ProcShaped(plan, p)
  {
    match p
    case Start(site) => plan[n].site == site
    case Scan(site, snap) => plan[n].site == site && forall c: nat :: c < |snap| && plan[c].parent == n ==> snap[c]
    case Work(_, todo) => n in todo
    case Selected(_, todo, _) => n in todo
    case RootStored(_, todo) => n in todo
    case RootFlagged(_, todo) => n in todo[1..]
    case Stored(_, todo) => n in todo
    case Flagged(_, todo) => plan[n].site == plan[plan[todo[0]].parent].site || n in todo[1..]
    case Deleting(_, todo, _) => n in todo[1..]
    case Message(m, _) => m == n
    case Received(m) => m == n
    case Forking(m) => plan[n].site == plan[plan[m].parent].site
    case Idle => false
  }

  ghost predicate Waiting(plan: Plan, st: Store, n: nat)
    requires Fits(plan, st) && n < |plan|
  {
    !st.finished[n] && ChildrenDone(plan, st.finished, n)
  }

  /** Every node that is ready and unfinished is covered by some process. */
  ghost predicate Awake(plan: Plan, s: State)
    requires Shaped(plan, s)
  {
    forall n: nat :: n < |plan| && Waiting(plan, s.store, n) ==>
      exists i :: 0 <= i < |s.procs| && Covers(plan, s.procs[i], n)
  }

  lemma ScanPicks(plan: Plan, st: Store, site: Site, snap: seq<bool>, n: nat)
    requires Fits(plan, st) && |snap| == |plan| && n < |plan| && Waiting(plan, st, n)
    requires Grows(snap, st.finished) && Covers(plan, Scan(site, snap), n)
    ensures n in Picked(plan, snap, site, |plan|)
  {
    hide Picked;
    PickedIs(plan, snap, site, |plan|);
  }

  ghost predicate CoversNext(plan: Plan, m: Move, n: nat)
    requires n < |plan| && ProcShaped(plan, m.next) && forall q <- m.forked :: ProcShaped(plan, q)
  {
    Covers(plan, m.next, n) || exists q <- m.forked :: Covers(plan, q, n)
  }

  /** A node that becomes ready by a step is covered by the process that took
      the step. */
  lemma ReadyIsCovered(plan: Plan, st: Store, p: Proc, n: nat, late: bool)
    requires ParentsExist(plan) && Fine(plan, st, p) && Closed(plan, st.finished) && n < |plan|
    requires var m := Act(plan, st, p, late);
             && Fits(plan, m.store) && Waiting(plan, m.store, n) && !Waiting(plan, st, n)
             && ProcShaped(plan, m.next) && forall q <- m.forked :: ProcShaped(plan, q)
    ensures CoversNext(plan, Act(plan, st, p, late), n)
  {
    hide Picked, SeesInputs;
    var m := Act(plan, st, p, late);
    var c: nat :| c < |plan| && plan[c].parent == n && !st.finished[c];
    assert m.store.finished[c];
  }

  /** A node that is covered and still waits after the step stays covered. */
  lemma StaysCovered(plan: Plan, st: Store, p: Proc, n: nat, late: bool)
    requires ParentsExist(plan) && Fine(plan, st, p) && n < |plan|
    requires var m := Act(plan, st, p, late);
             && Fits(plan, m.store) && Waiting(plan, m.store, n) && Waiting(plan, st, n) && Covers(plan, p, n)
             && ProcShaped(plan, m.next) && forall q <- m.forked :: ProcShaped(plan, q)
    ensures CoversNext(plan, Act(plan, st, p, late), n)
  {
    hide Picked, SeesInputs;
    var m := Act(plan, st, p, late);
    match p {
      case Scan(site, snap) =>
        if |snap| == |plan| {
          ScanPicks(plan, st, site, snap, n);
        }
      case Selected(site, todo, _) =>
        assert todo == [todo[0]] + todo[1..];
        if n == todo[0] && m.forked != [] {
          assert m.forked[0] in m.forked && Covers(plan, m.forked[0], n);
        }
      case Stored(_, todo) =>
        assert todo == [todo[0]] + todo[1..];
      case RootStored(_, todo) =>
        assert todo == [todo[0]] + todo[1..];
      case Flagged(site, todo) =>
        assert m.forked[0] in m.forked;
      case _ =>
    }
  }

  lemma StepAwake(plan: Plan, s: State, i: nat, late: bool)
    requires ParentsExist(plan) && Safe(plan, s) && Awake(plan, s) && i < |s.procs|
    ensures Safe(plan, Step(plan, s, i, late)) && Awake(plan, Step(plan, s, i, late))
  {
    hide Act, Sound, Closed, ProcShaped, Covers, Waiting;
    StepSafe(plan, s, i, late);
    var t := Step(plan, s, i, late);
    var m := Act(plan, s.store, s.procs[i], late);
    ActSound(plan, s.store, s.procs[i], late);
    forall n: nat | n < |plan| && Waiting(plan, t.store, n)
      ensures exists j :: 0 <= j < |t.procs| && Covers(plan, t.procs[j], n)
    {
      if Waiting(plan, s.store, n) && !Covers(plan, s.procs[i], n) {
        var j :| 0 <= j < |s.procs| && Covers(plan, s.procs[j], n);
        assert t.procs[j] == s.procs[j];
      } else {
        if Waiting(plan, s.store, n) {
          StaysCovered(plan, s.store, s.procs[i], n, late);
        } else {
          ReadyIsCovered(plan, s.store, s.procs[i], n, late);
        }
        if Covers(plan, m.next, n) {
          assert t.procs[i] == m.next;
        } else {
          var q :| q in m.forked && Covers(plan, q, n);
          var k :| 0 <= k < |m.forked| && m.forked[k] == q;
          assert t.procs[|s.procs| + k] == q;
        }
      }
    }
  }

  /** The parents form no cycle: some ranking grows from child to parent. */
  ghost predicate Ranked(plan: Plan, rank: seq<nat>) {
    |rank| == |plan| && forall n :: 0 <= n < |plan| && 0 <= plan[n].parent < |plan| ==> rank[n] < rank[plan[n].parent]
  }

  ghost predicate Quiet(s: State) {
    forall i :: 0 <= i < |s.procs| ==> s.procs[i] == Idle
  }

  lemma {:induction false} QuietMeansFinished(plan: Plan, rank: seq<nat>, s: State, n: nat)
    requires ParentsExist(plan) && Ranked(plan, rank) && Safe(plan, s) && Awake(plan, s) && Quiet(s) && n < |plan|
    ensures s.store.finished[n]
    decreases rank[n]
  {
    forall c: nat | c < |plan| && plan[c].parent == n ensures s.store.finished[c] {
      QuietMeansFinished(plan, rank, s, c);
    }
    assert Waiting(plan, s.store, n) <==> !s.store.finished[n];
    assert forall i :: 0 <= i < |s.procs| ==> s.procs[i] == Idle && !Covers(plan, s.procs[i], n);
  }
}
