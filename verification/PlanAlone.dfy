/** A node that is alone on its way up: while it is unfinished, one process at a
    time deals with it and what is below, so that each of these nodes is selected
    at most once, however long senders wait. */
module PlanAlone {
  import opened PlanProtocol
  import opened PlanProofs
  import opened PlanTheorems
  import opened PlanTree
  import opened PlanSolo

  /** Some node in `todo` is at or below `v`. */
  ghost predicate Mentions(plan: Plan, rank: seq<nat>, v: nat, todo: seq<nat>)
    requires ParentsExist(plan) && Ranked(plan, rank)
  {
    exists k :: 0 <= k < |todo| && todo[k] < |plan| && Above(plan, rank, v, todo[k])
  }

  /** The process may still select a node at or below `v`, or has the rows of `v`
      on their way. */
  ghost predicate Active(plan: Plan, rank: seq<nat>, v: nat, p: Proc)
    requires ParentsExist(plan) && Ranked(plan, rank) && v < |plan|
  {
    match p
    case Start(at) => at == plan[v].site
    case Scan(at, _) => at == plan[v].site
    case Work(_, todo) => Mentions(plan, rank, v, todo)
    case Selected(_, todo, _) => Mentions(plan, rank, v, todo)
    case RootStored(_, todo) => Mentions(plan, rank, v, todo)
    case RootFlagged(_, todo) => Mentions(plan, rank, v, todo)
    case Stored(_, todo) => Mentions(plan, rank, v, todo)
    case Flagged(_, todo) => Mentions(plan, rank, v, todo)
    case Deleting(_, todo, _) => todo != [] && Mentions(plan, rank, v, todo[1..])
    case Message(n, _) => n == v
    case Received(n) => n == v
    case _ => false
  }

  /** At or below `v` no unfinished node other than `n` was ever selected. */
  ghost predicate Clean(plan: Plan, rank: seq<nat>, v: nat, st: Store, n: int)
    requires ParentsExist(plan) && Ranked(plan, rank) && Fits(plan, st)
  {
    forall m: nat :: m < |plan| && Above(plan, rank, v, m) && !st.finished[m] && m != n ==> st.selects[m] == 0
  }

  /** At most one node in `todo` is at or below `v`, and that is unfinished. */
  ghost predicate OneOf(plan: Plan, rank: seq<nat>, v: nat, st: Store, todo: seq<nat>)
    requires ParentsExist(plan) && Ranked(plan, rank) && Fits(plan, st) && AllBelow(todo, |plan|)
  {
    && (forall j, k :: 0 <= j < |todo| && 0 <= k < |todo| && j != k && Above(plan, rank, v, todo[j]) ==>
          !Above(plan, rank, v, todo[k]))
    && (forall k :: 0 <= k < |todo| && Above(plan, rank, v, todo[k]) ==> !st.finished[todo[k]])
  }

  ghost predicate Pending(plan: Plan, rank: seq<nat>, v: nat, st: Store, todo: seq<nat>)
    requires ParentsExist(plan) && Ranked(plan, rank) && Fits(plan, st)
  {
    Mentions(plan, rank, v, todo) ==>
      Clean(plan, rank, v, st, -1) && AllBelow(todo, |plan|) && OneOf(plan, rank, v, st, todo)
  }

  /** The first node in `todo` is in hand; `stored` says that its flag is set. */
  ghost predicate InHand(plan: Plan, rank: seq<nat>, v: nat, st: Store, todo: seq<nat>, stored: bool)
    requires ParentsExist(plan) && Ranked(plan, rank) && Fits(plan, st)
  {
    && todo != [] && todo[0] < |plan|
    && if Above(plan, rank, v, todo[0]) then
         && (!stored ==> !st.finished[todo[0]]) && Clean(plan, rank, v, st, if stored then -1 else todo[0])
         && !Mentions(plan, rank, v, todo[1..])
       else Pending(plan, rank, v, st, todo[1..])
  }

  /** How far the active process can have come while `v` is unfinished, and what
      else there may be. */
  ghost predicate Tame(plan: Plan, rank: seq<nat>, v: nat, st: Store, p: Proc)
    requires ParentsExist(plan) && Ranked(plan, rank) && v < |plan| && Fits(plan, st)
  {
    match p
    case Start(at) => at == plan[v].site ==> Clean(plan, rank, v, st, -1)
    case Scan(at, snap) => at == plan[v].site ==>
      Clean(plan, rank, v, st, -1) && |snap| <= |plan| && Read(plan, rank, v, st.finished, snap)
    case Work(_, todo) => Pending(plan, rank, v, st, todo)
    case Selected(_, todo, _) => InHand(plan, rank, v, st, todo, false)
    case RootStored(_, todo) => InHand(plan, rank, v, st, todo, false)
    case RootFlagged(_, todo) => InHand(plan, rank, v, st, todo, true)
    case Stored(_, todo) => InHand(plan, rank, v, st, todo, false)
    case Flagged(_, todo) => InHand(plan, rank, v, st, todo, true)
    case Deleting(_, todo, _) => todo != [] && Pending(plan, rank, v, st, todo[1..])
    case Message(n, _) => n < |plan| && (Above(plan, rank, v, n) ==> n == v)
    case Received(n) => n < |plan| && (Above(plan, rank, v, n) ==> n == v)
    case Forking(n) => n < |plan| && (Above(plan, rank, v, n) ==> n == v)
    case Idle => true
  }

  /** The flags read so far of nodes at or below `v` are still as they were. */
  ghost predicate Read(plan: Plan, rank: seq<nat>, v: nat, finished: seq<bool>, snap: seq<bool>)
    requires ParentsExist(plan) && Ranked(plan, rank) && |snap| <= |plan| == |finished|
  {
    forall n: nat :: n < |snap| && Above(plan, rank, v, n) ==> snap[n] == finished[n]
  }

  /** Once `v` is finished, no process will select it or anything below. */
  ghost predicate Past(plan: Plan, rank: seq<nat>, v: nat, p: Proc)
    requires ParentsExist(plan) && Ranked(plan, rank) && v < |plan|
  {
    match p
    case Scan(at, snap) => at == plan[v].site ==>
      forall n: nat :: n < |snap| && n < |plan| && Above(plan, rank, v, n) ==> snap[n]
    case Work(_, todo) => !Mentions(plan, rank, v, todo)
    case Selected(_, todo, _) => !Mentions(plan, rank, v, todo)
    case RootStored(_, todo) => !Mentions(plan, rank, v, todo)
    case Stored(_, todo) => !Mentions(plan, rank, v, todo)
    case RootFlagged(_, todo) => todo != [] && !Mentions(plan, rank, v, todo[1..])
    case Flagged(_, todo) => todo != [] && !Mentions(plan, rank, v, todo[1..])
    case Deleting(_, todo, _) => todo != [] && !Mentions(plan, rank, v, todo[1..])
    case _ => true
  }

  ghost predicate OnceBelow(plan: Plan, rank: seq<nat>, v: nat, st: Store)
    requires ParentsExist(plan) && Ranked(plan, rank) && Fits(plan, st)
  {
    forall m: nat :: m < |plan| && Above(plan, rank, v, m) ==> st.selects[m] <= 1
  }

  ghost predicate Alone(plan: Plan, rank: seq<nat>, v: nat, s: State)
    requires ParentsExist(plan) && Ranked(plan, rank) && v < |plan| && Shaped(plan, s)
  {
    && OnceBelow(plan, rank, v, s.store)
    && if s.store.finished[v] then forall i :: 0 <= i < |s.procs| ==> Past(plan, rank, v, s.procs[i])
       else
         && (forall i :: 0 <= i < |s.procs| ==> Tame(plan, rank, v, s.store, s.procs[i]))
         && (forall i, j :: 0 <= i < |s.procs| && 0 <= j < |s.procs| && i != j && Active(plan, rank, v, s.procs[i]) ==>
               !Active(plan, rank, v, s.procs[j]))
  }

  // ---- Lists of nodes ----

  lemma MentionsSplit(plan: Plan, rank: seq<nat>, v: nat, todo: seq<nat>)
    requires ParentsExist(plan) && Ranked(plan, rank) && todo != [] && todo[0] < |plan|
    ensures Mentions(plan, rank, v, todo) <==> Above(plan, rank, v, todo[0]) || Mentions(plan, rank, v, todo[1..])
  {
    hide Above;
    if Mentions(plan, rank, v, todo) && !Above(plan, rank, v, todo[0]) {
      var k :| 0 <= k < |todo| && todo[k] < |plan| && Above(plan, rank, v, todo[k]);
      assert todo[1..][k - 1] == todo[k];
    }
    if Mentions(plan, rank, v, todo[1..]) {
      var k :| 0 <= k < |todo[1..]| && todo[1..][k] < |plan| && Above(plan, rank, v, todo[1..][k]);
      assert todo[k + 1] == todo[1..][k];
    }
  }

  /** The first node of a pending list is taken in hand. */
  lemma TakeInHand(plan: Plan, rank: seq<nat>, v: nat, st: Store, todo: seq<nat>)
    requires ParentsExist(plan) && Ranked(plan, rank) && Fits(plan, st) && todo != [] && todo[0] < |plan|
    requires Pending(plan, rank, v, st, todo)
    ensures var b := st.(selects := Add(st.selects, todo[0]));
            Fits(plan, b) && InHand(plan, rank, v, b, todo, false)
    ensures Above(plan, rank, v, todo[0]) ==> st.selects[todo[0]] == 0
  {
    hide Above;
    MentionsSplit(plan, rank, v, todo);
    if Mentions(plan, rank, v, todo[1..]) {
      assert forall k :: 0 <= k < |todo[1..]| ==> todo[1..][k] == todo[k + 1];
    }
  }

  /** Where a node has rows on their way elsewhere, it is `v` or not below it. */
  lemma LeavesAtTop(plan: Plan, rank: seq<nat>, v: nat, n: nat)
    requires ParentsExist(plan) && Ranked(plan, rank) && v < |plan| && OneSite(plan, rank, v)
    requires Remote(plan, n) && Above(plan, rank, v, n)
    ensures n == v
  {
  }

  /** While `v` is unfinished, only what is below it leaves scans at its site. */
  lemma ForkElsewhere(plan: Plan, rank: seq<nat>, v: nat, finished: seq<bool>, n: nat)
    requires ParentsExist(plan) && Ranked(plan, rank) && v < |plan| && Lone(plan, rank, v)
    requires |finished| == |plan| && Closed(plan, finished) && !finished[v]
    requires Inner(plan, n) && ChildrenDone(plan, finished, n) && !Above(plan, rank, v, n)
    ensures plan[plan[n].parent].site != plan[v].site
  {
    hide OnePath, OneSite, ChildrenDone, Closed;
    if plan[plan[n].parent].site == plan[v].site {
      assert !Stray(plan, rank, v, n);
      NotBoth(plan, rank, finished, n, v);
    }
  }

  // ---- What a scan picks ----

  lemma PickedElsewhere(plan: Plan, rank: seq<nat>, v: nat, snap: seq<bool>, site: Site)
    requires ParentsExist(plan) && Ranked(plan, rank) && v < |plan| && OneSite(plan, rank, v) && |snap| == |plan|
    requires site == plan[v].site ==> forall n: nat :: n < |plan| && Above(plan, rank, v, n) ==> snap[n]
    ensures !Mentions(plan, rank, v, Picked(plan, snap, site, |plan|))
  {
    hide Picked, Above, ChildrenDone;
    var todo := Picked(plan, snap, site, |plan|);
    PickedIs(plan, snap, site, |plan|);
    forall k | 0 <= k < |todo| && todo[k] < |plan|
      ensures !Above(plan, rank, v, todo[k])
    {
      assert todo[k] in todo;
    }
  }

  lemma ReadyAsRead(plan: Plan, rank: seq<nat>, v: nat, st: Store, snap: seq<bool>, n: nat)
    requires ParentsExist(plan) && Ranked(plan, rank) && Fits(plan, st) && |snap| == |plan|
    requires Read(plan, rank, v, st.finished, snap) && n < |plan| && Above(plan, rank, v, n)
    requires !snap[n] && ChildrenDone(plan, snap, n)
    ensures Waiting(plan, st, n)
  {
    hide Above;
    forall c: nat | c < |plan| && plan[c].parent == n
      ensures st.finished[c]
    {
      ChildBelow(plan, rank, v, c);
    }
  }

  lemma PickedPending(plan: Plan, rank: seq<nat>, v: nat, st: Store, snap: seq<bool>, site: Site)
    requires ParentsExist(plan) && Ranked(plan, rank) && v < |plan| && OnePath(plan, rank, v)
    requires Fits(plan, st) && Closed(plan, st.finished) && |snap| == |plan|
    requires Read(plan, rank, v, st.finished, snap) && Clean(plan, rank, v, st, -1)
    ensures Pending(plan, rank, v, st, Picked(plan, snap, site, |plan|))
  {
    hide Picked, Above, ChildrenDone, Read, OnePath, Clean, Closed, Waiting;
    var todo := Picked(plan, snap, site, |plan|);
    PickedIs(plan, snap, site, |plan|);
    PickedRises(plan, snap, site, |plan|);
    forall k | 0 <= k < |todo| && Above(plan, rank, v, todo[k])
      ensures Waiting(plan, st, todo[k])
    {
      assert todo[k] in todo;
      ReadyAsRead(plan, rank, v, st, snap, todo[k]);
    }
    forall j, k | 0 <= j < |todo| && 0 <= k < |todo| && Above(plan, rank, v, todo[j]) && Above(plan, rank, v, todo[k])
      ensures j == k
    {
      OneReady(plan, rank, v, st, todo[j], todo[k]);
    }
    forall k | 0 <= k < |todo| && Above(plan, rank, v, todo[k])
      ensures !st.finished[todo[k]]
    {
      WaitingIsUnfinished(plan, st, todo[k]);
    }
  }

  lemma WaitingIsUnfinished(plan: Plan, st: Store, n: nat)
    requires Fits(plan, st) && n < |plan| && Waiting(plan, st, n)
    ensures !st.finished[n]
  {
  }

  // ---- One step ----

  /** Nothing at or below `v` was selected or finished. */
  ghost predicate SameBelow(plan: Plan, rank: seq<nat>, v: nat, a: Store, b: Store)
    requires ParentsExist(plan) && Ranked(plan, rank) && Fits(plan, a) && Fits(plan, b)
  {
    forall m: nat :: m < |plan| && Above(plan, rank, v, m) ==>
      b.finished[m] == a.finished[m] && b.selects[m] == a.selects[m]
  }

  lemma PendingStays(plan: Plan, rank: seq<nat>, v: nat, a: Store, b: Store, todo: seq<nat>)
    requires ParentsExist(plan) && Ranked(plan, rank) && Fits(plan, a) && Fits(plan, b)
    requires Pending(plan, rank, v, a, todo) && SameBelow(plan, rank, v, a, b)
    ensures Pending(plan, rank, v, b, todo)
  {
    hide Above;
  }

  /** The node in hand is at or below `v`: its flag is set. */
  lemma FlagInHand(plan: Plan, rank: seq<nat>, v: nat, st: Store, todo: seq<nat>)
    requires ParentsExist(plan) && Ranked(plan, rank) && v < |plan| && Fits(plan, st)
    requires InHand(plan, rank, v, st, todo, false)
    ensures var b := SetFlag(st, todo[0]); Fits(plan, b) && InHand(plan, rank, v, b, todo, true)
  {
    hide Above, Mentions, Pending;
    if !Above(plan, rank, v, todo[0]) {
      PendingStays(plan, rank, v, st, SetFlag(st, todo[0]), todo[1..]);
    }
  }

  lemma InHandStays(plan: Plan, rank: seq<nat>, v: nat, a: Store, b: Store, todo: seq<nat>, stored: bool)
    requires ParentsExist(plan) && Ranked(plan, rank) && v < |plan| && Fits(plan, a) && Fits(plan, b)
    requires InHand(plan, rank, v, a, todo, stored)
    requires SameBelow(plan, rank, v, a, b)
    ensures InHand(plan, rank, v, b, todo, stored)
  {
    hide Above, Mentions, Pending;
    if !Above(plan, rank, v, todo[0]) {
      PendingStays(plan, rank, v, a, b, todo[1..]);
    }
  }

  lemma TailStays(plan: Plan, rank: seq<nat>, v: nat, a: Store, b: Store, todo: seq<nat>, stored: bool)
    requires ParentsExist(plan) && Ranked(plan, rank) && v < |plan| && Fits(plan, a) && Fits(plan, b)
    requires InHand(plan, rank, v, a, todo, stored) && SameBelow(plan, rank, v, a, b)
    ensures Pending(plan, rank, v, b, todo[1..])
  {
    hide Above;
  }

  ghost predicate Unsettled(plan: Plan, rank: seq<nat>, v: nat, st: Store)
    requires ParentsExist(plan) && Ranked(plan, rank) && v < |plan|
  {
    Lone(plan, rank, v) && Fits(plan, st) && Closed(plan, st.finished) && !st.finished[v]
  }

  /** What a step leaves while `v` is unfinished or when it finishes it. */
  ghost predicate Leaves(plan: Plan, rank: seq<nat>, v: nat, m: Move)
    requires ParentsExist(plan) && Ranked(plan, rank) && v < |plan|
  {
    && Fits(plan, m.store) && |m.forked| <= 1
    && if m.store.finished[v] then
         Past(plan, rank, v, m.next) && forall q <- m.forked :: Past(plan, rank, v, q)
       else
         && Tame(plan, rank, v, m.store, m.next)
         && forall q <- m.forked :: Tame(plan, rank, v, m.store, q)
                                    && !(Active(plan, rank, v, q) && Active(plan, rank, v, m.next))
  }

  lemma ScanActs(plan: Plan, rank: seq<nat>, v: nat, st: Store, p: Proc, late: bool)
    requires ParentsExist(plan) && Ranked(plan, rank) && v < |plan| && Unsettled(plan, rank, v, st)
    requires Fine(plan, st, p) && (p.Start? || p.Scan?) && Tame(plan, rank, v, st, p) && Active(plan, rank, v, p)
    ensures var m := Act(plan, st, p, late); m.store == st && m.forked == [] && Tame(plan, rank, v, st, m.next)
  {
    hide Picked, Above, OnePath, Clean, Sound, Pending, Mentions, Closed, OneSite;
    if p.Scan? && |p.snap| == |plan| {
      PickedPending(plan, rank, v, st, p.snap, p.site);
    }
  }

  /** The process has nothing to do with what is at or below `v`. */
  ghost predicate Away(plan: Plan, rank: seq<nat>, v: nat, p: Proc)
    requires ParentsExist(plan) && Ranked(plan, rank) && v < |plan| && ProcShaped(plan, p)
  {
    && !Active(plan, rank, v, p)
    && match p
       case Message(n, _) => !Above(plan, rank, v, n)
       case Received(n) => !Above(plan, rank, v, n)
       case Forking(n) => n == v || !Above(plan, rank, v, n)
       case _ => true
  }

  lemma TameOrAway(plan: Plan, rank: seq<nat>, v: nat, st: Store, p: Proc)
    requires ParentsExist(plan) && Ranked(plan, rank) && v < |plan| && Fits(plan, st) && ProcShaped(plan, p)
    ensures Away(plan, rank, v, p) <==> Tame(plan, rank, v, st, p) && !Active(plan, rank, v, p)
    ensures Away(plan, rank, v, p) ==> Past(plan, rank, v, p)
  {
    hide Above, Mentions, Clean, OneOf;
    if p.Selected? || p.RootStored? || p.RootFlagged? || p.Stored? || p.Flagged? {
      MentionsSplit(plan, rank, v, p.todo);
    }
  }

  lemma AwayForks(plan: Plan, rank: seq<nat>, v: nat, st: Store, p: Proc)
    requires ParentsExist(plan) && Ranked(plan, rank) && v < |plan| && Unsettled(plan, rank, v, st)
    requires Fine(plan, st, p) && Away(plan, rank, v, p)
    ensures p.Flagged? ==> plan[plan[p.todo[0]].parent].site != plan[v].site
    ensures p.Forking? ==> plan[plan[p.node].parent].site != plan[v].site
  {
    hide Above, Mentions, Closed, ChildrenDone, Lone;
    if p.Flagged? {
      MentionsSplit(plan, rank, v, p.todo);
      ForkElsewhere(plan, rank, v, st.finished, p.todo[0]);
    } else if p.Forking? {
      ForkElsewhere(plan, rank, v, st.finished, p.node);
    }
  }

  lemma AwayKeeps(plan: Plan, rank: seq<nat>, v: nat, st: Store, p: Proc, late: bool)
    requires ParentsExist(plan) && Ranked(plan, rank) && v < |plan|
    requires Fine(plan, st, p) && Away(plan, rank, v, p)
    ensures var m := Act(plan, st, p, late); Fits(plan, m.store) && SameBelow(plan, rank, v, st, m.store)
  {
    hide Picked, Above, Mentions, SeesInputs, Sound;
    if (p.Work? && p.todo != []) || p.RootStored? || p.Stored? {
      MentionsSplit(plan, rank, v, p.todo);
    }
  }

  /** Such a process goes on. */
  lemma AwayActs(plan: Plan, rank: seq<nat>, v: nat, st: Store, p: Proc, late: bool)
    requires ParentsExist(plan) && Ranked(plan, rank) && v < |plan| && Unsettled(plan, rank, v, st)
    requires Fine(plan, st, p) && Away(plan, rank, v, p)
    ensures var m := Act(plan, st, p, late);
            && (ProcShaped(plan, m.next) ==> Away(plan, rank, v, m.next))
            && forall q <- m.forked :: ProcShaped(plan, q) ==> Away(plan, rank, v, q)
  {
    hide Picked, Above, Mentions, SeesInputs, Closed, OnePath, OneSite, Sound;
    Itself(plan, rank, v);
    AwayForks(plan, rank, v, st, p);
    match p {
      case Scan(at, snap) =>
        if |snap| == |plan| {
          PickedElsewhere(plan, rank, v, snap, at);
        }
      case Work(_, todo) =>
        if todo != [] {
          MentionsSplit(plan, rank, v, todo);
        }
      case Selected(_, todo, _) => MentionsSplit(plan, rank, v, todo);
      case RootStored(_, todo) => MentionsSplit(plan, rank, v, todo);
      case RootFlagged(_, todo) => MentionsSplit(plan, rank, v, todo);
      case Stored(_, todo) => MentionsSplit(plan, rank, v, todo);
      case Flagged(_, todo) => MentionsSplit(plan, rank, v, todo);
      case _ =>
    }
  }

  /** The active process goes on. */
  lemma ActiveActs(plan: Plan, rank: seq<nat>, v: nat, st: Store, p: Proc, late: bool)
    requires ParentsExist(plan) && Ranked(plan, rank) && v < |plan| && Unsettled(plan, rank, v, st)
    requires Fine(plan, st, p) && Tame(plan, rank, v, st, p) && Active(plan, rank, v, p) && OnceBelow(plan, rank, v, st)
    ensures var m := Act(plan, st, p, late); Leaves(plan, rank, v, m) && OnceBelow(plan, rank, v, m.store)
  {
    hide Picked, Above, Mentions, SeesInputs, Closed, ChildrenDone, Lone, Clean, OneOf;
    Itself(plan, rank, v);
    var m := Act(plan, st, p, late);
    match p {
      case Start(_) => ScanActs(plan, rank, v, st, p, late);
      case Scan(_, _) => ScanActs(plan, rank, v, st, p, late);
      case Work(_, todo) =>
        if todo != [] {
          TakeInHand(plan, rank, v, st, todo);
        }
      case Selected(_, todo, _) => SelectedActs(plan, rank, v, st, p, late);
      case RootStored(_, todo) => FlagInHand(plan, rank, v, st, todo);
      case Stored(_, todo) => FlagInHand(plan, rank, v, st, todo);
      case RootFlagged(_, todo) => TailStays(plan, rank, v, st, m.store, todo, true);
      case Flagged(_, todo) =>
        TailStays(plan, rank, v, st, m.store, todo, true);
        if !Above(plan, rank, v, todo[0]) {
          ForkElsewhere(plan, rank, v, st.finished, todo[0]);
        }
      case Deleting(_, todo, _) => PendingStays(plan, rank, v, st, m.store, todo[1..]);
      case _ =>
    }
  }

  lemma SelectedActs(plan: Plan, rank: seq<nat>, v: nat, st: Store, p: Proc, late: bool)
    requires ParentsExist(plan) && Ranked(plan, rank) && v < |plan| && Unsettled(plan, rank, v, st)
    requires Fine(plan, st, p) && p.Selected? && Tame(plan, rank, v, st, p)
    ensures var m := Act(plan, st, p, late);
            Leaves(plan, rank, v, m) && m.store.selects == st.selects && m.store.finished == st.finished
  {
    hide Picked, Above, Mentions, SeesInputs, Closed, ChildrenDone, OneOf, Sound, Pending;
    var m := Act(plan, st, p, late);
    var n := p.todo[0];
    InHandStays(plan, rank, v, st, m.store, p.todo, false);
    TailStays(plan, rank, v, st, m.store, p.todo, false);
    Itself(plan, rank, v);
    if Remote(plan, n) && Above(plan, rank, v, n) {
      LeavesAtTop(plan, rank, v, n);
    }
  }

  /** When `v` is finished, nothing below it is selected again. */
  lemma PastActs(plan: Plan, rank: seq<nat>, v: nat, st: Store, p: Proc, late: bool)
    requires ParentsExist(plan) && Ranked(plan, rank) && v < |plan| && OneSite(plan, rank, v)
    requires Fine(plan, st, p) && Past(plan, rank, v, p)
    requires forall n: nat :: n < |plan| && Above(plan, rank, v, n) ==> st.finished[n]
    ensures var m := Act(plan, st, p, late);
            && Fits(plan, m.store) && Past(plan, rank, v, m.next) && (forall q <- m.forked :: Past(plan, rank, v, q))
            && forall n: nat :: n < |plan| && Above(plan, rank, v, n) ==> m.store.selects[n] == st.selects[n]
  {
    hide Picked, Above, Mentions, SeesInputs, OneSite, Sound;
    match p {
      case Scan(at, snap) =>
        if |snap| == |plan| {
          PickedElsewhere(plan, rank, v, snap, at);
        }
      case Work(_, todo) =>
        if todo != [] {
          MentionsSplit(plan, rank, v, todo);
        }
      case Selected(_, todo, _) => MentionsSplit(plan, rank, v, todo);
      case RootStored(_, todo) => MentionsSplit(plan, rank, v, todo);
      case Stored(_, todo) => MentionsSplit(plan, rank, v, todo);
      case _ =>
    }
  }

  // ---- Whole runs ----

  lemma TameStays(plan: Plan, rank: seq<nat>, v: nat, a: Store, b: Store, p: Proc)
    requires ParentsExist(plan) && Ranked(plan, rank) && v < |plan| && Fits(plan, a) && Fits(plan, b)
    requires ProcShaped(plan, p) && Tame(plan, rank, v, a, p)
    requires !Active(plan, rank, v, p) || SameBelow(plan, rank, v, a, b)
    ensures Tame(plan, rank, v, b, p)
  {
    hide Above, Mentions, Pending, InHand;
    TameOrAway(plan, rank, v, a, p);
    TameOrAway(plan, rank, v, b, p);
    if SameBelow(plan, rank, v, a, b) {
      match p {
        case Work(_, todo) => PendingStays(plan, rank, v, a, b, todo);
        case Deleting(_, todo, _) => PendingStays(plan, rank, v, a, b, todo[1..]);
        case Selected(_, todo, _) => InHandStays(plan, rank, v, a, b, todo, false);
        case RootStored(_, todo) => InHandStays(plan, rank, v, a, b, todo, false);
        case Stored(_, todo) => InHandStays(plan, rank, v, a, b, todo, false);
        case RootFlagged(_, todo) => InHandStays(plan, rank, v, a, b, todo, true);
        case Flagged(_, todo) => InHandStays(plan, rank, v, a, b, todo, true);
        case _ =>
      }
    }
  }

  /** A process away from `v` takes a step. */
  lemma AwayStep(plan: Plan, rank: seq<nat>, v: nat, s: State, i: nat, late: bool)
    requires ParentsExist(plan) && Ranked(plan, rank) && v < |plan| && Lone(plan, rank, v) && Safe(plan, s)
    requires Alone(plan, rank, v, s) && !s.store.finished[v] && i < |s.procs| && !Active(plan, rank, v, s.procs[i])
    requires Safe(plan, Step(plan, s, i, late))
    ensures Alone(plan, rank, v, Step(plan, s, i, late))
  {
    hide Act, Sound, Closed, ProcShaped, Tame, Active, Above, Lone, Away, Past;
    var t := Step(plan, s, i, late);
    var p := s.procs[i];
    var m := Act(plan, s.store, p, late);
    assert Fine(plan, s.store, p);
    TameOrAway(plan, rank, v, s.store, p);
    AwayKeeps(plan, rank, v, s.store, p, late);
    AwayActs(plan, rank, v, s.store, p, late);
    Itself(plan, rank, v);
    forall j | 0 <= j < |t.procs|
      ensures Tame(plan, rank, v, t.store, t.procs[j])
      ensures j >= |s.procs| || j == i ==> !Active(plan, rank, v, t.procs[j])
    {
      assert Fine(plan, t.store, t.procs[j]);
      if j < |s.procs| && j != i {
        assert t.procs[j] == s.procs[j];
        TameStays(plan, rank, v, s.store, t.store, s.procs[j]);
      } else {
        if j >= |s.procs| {
          assert t.procs[j] in m.forked;
        }
        TameOrAway(plan, rank, v, t.store, t.procs[j]);
      }
    }
  }

  /** The active process takes a step. */
  lemma ActiveStep(plan: Plan, rank: seq<nat>, v: nat, s: State, i: nat, late: bool)
    requires ParentsExist(plan) && Ranked(plan, rank) && v < |plan| && Lone(plan, rank, v) && Safe(plan, s)
    requires Alone(plan, rank, v, s) && !s.store.finished[v] && i < |s.procs| && Active(plan, rank, v, s.procs[i])
    requires Safe(plan, Step(plan, s, i, late))
    ensures Alone(plan, rank, v, Step(plan, s, i, late))
  {
    hide Act, Sound, Closed, ProcShaped, Tame, Active, Above, Lone, Away, Past, OnceBelow;
    var t := Step(plan, s, i, late);
    var p := s.procs[i];
    var m := Act(plan, s.store, p, late);
    assert Fine(plan, s.store, p);
    ActiveActs(plan, rank, v, s.store, p, late);
    forall j | 0 <= j < |t.procs|
      ensures if t.store.finished[v] then Past(plan, rank, v, t.procs[j]) else Tame(plan, rank, v, t.store, t.procs[j])
    {
      if j < |s.procs| && j != i {
        assert t.procs[j] == s.procs[j];
        assert Fine(plan, s.store, s.procs[j]);
        TameOrAway(plan, rank, v, s.store, s.procs[j]);
        TameStays(plan, rank, v, s.store, t.store, s.procs[j]);
      } else if j >= |s.procs| {
        assert t.procs[j] in m.forked;
      }
    }
  }

  lemma PastStep(plan: Plan, rank: seq<nat>, v: nat, s: State, i: nat, late: bool)
    requires ParentsExist(plan) && Ranked(plan, rank) && v < |plan| && Lone(plan, rank, v) && Safe(plan, s)
    requires Alone(plan, rank, v, s) && s.store.finished[v] && i < |s.procs|
    requires Safe(plan, Step(plan, s, i, late))
    ensures Alone(plan, rank, v, Step(plan, s, i, late))
  {
    hide Act, Sound, ProcShaped, Tame, Active, Above, OneSite, OnePath, Past;
    var t := Step(plan, s, i, late);
    var p := s.procs[i];
    var m := Act(plan, s.store, p, late);
    assert Fine(plan, s.store, p);
    forall n: nat | n < |plan| && Above(plan, rank, v, n)
      ensures s.store.finished[n]
    {
      FinishedBelow(plan, rank, s.store.finished, v, n);
    }
    PastActs(plan, rank, v, s.store, p, late);
    StepSafe(plan, s, i, late);
    forall j | 0 <= j < |t.procs|
      ensures Past(plan, rank, v, t.procs[j])
    {
      if j < |s.procs| && j != i {
        assert t.procs[j] == s.procs[j];
      } else if j >= |s.procs| {
        assert t.procs[j] in m.forked;
      }
    }
  }

  ghost predicate Distinct(sites: seq<Site>) {
    forall i, j :: 0 <= i < j < |sites| ==> sites[i] != sites[j]
  }

  lemma BeginAlone(plan: Plan, rank: seq<nat>, sites: seq<Site>, v: nat)
    requires ParentsExist(plan) && Ranked(plan, rank) && v < |plan| && Distinct(sites)
    ensures var s := Begin(plan, sites); Shaped(plan, s) && Alone(plan, rank, v, s)
  {
    hide Above;
  }

  /** Under every schedule. */
  lemma {:induction false} RunAlone(plan: Plan, rank: seq<nat>, root: nat, sites: seq<Site>, schedule: seq<Turn>, v: nat)
    requires Executable(plan, rank, root, sites) && Distinct(sites) && v < |plan| && Lone(plan, rank, v)
    ensures var t := Run(plan, Started(plan, sites), schedule); Shaped(plan, t) && Alone(plan, rank, v, t)
  {
    hide Act, Step, Alone, Lone, Active, Above;
    var s := Started(plan, sites);
    SafeIsShaped(plan, Run(plan, s, schedule));
    if schedule == [] {
      BeginAlone(plan, rank, sites, v);
    } else {
      var n := |schedule| - 1;
      var before := Run(plan, s, schedule[..n]);
      var turn := schedule[n];
      RunAlone(plan, rank, root, sites, schedule[..n], v);
      if turn.i < |before.procs| {
        if before.store.finished[v] {
          PastStep(plan, rank, v, before, turn.i, turn.late);
        } else if Active(plan, rank, v, before.procs[turn.i]) {
          ActiveStep(plan, rank, v, before, turn.i, turn.late);
        } else {
          AwayStep(plan, rank, v, before, turn.i, turn.late);
        }
      }
    }
  }

  /** A process about to select `v` or something below selects it for the first
      time. */
  lemma FirstOnly(plan: Plan, rank: seq<nat>, v: nat, s: State, i: nat)
    requires ParentsExist(plan) && Ranked(plan, rank) && v < |plan| && Shaped(plan, s) && Alone(plan, rank, v, s)
    requires i < |s.procs| && s.procs[i].Work? && s.procs[i].todo != []
    requires s.procs[i].todo[0] < |plan| && Above(plan, rank, v, s.procs[i].todo[0])
    ensures s.store.selects[s.procs[i].todo[0]] == 0
  {
    hide Above, Mentions, Active;
    var todo := s.procs[i].todo;
    MentionsSplit(plan, rank, v, todo);
    assert Tame(plan, rank, v, s.store, s.procs[i]);
  }
}
