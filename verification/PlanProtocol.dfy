/** Distributed execution of one query plan, as in db.cpp. The sites share
    finished flags in a key-value store; a scan reads them one at a time, picks
    the ready nodes of its own site, and for each one selects its rows, has them
    stored at the parent's site, sets its flag there and starts another scan. */
module PlanProtocol {

  type Site = nat

  /** AugPlanNode: parent -1 marks the root. */
  datatype Node = Node(parent: int, site: Site)

  type Plan = seq<Node>

  /** All children of `n` are finished according to `flags`. */
  ghost predicate ChildrenDone(plan: Plan, flags: seq<bool>, n: nat)
    requires |flags| == |plan|
  {
    forall c: nat :: c < |plan| && plan[c].parent == n ==> flags[c]
  }

  /** What plan_scan picks for `site` from a snapshot of the flags: in order,
      the nodes below `k` that are unfinished, ready and belong to the site. */
  ghost function Picked(plan: Plan, flags: seq<bool>, site: Site, k: nat): seq<nat>
    requires |flags| == |plan| && k <= |plan|
  {
    if k == 0 then []
    else
      var before := Picked(plan, flags, site, k - 1);
      if !flags[k - 1] && ChildrenDone(plan, flags, k - 1) && plan[k - 1].site == site then before + [k - 1]
      else before
  }

  /** plan_scan's two nested loops: a node is taken when as many of its children
      are finished as it has, which is when all of them are. */
  method PlanScan(plan: Plan, flags: seq<bool>, site: Site) returns (toExecute: seq<nat>)
    requires |flags| == |plan|
    ensures toExecute == Picked(plan, flags, site, |plan|)
  {
    toExecute := [];
    for i := 0 to |plan|
      invariant toExecute == Picked(plan, flags, site, i)
    {
      if !flags[i] {
        var children, done := 0, 0;
        for j := 0 to |plan|
          invariant 0 <= done <= children
          invariant done == children <==> forall c: nat :: c < j && plan[c].parent == i ==> flags[c]
        {
          if plan[j].parent == i {
            children := children + 1;
            if flags[j] {
              done := done + 1;
            }
          }
        }
        if children == done && plan[i].site == site {
          toExecute := toExecute + [i];
        }
      }
    }
  }

  lemma {:induction false} PickedIs(plan: Plan, flags: seq<bool>, site: Site, k: nat)
    requires |flags| == |plan| && k <= |plan|
    ensures forall m: nat :: m in Picked(plan, flags, site, k) <==>
              m < k && !flags[m] && ChildrenDone(plan, flags, m) && plan[m].site == site
  {
    hide ChildrenDone;
    if k > 0 {
      PickedIs(plan, flags, site, k - 1);
    }
  }

  // ---- The processes ----

  /** A process of some site, at the point it has reached. `todo` holds the
      nodes picked and not yet dealt with, the first being in hand. */
  datatype Proc =
    | Start(site: Site)                       // a start message, or a scan just forked
    | Scan(site: Site, snap: seq<bool>)       // flags read so far
    | Work(site: Site, todo: seq<nat>)        // about to select the rows of todo[0]
    | Selected(site: Site, todo: seq<nat>, good: bool) // about to pass them on
    | RootStored(site: Site, todo: seq<nat>)  // root: result written, about to set the flag
    | RootFlagged(site: Site, todo: seq<nat>) // root: about to set the done flag
    | Stored(site: Site, todo: seq<nat>)      // stored at the parent's site, about to set the flag
    | Flagged(site: Site, todo: seq<nat>)     // about to fork a scan
    | Deleting(site: Site, todo: seq<nat>, next: nat) // dropping the tables of the children
    | Message(node: nat, good: bool)          // a push that was given up, still on its way
    | Received(node: nat)                     // rows stored there, about to set the flag
    | Forking(node: nat)                      // flag set there, about to fork a scan
    | Idle

  datatype Result = NoResult | Result(good: bool)

  /** Rows are good when the select that gave them found good rows of every
      child. `sound[c]`: the table of node c holds good rows; `delivered[n]`:
      good rows of node n were stored at some time, or for the root written to
      the result; `result`: what the client would read. */
  datatype Quality = Quality(sound: seq<bool>, delivered: seq<bool>, result: Result)

  /** The flags of the key-value store and the tables of the sites: `tables[c]`
      counts how often the rows of node c are in its table at its parent's site;
      `selects` and `stores` count what was ever done. */
  datatype Store = Store(finished: seq<bool>, done: bool, tables: seq<nat>, selects: seq<nat>, stores: seq<nat>, q: Quality)

  datatype State = State(store: Store, procs: seq<Proc>)

  /** One entry for each node. */
  predicate Fits(plan: Plan, st: Store) {
    |st.finished| == |st.tables| == |st.selects| == |st.stores| == |st.q.sound| == |st.q.delivered| == |plan|
  }

  /** sql_execute: fresh flags and a start message to every site. */
  function Begin(plan: Plan, sites: seq<Site>): State {
    var zeros, unset := seq(|plan|, _ => 0), seq(|plan|, _ => false);
    State(Store(unset, false, zeros, zeros, zeros, Quality(unset, unset, NoResult)),
          seq(|sites|, i requires 0 <= i < |sites| => Start(sites[i])))
  }

  ghost predicate Mine(plan: Plan, site: Site, todo: seq<nat>) {
    forall k :: 0 <= k < |todo| ==> todo[k] < |plan| && plan[todo[k]].site == site
  }

  /** `n` is a node with a parent. */
  predicate Inner(plan: Plan, n: nat) {
    n < |plan| && 0 <= plan[n].parent < |plan|
  }

  ghost predicate ProcShaped(plan: Plan, p: Proc) {
    match p
    case Scan(_, snap) => |snap| <= |plan|
    case Work(site, todo) => Mine(plan, site, todo)
    case Selected(site, todo, _) => todo != [] && Mine(plan, site, todo)
    case RootStored(site, todo) => todo != [] && Mine(plan, site, todo) && plan[todo[0]].parent == -1
    case RootFlagged(site, todo) => todo != [] && Mine(plan, site, todo) && plan[todo[0]].parent == -1
    case Stored(site, todo) => todo != [] && Mine(plan, site, todo) && Inner(plan, todo[0])
    case Flagged(site, todo) => todo != [] && Mine(plan, site, todo) && Inner(plan, todo[0])
    case Deleting(site, todo, next) => todo != [] && Mine(plan, site, todo) && next <= |plan|
    case Message(n, _) => Inner(plan, n)
    case Received(n) => Inner(plan, n)
    case Forking(n) => Inner(plan, n)
    case _ => true
  }

  function Add(counts: seq<nat>, n: nat): (r: seq<nat>)
    requires n < |counts|
  {
    counts[n := counts[n] + 1]
  }

  /** Every parent is the root's -1 or a node of the plan. */
  ghost predicate ParentsExist(plan: Plan) {
    forall n :: 0 <= n < |plan| ==> -1 <= plan[n].parent < |plan|
  }

  /** What a process does in one step: its effect, the point it reaches and
      the process it starts, if any. */
  datatype Move = Move(store: Store, next: Proc, forked: seq<Proc>)

  function SetFlag(st: Store, n: nat): Store
    requires n < |st.finished|
  {
    st.(finished := st.finished[n := true])
  }

  /** A select of `n` finds good rows of every child. */
  ghost predicate SeesInputs(plan: Plan, st: Store, n: nat)
    requires Fits(plan, st)
  {
    forall c: nat :: c < |plan| && plan[c].parent == n ==> st.q.sound[c]
  }

  function StoreRows(st: Store, n: nat, good: bool): Store
    requires n < |st.tables| && n < |st.stores| && n < |st.q.sound| && n < |st.q.delivered|
  {
    st.(tables := Add(st.tables, n),
        stores := Add(st.stores, n),
        q := st.q.(sound := st.q.sound[n := st.q.sound[n] || good],
                   delivered := st.q.delivered[n := st.q.delivered[n] || good]))
  }

  function WriteResult(st: Store, n: nat, good: bool): Store
    requires n < |st.q.delivered|
  {
    st.(q := st.q.(result := Result(good), delivered := st.q.delivered[n := st.q.delivered[n] || good]))
  }

  function DropRows(st: Store, n: nat): Store
    requires n < |st.tables| && n < |st.q.sound|
  {
    st.(tables := st.tables[n := 0], q := st.q.(sound := st.q.sound[n := false]))
  }

  /** The next step of process `p`. The sender of a remote push waits for the
      reply, so that storing the rows, setting the flag and starting the scan
      at the other site are its own next steps; with `late` it gives up waiting
      and goes on while the rows are still on their way. */
  ghost function Act(plan: Plan, st: Store, p: Proc, late: bool): Move
    requires ParentsExist(plan) && Fits(plan, st) && ProcShaped(plan, p)
  {
    match p
    case Start(site) => Move(st, Scan(site, []), [])
    case Scan(site, snap) =>
      if |snap| < |plan| then Move(st, Scan(site, snap + [st.finished[|snap|]]), [])
      else Move(st, Work(site, Picked(plan, snap, site, |plan|)), [])
    case Work(site, todo) =>
      if todo == [] then Move(st, Idle, [])
      else
        Move(st.(selects := Add(st.selects, todo[0])), Selected(site, todo, SeesInputs(plan, st, todo[0])), [])
    case Selected(site, todo, good) =>
      var n := todo[0];
      var parent := plan[n].parent;
      if parent == -1 then Move(WriteResult(st, n, good), RootStored(site, todo), [])
      else if plan[parent].site == site || !late then Move(StoreRows(st, n, good), Stored(site, todo), [])
      else Move(st, Deleting(site, todo, 0), [Message(n, good)])
    case RootStored(site, todo) => Move(SetFlag(st, todo[0]), RootFlagged(site, todo), [])
    case RootFlagged(site, todo) => Move(st.(done := true), Deleting(site, todo, 0), [])
    case Stored(site, todo) => Move(SetFlag(st, todo[0]), Flagged(site, todo), [])
    case Flagged(site, todo) => Move(st, Deleting(site, todo, 0), [Start(plan[plan[todo[0]].parent].site)])
    case Deleting(site, todo, next) =>
      if next == |plan| then Move(st, Work(site, todo[1..]), [])
      else Move(if plan[next].parent == todo[0] then DropRows(st, next) else st, Deleting(site, todo, next + 1), [])
    case Message(n, good) => Move(StoreRows(st, n, good), Received(n), [])
    case Received(n) => Move(SetFlag(st, n), Forking(n), [])
    case Forking(n) => Move(st, Start(plan[plan[n].parent].site), [])
    case Idle => Move(st, Idle, [])
  }

  ghost predicate Shaped(plan: Plan, s: State) {
    Fits(plan, s.store) && forall i :: 0 <= i < |s.procs| ==> ProcShaped(plan, s.procs[i])
  }

  /** Process `i` takes its next step. */
  ghost function Step(plan: Plan, s: State, i: nat, late: bool): State
    requires ParentsExist(plan) && Shaped(plan, s) && i < |s.procs|
  {
    var m := Act(plan, s.store, s.procs[i], late);
    State(m.store, s.procs[i := m.next] + m.forked)
  }

  /** A turn of a schedule: which process goes on, and whether it is late. */
  datatype Turn = Turn(i: nat, late: bool)
}
