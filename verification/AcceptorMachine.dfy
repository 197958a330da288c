/** The life of an Acceptor as a state machine. Every section under the map
    mutex is one step, and so is every call into a Socket made outside of it.
    A run is any sequence of steps, so every interleaving of accept threads,
    one StopAccept, Join and socket recycling is a run. */
module AcceptorMachine {
  import opened Bytes

  type Id = nat

  datatype Status = Uninitialized | Ready | Running | Stopping

  /** What the mutex protects. */
  datatype Core = Core(status: Status, listenedFd: int, acceptionId: Id, sockets: set<Id>)

  const FRESH := Core(Uninitialized, -1, 0, {})

  /** StartAccept on a listened descriptor. `created` is the id of the listening
      socket, None when it cannot be created. The result is 0 or -1. */
  function Started(c: Core, fd: int, created: Option<Id>): (Core, int) {
    if fd < 0 || c.status.Running? || c.status.Stopping? then
      (c, -1)
    else if created.None? then
      (c.(status := Ready), -1)
    else
      (Core(Running, fd, created.value, c.sockets), 0)
  }

  /** The first section of StopAccept; false means it returns at once. */
  function StopBegun(c: Core): (Core, bool) {
    if c.status.Running? then (c.(status := Stopping), true) else (c, false)
  }

  /** Join has nothing to wait for. */
  predicate NoNeedToJoin(c: Core) {
    !c.status.Stopping? && !c.status.Running?
  }

  /** The condition that ends the wait of Join. */
  predicate Emptied(c: Core) {
    c.listenedFd <= 0 && c.sockets == {}
  }

  function Joined(c: Core): Core {
    c.(status := Ready)
  }

  /** The section of an accept thread: the socket enters the map whatever the
      status is, and the thread remembers whether the acceptor was running. */
  function Added(c: Core, id: Id): (Core, bool) {
    (c.(sockets := c.sockets + {id}), c.status.Running?)
  }

  function Recycled(c: Core, id: Id): Core {
    if id == c.acceptionId then c.(listenedFd := -1) else c.(sockets := c.sockets - {id})
  }

  /** An accepted socket that is not recycled yet. `released` is set once it
      was failed or its additional reference was given up; `users` counts the
      references of requests in progress. */
  datatype Conn = Conn(released: bool, users: nat)

  datatype Listener = Listener(id: Id, failed: bool)

  /** Where an accept thread is. From Addressed on it holds a reference on its
      socket, and all along it holds one on the listening socket. */
  datatype Thread =
    | Accepting
    | Created(id: Id)
    | Addressed(id: Id)
    | Inserted(id: Id, running: bool)

  /** Where StopAccept is. */
  datatype Stopper =
    | Idle
    | Marked
    | Listing(present: set<Id>)
    | Passing(todo: set<Id>)

  datatype State = State(
    core: Core,
    listener: Option<Listener>,
    conns: map<Id, Conn>,
    threads: map<nat, Thread>,
    stopper: Stopper,
    waiting: nat,
    leaving: nat,
    next: Id)

  const INITIAL := State(FRESH, None, map[], map[], Idle, 0, 0, 1)

  datatype Action =
    | Start(fd: int, created: bool)
    | StopBegin
    | StopFailListener
    | StopList
    | StopListed(found: set<Id>)
    | StopOne(id: Id)
    | StopEnd
    | JoinBegin
    | JoinLeave
    | JoinEnd
    | Wake(t: nat)
    | Accept(t: nat)
    | Drained(t: nat)
    | Address(t: nat)
    | Insert(t: nat)
    | Finish(t: nat)
    | Fail(id: Id)
    | Use(id: Id)
    | Drop(id: Id)
    | Recycle(id: Id)
    | FailListener
    | RecycleListener

  /** How callers use the acceptor: whether descriptor 0 may be listened on
      and whether two Joins may overlap. */
  datatype Rules = Rules(zeroFd: bool, manyJoins: bool)

  const DISCIPLINED := Rules(false, false)

  predicate Holds(p: Thread, id: Id) {
    (p.Addressed? || p.Inserted?) && p.id == id
  }

  predicate Held(s: State, id: Id) {
    exists t <- s.threads :: Holds(s.threads[t], id)
  }

  /** A listing may miss ids that come or go while it yields the mutex, but not
      those present throughout. */
  predicate Enabled(rules: Rules, s: State, a: Action) {
    match a
    case Start(fd, created) => s.stopper.Idle? && (fd == 0 ==> rules.zeroFd)
    case StopBegin => s.stopper.Idle?
    case StopFailListener => s.stopper.Marked?
    case StopList => s.stopper.Marked? && (s.listener.Some? ==> s.listener.value.failed)
    case StopListed(found) => s.stopper.Listing? && s.stopper.present * s.core.sockets <= found
    case StopOne(id) => s.stopper.Passing? && id in s.stopper.todo
    case StopEnd => s.stopper.Passing? && s.stopper.todo == {}
    case JoinBegin => rules.manyJoins || s.waiting + s.leaving == 0
    case JoinLeave => s.waiting > 0 && Emptied(s.core)
    case JoinEnd => s.leaving > 0
    case Wake(t) => t !in s.threads && s.listener.Some? && !s.listener.value.failed
    case Accept(t) => t in s.threads && s.threads[t].Accepting?
    case Drained(t) => t in s.threads && s.threads[t].Accepting?
    case Address(t) => t in s.threads && s.threads[t].Created?
    case Insert(t) => t in s.threads && s.threads[t].Addressed?
    case Finish(t) => t in s.threads && s.threads[t].Inserted?
    case Fail(id) => id in s.conns
    case Use(id) => id in s.conns && (!s.conns[id].released || s.conns[id].users > 0 || Held(s, id))
    case Drop(id) => id in s.conns && s.conns[id].users > 0
    case Recycle(id) => id in s.conns && s.conns[id].released && s.conns[id].users == 0 && !Held(s, id)
    case FailListener => s.listener.Some?
    case RecycleListener => s.listener.Some? && s.listener.value.failed && s.threads == map[]
  }

  function Released(conns: map<Id, Conn>, id: Id): map<Id, Conn> {
    if id in conns then conns[id := conns[id].(released := true)] else conns
  }

  function Failed(l: Option<Listener>): Option<Listener> {
    if l.Some? then Some(l.value.(failed := true)) else None
  }

  function Do(rules: Rules, s: State, a: Action): State
    requires Enabled(rules, s, a)
  {
    match a
    case Start(fd, created) =>
      var (core, rc) := Started(s.core, fd, if created then Some(s.next) else None);
      if rc == 0 then
        s.(core := core, listener := Some(Listener(s.next, false)), next := s.next + 1)
      else
        s.(core := core)
    case StopBegin =>
      var (core, go) := StopBegun(s.core);
      if go then s.(core := core, stopper := Marked) else s
    case StopFailListener => s.(listener := Failed(s.listener))
    case StopList => s.(stopper := Listing(s.core.sockets))
    case StopListed(found) => s.(stopper := Passing(found))
    case StopOne(id) => s.(conns := Released(s.conns, id), stopper := Passing(s.stopper.todo - {id}))
    case StopEnd => s.(stopper := Idle)
    case JoinBegin => if NoNeedToJoin(s.core) then s else s.(waiting := s.waiting + 1)
    case JoinLeave => s.(waiting := s.waiting - 1, leaving := s.leaving + 1)
    case JoinEnd => s.(core := Joined(s.core), leaving := s.leaving - 1)
    case Wake(t) => s.(threads := s.threads[t := Accepting])
    case Accept(t) =>
      s.(conns := s.conns[s.next := Conn(false, 0)], threads := s.threads[t := Created(s.next)], next := s.next + 1)
    case Drained(t) => s.(threads := s.threads - {t})
    case Address(t) =>
      var id := s.threads[t].id;
      s.(threads := s.threads[t := if id in s.conns then Addressed(id) else Accepting])
    case Insert(t) =>
      var id := s.threads[t].id;
      var (core, running) := Added(s.core, id);
      s.(core := core, threads := s.threads[t := Inserted(id, running)])
    case Finish(t) =>
      var p := s.threads[t];
      s.(conns := if p.running then s.conns else Released(s.conns, p.id), threads := s.threads[t := Accepting])
    case Fail(id) => s.(conns := Released(s.conns, id))
    case Use(id) => s.(conns := s.conns[id := s.conns[id].(users := s.conns[id].users + 1)])
    case Drop(id) => s.(conns := s.conns[id := s.conns[id].(users := s.conns[id].users - 1)])
    case Recycle(id) => s.(core := Recycled(s.core, id), conns := s.conns - {id})
    case FailListener => s.(listener := Failed(s.listener))
    case RecycleListener => s.(core := Recycled(s.core, s.listener.value.id), listener := None)
  }

  /** A step that is not possible changes nothing. */
  function Step(rules: Rules, s: State, a: Action): State {
    if Enabled(rules, s, a) then Do(rules, s, a) else s
  }

  function Run(rules: Rules, s: State, actions: seq<Action>): State
    decreases |actions|
  {
    if actions == [] then s else Run(rules, Step(rules, s, actions[0]), actions[1..])
  }

  /** The Acceptor object: the fields under the mutex, and StartAccept, which
      holds it from end to end. */
  class Acceptor {
    var status: Status
    var listenedFd: int
    var acceptionId: Id
    var sockets: set<Id>

    ghost function View(): Core
      reads this
    {
      Core(status, listenedFd, acceptionId, sockets)
    }

    constructor ()
      ensures View() == FRESH
    {
      status, listenedFd, acceptionId, sockets := Uninitialized, -1, 0, {};
    }

    method StartAccept(fd: int, created: Option<Id>) returns (rc: int)
      modifies this
      ensures (View(), rc) == Started(old(View()), fd, created)
    {
      if fd < 0 {
        return -1;
      }
      if status == Uninitialized {
        status := Ready;
      }
      if status != Ready {
        return -1;
      }
      if created.None? {
        return -1;
      }
      acceptionId := created.value;
      listenedFd := fd;
      status := Running;
      rc := 0;
    }
  }
}
