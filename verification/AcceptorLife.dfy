/** What a running acceptor does with the connections it accepts: it keeps them,
    and gives them up only because of a stop. */
module AcceptorLife {
  import opened Bytes
  import opened AcceptorMachine
  import opened AcceptorTheorems

  /** StartAccept returns 0. */
  predicate StartsNow(s: State, a: Action) {
    a.Start? && Enabled(DISCIPLINED, s, a) && Started(s.core, a.fd, if a.created then Some(s.next) else None).1 == 0
  }

  predicate StopsNow(s: State, a: Action) {
    a.StopBegin? && Enabled(DISCIPLINED, s, a)
  }

  predicate Told(s: State, stopped: bool, a: Action) {
    if StartsNow(s, a) then false else stopped || StopsNow(s, a)
  }

  /** StopAccept was called since the latest StartAccept that succeeded. */
  predicate StopSince(s: State, stopped: bool, actions: seq<Action>)
    decreases |actions|
  {
    if actions == [] then stopped
    else StopSince(Step(DISCIPLINED, s, actions[0]), Told(s, stopped, actions[0]), actions[1..])
  }

  /** How the state goes with what was called: an acceptor that listens runs
      until it is stopped, and only a stop makes threads refuse sockets. */
  ghost predicate Agrees(s: State, stopped: bool) {
    && (s.listener.Some? ==> (s.core.status.Running? <==> !stopped))
    && (!s.stopper.Idle? ==> stopped)
    && (forall t <- s.threads :: s.threads[t].Inserted? && !s.threads[t].running ==> stopped)
  }

  lemma StepAgrees(s: State, stopped: bool, a: Action)
    requires Inv(s) && Agrees(s, stopped)
    ensures Agrees(Step(DISCIPLINED, s, a), Told(s, stopped, a))
  {
    hide Tracked, Covered;
  }

  /** The sockets in `failed` were failed from outside; any other one that was
      released was so after a stop. */
  ghost predicate Excused(s: State, stopped: bool, failed: set<Id>) {
    forall id <- s.conns :: s.conns[id].released ==> stopped || id in failed
  }

  function Failing(failed: set<Id>, a: Action): set<Id> {
    if a.Fail? then failed + {a.id} else failed
  }

  lemma StepExcused(s: State, stopped: bool, failed: set<Id>, a: Action)
    requires Inv(s) && Agrees(s, stopped) && Excused(s, stopped, failed)
    ensures Excused(Step(DISCIPLINED, s, a), Told(s, stopped, a), Failing(failed, a))
  {
    hide Covered;
    if StartsNow(s, a) {
      ListedOrNone(s);
    }
  }

  lemma {:induction false} RunExcused(s: State, stopped: bool, failed: set<Id>, actions: seq<Action>, id: Id)
    requires Inv(s) && Agrees(s, stopped) && Excused(s, stopped, failed)
    requires id !in failed && Fail(id) !in actions
    ensures var e := Run(DISCIPLINED, s, actions);
            && Agrees(e, StopSince(s, stopped, actions))
            && (id in e.conns && e.conns[id].released ==> StopSince(s, stopped, actions))
    decreases |actions|
  {
    if actions != [] {
      hide Inv, Agrees, Excused, Step, Told;
      var a := actions[0];
      StepKeeps(s, a);
      StepAgrees(s, stopped, a);
      StepExcused(s, stopped, failed, a);
      RunExcused(Step(DISCIPLINED, s, a), Told(s, stopped, a), Failing(failed, a), actions[1..], id);
    }
  }

  lemma {:induction false} RunAgrees(s: State, stopped: bool, actions: seq<Action>)
    requires Inv(s) && Agrees(s, stopped)
    ensures Agrees(Run(DISCIPLINED, s, actions), StopSince(s, stopped, actions))
    decreases |actions|
  {
    if actions != [] {
      hide Inv, Agrees, Step, Told;
      StepKeeps(s, actions[0]);
      StepAgrees(s, stopped, actions[0]);
      RunAgrees(Step(DISCIPLINED, s, actions[0]), Told(s, stopped, actions[0]), actions[1..]);
    }
  }

  predicate Stopped(actions: seq<Action>) {
    StopSince(INITIAL, false, actions)
  }

  /** In every run an accepted connection that nobody failed is released only if
      StopAccept was called since the acceptor was last started; in particular
      a run without StopAccept keeps every connection it was not told to fail. */
  lemma ConnectionsAreKept(actions: seq<Action>, id: Id)
    requires Fail(id) !in actions
    ensures var s := Reached(actions);
            && (id in s.conns && s.conns[id].released ==> Stopped(actions))
            && (Stopped(actions) ==> exists a <- actions :: a.StopBegin?)
  {
    hide Run, Step, StopSince, Inv, Agrees, Excused;
    AtFirst();
    RunExcused(INITIAL, false, {}, actions, id);
    if forall a <- actions :: !a.StopBegin? {
      NeverStopped(INITIAL, actions);
    }
  }

  lemma AtFirst()
    ensures Inv(INITIAL) && Agrees(INITIAL, false) && Excused(INITIAL, false, {})
  {
  }

  lemma {:induction false} NeverStopped(s: State, actions: seq<Action>)
    requires forall a <- actions :: !a.StopBegin?
    ensures !StopSince(s, false, actions)
    decreases |actions|
  {
    if actions != [] {
      hide Step;
      NeverStopped(Step(DISCIPLINED, s, actions[0]), actions[1..]);
    }
  }

  // ---- What an accept thread decides ----

  /** Nothing but its own next step moves a thread that has listed its socket. */
  lemma {:induction false} ThreadWaits(s: State, t: nat, mid: seq<Action>)
    requires t in s.threads && s.threads[t].Inserted? && Finish(t) !in mid
    ensures var e := Run(DISCIPLINED, s, mid); t in e.threads && e.threads[t] == s.threads[t]
    decreases |mid|
  {
    if mid != [] {
      var a := mid[0];
      assert a in mid;
      ThreadWaits(Step(DISCIPLINED, s, a), t, mid[1..]);
    }
  }

  /** An accept thread lists its socket in any case. However the run goes on, the
      thread then releases it if and only if StopAccept was called, since the
      acceptor was last started, before the socket was listed. */
  lemma ReleasesIffStopped(actions: seq<Action>, t: nat, mid: seq<Action>)
    requires Enabled(DISCIPLINED, Reached(actions), Insert(t)) && Finish(t) !in mid
    ensures var s := Reached(actions);
            var id := s.threads[t].id;
            var listed := Step(DISCIPLINED, s, Insert(t));
            var e := Run(DISCIPLINED, listed, mid);
            && id in listed.core.sockets && listed.conns == s.conns
            && Step(DISCIPLINED, e, Finish(t)).conns == if Stopped(actions) then Released(e.conns, id) else e.conns
  {
    hide Run, Step, StopSince, Inv, Agrees, Enabled;
    var s := Reached(actions);
    var listed := Step(DISCIPLINED, s, Insert(t));
    AtFirst();
    Reachable(actions);
    RunAgrees(INITIAL, false, actions);
    Lists(s, Stopped(actions), t);
    ThreadWaits(listed, t, mid);
    Finishes(Run(DISCIPLINED, listed, mid), t);
  }

  lemma Lists(s: State, stopped: bool, t: nat)
    requires Inv(s) && Agrees(s, stopped) && Enabled(DISCIPLINED, s, Insert(t))
    ensures t in s.threads && s.threads[t].Addressed?
    ensures var id := s.threads[t].id;
            var e := Step(DISCIPLINED, s, Insert(t));
            && id in e.core.sockets && e.conns == s.conns
            && t in e.threads && e.threads[t] == Inserted(id, !stopped)
  {
    hide Tracked, Covered, Phased;
  }

  lemma Finishes(s: State, t: nat)
    requires t in s.threads && s.threads[t].Inserted?
    ensures Step(DISCIPLINED, s, Finish(t)).conns
         == if s.threads[t].running then s.conns else Released(s.conns, s.threads[t].id)
  {
  }

  /** A connection that a request is using stays until the request lets go of it,
      however the run goes on, failures and stops included. */
  lemma {:induction false} UsedIsAlive(s: State, id: Id, later: seq<Action>)
    requires id in s.conns && s.conns[id].users > 0 && id < s.next && Drop(id) !in later
    ensures var e := Run(DISCIPLINED, s, later); id in e.conns && e.conns[id].users > 0
    decreases |later|
  {
    if later != [] {
      var a := later[0];
      assert a in later;
      UsedIsAlive(Step(DISCIPLINED, s, a), id, later[1..]);
    }
  }

  lemma UseKeepsAlive(actions: seq<Action>, id: Id, later: seq<Action>)
    requires Enabled(DISCIPLINED, Reached(actions), Use(id)) && Drop(id) !in later
    ensures id in Run(DISCIPLINED, Step(DISCIPLINED, Reached(actions), Use(id)), later).conns
  {
    hide Run, Covered, Phased, Listened;
    Reachable(actions);
    UsedIsAlive(Step(DISCIPLINED, Reached(actions), Use(id)), id, later);
  }

  // ---- Starting, stopping, joining ----

  /** In every reachable state StartAccept makes the acceptor listen if and only
      if it is given a descriptor and a socket can be created for it while the
      acceptor neither runs nor stops; otherwise nothing that lives changes. */
  lemma StartsIff(actions: seq<Action>, fd: int, created: bool)
    requires Enabled(DISCIPLINED, Reached(actions), Start(fd, created))
    ensures var s := Reached(actions);
            var e := Step(DISCIPLINED, s, Start(fd, created));
            var starts := fd > 0 && created && !s.core.status.Running? && !s.core.status.Stopping?;
            && e.conns == s.conns && e.threads == s.threads && e.core.sockets == s.core.sockets
            && (starts ==> e.core.status.Running? && e.core.listenedFd == fd && e.listener == Some(Listener(s.next, false)))
            && (!starts ==> e.listener == s.listener && (s.core.status.Running? <==> e.core.status.Running?)
                            && (s.core.status.Stopping? <==> e.core.status.Stopping?))
  {
    hide Run;
    Reachable(actions);
  }

  /** From every reachable state in which the acceptor runs, a StopAccept that is
      carried to its end, with accept threads and requests ending too, leaves no
      listener, no thread and no connection, and lets Join leave. */
  lemma StopCompletes(actions: seq<Action>) returns (more: seq<Action>)
    requires Reached(actions).core.status.Running?
    ensures forall a <- more :: Ending(a)
    ensures var e := Run(DISCIPLINED, Step(DISCIPLINED, Reached(actions), StopBegin), more);
            && Emptied(e.core) && e.listener.None? && e.threads == map[] && e.conns == map[]
  {
    hide Run, Inv, Leads, Emptied;
    var s := Reached(actions);
    Reachable(actions);
    var b := Step(DISCIPLINED, s, StopBegin);
    StepKeeps(s, StopBegin);
    StopMarks(s);
    var first, m := EndStop(b);
    var rest, e := EndAll(m);
    Follows(b, first, m, rest, e);
    more := first + rest;
    LeadsTo(b, more, e);
    RunKeeps(b, more);
    EmptiedIsClosed(e);
  }

  lemma StopMarks(s: State)
    requires Inv(s) && s.core.status.Running?
    ensures Step(DISCIPLINED, s, StopBegin).core.status.Stopping?
  {
  }

  lemma LeadsTo(s: State, actions: seq<Action>, e: State)
    requires Leads(s, actions, e)
    ensures Run(DISCIPLINED, s, actions) == e && forall a <- actions :: Ending(a)
  {
  }

  lemma EmptiedIsClosed(s: State)
    requires Inv(s) && Emptied(s.core)
    ensures s.listener.None? && s.threads == map[] && s.conns == map[]
  {
    ListedOrNone(s);
  }

  /** In every reachable state Join waits if and only if the acceptor runs or
      stops, and a Join that waits can leave if and only if nothing listens and
      no connection lives. */
  lemma JoinWaitsIff(actions: seq<Action>)
    ensures var s := Reached(actions);
            && (Enabled(DISCIPLINED, s, JoinBegin) ==>
                  Step(DISCIPLINED, s, JoinBegin).waiting
                  == s.waiting + if s.core.status.Running? || s.core.status.Stopping? then 1 else 0)
            && (Enabled(DISCIPLINED, s, JoinLeave) <==> s.waiting > 0 && s.listener.None? && s.conns == map[])
  {
    hide Run, Tracked, Covered, Listened, Phased;
    var s := Reached(actions);
    Reachable(actions);
    LeavesIff(s);
  }

  lemma LeavesIff(s: State)
    requires Inv(s)
    ensures Emptied(s.core) <==> s.listener.None? && s.conns == map[]
  {
    hide Covered, Phased;
    if s.listener.None? {
      ListedOrNone(s);
    }
  }
}
