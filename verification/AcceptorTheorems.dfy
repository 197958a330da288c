/** No connection escapes a stop: what holds after every run of the acceptor,
    and what goes wrong when callers listen on descriptor 0 or overlap Joins. */
module AcceptorTheorems {
  import opened Bytes
  import opened AcceptorMachine

  /** Ids are never reused, a listed socket is alive, a held one too, and every
      living one is listed or on its way into the map. */
  ghost predicate Tracked(s: State) {
    && s.core.sockets <= s.conns.Keys
    && (forall t <- s.threads :: !s.threads[t].Accepting? && !s.threads[t].Created? ==> s.threads[t].id in s.conns)
    && (forall id <- s.conns :: id in s.core.sockets || Coming(s, id))
    && (forall id <- s.conns :: id < s.next && id != s.core.acceptionId)
    && s.core.acceptionId < s.next
  }

  ghost predicate Coming(s: State, id: Id) {
    exists t <- s.threads :: (s.threads[t].Created? || s.threads[t].Addressed?) && s.threads[t].id == id
  }

  /** The listening socket lives exactly as long as the listened descriptor is
      set, and accept threads keep it alive. */
  ghost predicate Listened(s: State) {
    && (s.listener.Some? <==> s.core.listenedFd > 0)
    && (s.listener.Some? ==> s.listener.value.id == s.core.acceptionId)
    && (s.threads != map[] ==> s.listener.Some?)
  }

  /** Nothing accepts, nothing is listed. */
  ghost predicate Closed(s: State) {
    s.listener.None? && s.core.sockets == {} && s.threads == map[]
  }

  ghost predicate Phased(s: State) {
    && s.waiting + s.leaving <= 1
    && (s.leaving > 0 || NoNeedToJoin(s.core) ==> Closed(s))
    && (NoNeedToJoin(s.core) ==> s.waiting + s.leaving == 0)
    && (s.core.status.Running? || s.core.status.Uninitialized? ==> s.stopper.Idle?)
    && (s.core.status.Stopping? && !s.stopper.Marked? && s.listener.Some? ==> s.listener.value.failed)
  }

  /** The socket was failed or released. */
  ghost predicate Doomed(s: State, id: Id) {
    id in s.conns && s.conns[id].released
  }

  /** Its accept thread saw the stop and is about to fail the socket. */
  ghost predicate AboutToFail(s: State, id: Id) {
    exists t <- s.threads :: s.threads[t] == Inserted(id, false)
  }

  ghost predicate StillToDo(st: Stopper, id: Id) {
    match st
    case Idle => false
    case Marked => true
    case Listing(present) => id in present
    case Passing(todo) => id in todo
  }

  ghost predicate Covered(s: State) {
    s.core.status.Stopping? ==>
      forall id <- s.core.sockets :: Doomed(s, id) || AboutToFail(s, id) || StillToDo(s.stopper, id)
  }

  ghost predicate Inv(s: State) {
    Tracked(s) && Listened(s) && Phased(s) && Covered(s)
  }

  lemma StepComing(s: State, a: Action, id: Id)
    requires Tracked(s) && Listened(s) && Enabled(DISCIPLINED, s, a) && id in Do(DISCIPLINED, s, a).conns
    ensures var s' := Do(DISCIPLINED, s, a); id in s'.core.sockets || Coming(s', id)
  {
    var s' := Do(DISCIPLINED, s, a);
    if id !in s.conns {
      assert a.t in s'.threads;
    } else if id !in s.core.sockets {
      var t :| t in s.threads && (s.threads[t].Created? || s.threads[t].Addressed?) && s.threads[t].id == id;
      assert t in s'.threads;
    }
  }

  lemma StepTracked(s: State, a: Action)
    requires Tracked(s) && Listened(s) && Enabled(DISCIPLINED, s, a)
    ensures Tracked(Do(DISCIPLINED, s, a))
  {
    hide Coming;
    var s' := Do(DISCIPLINED, s, a);
    forall id <- s'.conns
      ensures id in s'.core.sockets || Coming(s', id)
    {
      StepComing(s, a, id);
    }
  }

  lemma StepListened(s: State, a: Action)
    requires Tracked(s) && Listened(s) && Phased(s) && Enabled(DISCIPLINED, s, a)
    ensures Listened(Do(DISCIPLINED, s, a))
  {
  }

  lemma StepPhased(s: State, a: Action)
    requires Tracked(s) && Listened(s) && Phased(s) && Enabled(DISCIPLINED, s, a)
    ensures Phased(Do(DISCIPLINED, s, a))
  {
  }

  lemma StepCovered(s: State, a: Action)
    requires Inv(s) && Enabled(DISCIPLINED, s, a)
    ensures Covered(Do(DISCIPLINED, s, a))
  {
    var s' := Do(DISCIPLINED, s, a);
    if s'.core.status.Stopping? {
      forall id <- s'.core.sockets
        ensures Doomed(s', id) || AboutToFail(s', id) || StillToDo(s'.stopper, id)
      {
        if id in s.core.sockets && AboutToFail(s, id) {
          var t :| t in s.threads && s.threads[t] == Inserted(id, false);
          assert t in s'.threads;
        } else if a.Insert? {
          assert a.t in s'.threads;
        }
      }
    }
  }

  lemma {:induction false} RunKeeps(s: State, actions: seq<Action>)
    requires Inv(s)
    ensures Inv(Run(DISCIPLINED, s, actions))
    decreases |actions|
  {
    if actions != [] {
      hide Inv, Enabled, Do;
      StepKeeps(s, actions[0]);
      RunKeeps(Step(DISCIPLINED, s, actions[0]), actions[1..]);
    }
  }

  lemma StepKeeps(s: State, a: Action)
    requires Inv(s)
    ensures Inv(Step(DISCIPLINED, s, a))
  {
    hide Tracked, Listened, Phased, Covered, Enabled, Do;
    if Enabled(DISCIPLINED, s, a) {
      StepTracked(s, a);
      StepListened(s, a);
      StepPhased(s, a);
      StepCovered(s, a);
    }
  }

  ghost function Reached(actions: seq<Action>): State {
    Run(DISCIPLINED, INITIAL, actions)
  }

  lemma Reachable(actions: seq<Action>)
    ensures Inv(Reached(actions))
  {
    RunKeeps(INITIAL, actions);
  }

  /** Once StopAccept has returned, every listed connection is failed or
      released, or the thread that listed it is about to fail it; and none of
      them is forgotten by the sockets, so its recycling will take it out. */
  lemma NoEscape(actions: seq<Action>, id: Id)
    requires var s := Reached(actions);
             s.core.status.Stopping? && s.stopper.Idle? && id in s.core.sockets
    ensures var s := Reached(actions);
            id in s.conns && (s.conns[id].released || AboutToFail(s, id))
  {
    Reachable(actions);
  }

  /** Without accept threads, a living connection is a listed one. */
  lemma ListedOrNone(s: State)
    requires Tracked(s) && s.threads == map[]
    ensures s.conns.Keys == s.core.sockets
  {
  }

  /** From the moment Join stops waiting until the next StartAccept, however
      the run goes on, there is no accept thread, no listening socket, and no
      accepted socket alive, listed or not. */
  lemma {:induction false} JoinMeansClosed(actions: seq<Action>, later: seq<Action>)
    requires var s := Reached(actions); s.leaving > 0 || s.core.status.Ready?
    requires forall a <- later :: !a.Start?
    ensures var e := Run(DISCIPLINED, Reached(actions), later);
            e.listener.None? && e.threads == map[] && e.core.sockets == {} && e.conns == map[]
  {
    var s := Reached(actions);
    Reachable(actions);
    StaysClosed(s, later);
    RunKeeps(s, later);
    ListedOrNone(Run(DISCIPLINED, s, later));
  }

  lemma {:induction false} StaysClosed(s: State, later: seq<Action>)
    requires Inv(s) && Closed(s)
    requires forall a <- later :: !a.Start?
    ensures Closed(Run(DISCIPLINED, s, later))
    decreases |later|
  {
    if later != [] {
      var a := later[0];
      StepKeeps(s, a);
      StaysClosed(Step(DISCIPLINED, s, a), later[1..]);
    }
  }

  // What remains once the acceptor is stopping: accept threads run to their
  // end, requests give up their references, sockets are recycled and
  // StopAccept goes on.
  predicate Ending(a: Action) {
    || a.Drained? || a.Address? || a.Insert? || a.Finish? || a.Drop? || a.Recycle? || a.RecycleListener?
    || a.StopFailListener? || a.StopList? || a.StopListed? || a.StopOne? || a.StopEnd?
  }

  ghost predicate Leads(s: State, actions: seq<Action>, e: State) {
    Run(DISCIPLINED, s, actions) == e && forall a <- actions :: Ending(a)
  }

  lemma {:induction false} RunConcat(rules: Rules, s: State, first: seq<Action>, second: seq<Action>)
    ensures Run(rules, s, first + second) == Run(rules, Run(rules, s, first), second)
    decreases |first|
  {
    if first == [] {
      assert first + second == second;
    } else {
      assert (first + second)[1..] == first[1..] + second;
      RunConcat(rules, Step(rules, s, first[0]), first[1..], second);
    }
  }

  lemma OneStep(s: State, a: Action) returns (e: State)
    requires Ending(a) && Inv(s) && Enabled(DISCIPLINED, s, a)
    ensures e == Do(DISCIPLINED, s, a) && Leads(s, [a], e) && Inv(e)
  {
    e := Do(DISCIPLINED, s, a);
    hide Do, Enabled, Inv;
    StepKeeps(s, a);
    assert [a][1..] == [];
    assert Run(DISCIPLINED, e, []) == e;
  }

  lemma Follows(s: State, first: seq<Action>, m: State, second: seq<Action>, e: State)
    requires Leads(s, first, m) && Leads(m, second, e)
    ensures Leads(s, first + second, e)
  {
    RunConcat(DISCIPLINED, s, first, second);
  }

  function Rank(p: Thread): nat {
    match p
    case Accepting => 0
    case Inserted(_, _) => 1
    case Addressed(_) => 2
    case Created(_) => 3
  }

  ghost predicate Halting(s: State) {
    s.core.status.Stopping? && s.stopper.Idle?
  }

  lemma {:induction false} EndThread(s: State, t: nat) returns (actions: seq<Action>, e: State)
    requires Inv(s) && Halting(s) && t in s.threads
    ensures Leads(s, actions, e) && Inv(e) && Halting(e)
    ensures e.threads == s.threads - {t}
    decreases Rank(s.threads[t])
  {
    hide Inv, Leads;
    if s.threads[t].Accepting? {
      actions := [Drained(t)];
      e := OneStep(s, Drained(t));
    } else {
      var a := match s.threads[t] case Created(_) => Address(t) case Addressed(_) => Insert(t) case _ => Finish(t);
      var m := OneStep(s, a);
      var rest;
      rest, e := EndThread(m, t);
      actions := [a] + rest;
      Follows(s, [a], m, rest, e);
    }
  }

  lemma {:induction false} EndConn(s: State, id: Id) returns (actions: seq<Action>, e: State)
    requires Inv(s) && Halting(s) && s.threads == map[] && id in s.conns && s.conns[id].released
    ensures Leads(s, actions, e) && Inv(e) && Halting(e)
    ensures e.threads == map[] && e.conns == s.conns - {id}
    decreases s.conns[id].users
  {
    hide Inv, Leads;
    if s.conns[id].users == 0 {
      actions := [Recycle(id)];
      e := OneStep(s, Recycle(id));
    } else {
      var m := OneStep(s, Drop(id));
      var rest;
      rest, e := EndConn(m, id);
      actions := [Drop(id)] + rest;
      Follows(s, [Drop(id)], m, rest, e);
    }
  }

  lemma AllDoomed(s: State, id: Id)
    requires Inv(s) && Halting(s) && s.threads == map[] && id in s.conns
    ensures s.conns[id].released
  {
    ListedOrNone(s);
  }

  lemma NothingLeft(s: State)
    requires Inv(s) && Halting(s) && s.threads == map[] && s.conns == map[]
    ensures s.listener.None? ==> Emptied(s.core)
    ensures s.listener.Some? ==> Enabled(DISCIPLINED, s, RecycleListener)
    ensures s.listener.Some? ==> Emptied(Do(DISCIPLINED, s, RecycleListener).core)
  {
    ListedOrNone(s);
  }

  lemma {:induction false} EndAll(s: State) returns (actions: seq<Action>, e: State)
    requires Inv(s) && Halting(s)
    ensures Leads(s, actions, e) && Emptied(e.core)
    decreases |s.threads.Keys|, |s.conns.Keys|
  {
    hide Inv, Leads, Do, Enabled, Emptied;
    var m, rest;
    if s.threads != map[] {
      var t :| t in s.threads;
      actions, m := EndThread(s, t);
      assert m.threads.Keys == s.threads.Keys - {t};
      rest, e := EndAll(m);
      Follows(s, actions, m, rest, e);
      actions := actions + rest;
    } else if s.conns != map[] {
      var id :| id in s.conns;
      AllDoomed(s, id);
      actions, m := EndConn(s, id);
      assert m.conns.Keys == s.conns.Keys - {id};
      rest, e := EndAll(m);
      Follows(s, actions, m, rest, e);
      actions := actions + rest;
    } else {
      NothingLeft(s);
      if s.listener.Some? {
        actions := [RecycleListener];
        e := OneStep(s, RecycleListener);
      } else {
        actions, e := [], s;
        LeadsNowhere(s);
      }
    }
  }

  lemma LeadsNowhere(s: State)
    ensures Leads(s, [], s)
  {
  }

  lemma {:induction false} EndPass(s: State) returns (actions: seq<Action>, e: State)
    requires Inv(s) && s.core.status.Stopping? && s.stopper.Passing?
    ensures Leads(s, actions, e) && Inv(e) && Halting(e)
    decreases |s.stopper.todo|
  {
    hide Inv, Leads;
    if s.stopper.todo == {} {
      actions := [StopEnd];
      e := OneStep(s, StopEnd);
    } else {
      var id :| id in s.stopper.todo;
      var m := OneStep(s, StopOne(id));
      var rest;
      rest, e := EndPass(m);
      actions := [StopOne(id)] + rest;
      Follows(s, [StopOne(id)], m, rest, e);
    }
  }

  /** StopAccept can always run to its end. */
  lemma EndStop(s: State) returns (actions: seq<Action>, e: State)
    requires Inv(s) && s.core.status.Stopping?
    ensures Leads(s, actions, e) && Inv(e) && Halting(e)
  {
    hide Inv, Leads;
    actions, e := [], s;
    LeadsNowhere(s);
    if e.stopper.Marked? {
      var m := OneStep(e, StopFailListener);
      var n := OneStep(m, StopList);
      Follows(s, [StopFailListener], m, [StopList], n);
      actions, e := [StopFailListener] + [StopList], n;
    }
    if e.stopper.Listing? {
      var m := OneStep(e, StopListed(e.stopper.present));
      Follows(s, actions, e, [StopListed(e.stopper.present)], m);
      actions, e := actions + [StopListed(e.stopper.present)], m;
    }
    if e.stopper.Passing? {
      var rest, n := EndPass(e);
      Follows(s, actions, e, rest, n);
      actions, e := actions + rest, n;
    }
  }

  /** Join is never stuck: from every reachable stopping state, if StopAccept
      and the accept threads run to their end and requests let go of their
      sockets, a state is reached in which Join stops waiting. No connection
      needs to be failed by anyone else. */
  lemma JoinIsNeverStuck(actions: seq<Action>) returns (more: seq<Action>)
    requires Reached(actions).core.status.Stopping?
    ensures forall a <- more :: Ending(a)
    ensures Emptied(Run(DISCIPLINED, Reached(actions), more).core)
  {
    var s := Reached(actions);
    Reachable(actions);
    var first, m := EndStop(s);
    var rest, e := EndAll(m);
    Follows(s, first, m, rest, e);
    more := first + rest;
  }

  /** One more step of a run, with the state it leads to. */
  lemma Then(rules: Rules, actions: seq<Action>, s: State, a: Action, e: State) returns (more: seq<Action>)
    requires Run(rules, INITIAL, actions) == s && Step(rules, s, a) == e
    ensures more == actions + [a] && Run(rules, INITIAL, more) == e
  {
    more := actions + [a];
    hide Step;
    RunConcat(rules, INITIAL, actions, [a]);
    assert [a][1..] == [];
    assert Run(rules, e, []) == e;
  }

  function Listening(fd: int): State {
    INITIAL.(core := Core(Running, fd, 1, {}), listener := Some(Listener(1, false)), next := 2)
  }

  lemma Begun(rules: Rules, fd: nat) returns (actions: seq<Action>)
    requires fd == 0 ==> rules.zeroFd
    ensures Run(rules, INITIAL, actions) == Listening(fd)
  {
    actions := Then(rules, [], INITIAL, Start(fd, true), Listening(fd));
  }

  /** A Join that does not have to wait. */
  lemma JoinSteps(r: Rules, s: State)
    requires s.core.status.Running? && Emptied(s.core) && s.waiting == s.leaving == 0
    ensures Step(r, s, JoinBegin) == s.(waiting := 1)
    ensures Step(r, s.(waiting := 1), JoinLeave) == s.(leaving := 1)
    ensures Step(r, s.(leaving := 1), JoinEnd) == s.(core := Joined(s.core))
  {
  }

  lemma JoinOnZero(many: bool) returns (actions: seq<Action>)
    ensures JoinEnd in actions
    ensures var s := Listening(0);
            Run(Rules(true, many), INITIAL, actions) == s.(core := Joined(s.core))
  {
    hide Run, Step;
    var r := Rules(true, many);
    var s := Listening(0);
    JoinSteps(r, s);
    actions := Begun(r, 0);
    actions := Then(r, actions, s, JoinBegin, s.(waiting := 1));
    actions := Then(r, actions, s.(waiting := 1), JoinLeave, s.(leaving := 1));
    actions := Then(r, actions, s.(leaving := 1), JoinEnd, s.(core := Joined(s.core)));
  }

  function Accepted(s: State, p: Thread): State {
    s.(conns := map[s.next := Conn(false, 0)], threads := map[0 := p], next := s.next + 1)
  }

  /** The first connection of an acceptor comes in ... */
  lemma AcceptSteps(r: Rules, s: State)
    requires s.listener.Some? && !s.listener.value.failed && s.threads == map[] && s.conns == map[]
    ensures Step(r, s, Wake(0)) == s.(threads := map[0 := Accepting])
    ensures Step(r, s.(threads := map[0 := Accepting]), Accept(0)) == Accepted(s, Created(s.next))
  {
  }

  /** ... and is listed although the acceptor is not running. */
  lemma InsertSteps(r: Rules, s: State)
    requires !s.core.status.Running?
    ensures Step(r, Accepted(s, Created(s.next)), Address(0)) == Accepted(s, Addressed(s.next))
    ensures Step(r, Accepted(s, Addressed(s.next)), Insert(0))
         == Accepted(s, Inserted(s.next, false)).(core := Added(s.core, s.next).0)
  {
  }

  /** Listening on descriptor 0: Join returns although the listening socket is
      alive, and a connection is listed afterwards. */
  lemma DescriptorZero(many: bool) returns (actions: seq<Action>)
    ensures JoinEnd in actions
    ensures var s := Run(Rules(true, many), INITIAL, actions);
            s.core.status.Ready? && s.core.sockets != {} && s.listener.Some?
  {
    hide Run, Step;
    var r := Rules(true, many);
    var s := Listening(0).(core := Joined(Listening(0).core));
    var end := Accepted(s, Inserted(s.next, false)).(core := Added(s.core, s.next).0);
    AcceptSteps(r, s);
    InsertSteps(r, s);
    actions := JoinOnZero(many);
    actions := Then(r, actions, s, Wake(0), s.(threads := map[0 := Accepting]));
    actions := Then(r, actions, s.(threads := map[0 := Accepting]), Accept(0), Accepted(s, Created(s.next)));
    actions := Then(r, actions, Accepted(s, Created(s.next)), Address(0), Accepted(s, Addressed(s.next)));
    actions := Then(r, actions, Accepted(s, Addressed(s.next)), Insert(0), end);
    assert s.next in end.core.sockets;
  }

  lemma TwoJoinsWait(zero: bool) returns (actions: seq<Action>)
    ensures Run(Rules(zero, true), INITIAL, actions) == Listening(3).(waiting := 2)
  {
    hide Run;
    var r := Rules(zero, true);
    var s := Listening(3);
    actions := Begun(r, 3);
    actions := Then(r, actions, s, JoinBegin, s.(waiting := 1));
    actions := Then(r, actions, s.(waiting := 1), JoinBegin, s.(waiting := 2));
  }

  lemma TwoJoinsLeave(zero: bool) returns (actions: seq<Action>)
    ensures Run(Rules(zero, true), INITIAL, actions)
         == State(Core(Running, -1, 1, {}), None, map[], map[], Idle, 0, 2, 2)
  {
    hide Run;
    var r := Rules(zero, true);
    var s1 := Listening(3).(waiting := 2);
    var s2 := s1.(listener := Some(Listener(1, true)));
    var s3 := s2.(core := Core(Running, -1, 1, {}), listener := None);
    actions := TwoJoinsWait(zero);
    actions := Then(r, actions, s1, FailListener, s2);
    actions := Then(r, actions, s2, RecycleListener, s3);
    actions := Then(r, actions, s3, JoinLeave, s3.(waiting := 1, leaving := 1));
    actions := Then(r, actions, s3.(waiting := 1, leaving := 1), JoinLeave, s3.(waiting := 0, leaving := 2));
  }

  /** Two Joins at once: the second one declares a restarted acceptor Ready,
      and StopAccept then does nothing although it is listening. */
  lemma OverlappingJoins(zero: bool) returns (actions: seq<Action>)
    ensures var r := Rules(zero, true);
            var s := Run(r, INITIAL, actions);
            && s.core.status.Ready? && s.listener.Some? && !s.listener.value.failed
            && Step(r, s, StopBegin) == s
  {
    var r := Rules(zero, true);
    var s1 := State(Core(Running, -1, 1, {}), None, map[], map[], Idle, 0, 2, 2);
    var s2 := s1.(core := Core(Ready, -1, 1, {}), leaving := 1);
    var s3 := s2.(core := Core(Running, 3, 2, {}), listener := Some(Listener(2, false)), next := 3);
    actions := TwoJoinsLeave(zero);
    hide Run;
    actions := Then(r, actions, s1, JoinEnd, s2);
    actions := Then(r, actions, s2, Start(3, true), s3);
    actions := Then(r, actions, s3, JoinEnd, s3.(core := Core(Ready, 3, 2, {}), leaving := 0));
  }

  // Exactly which callers can rely on Join.

  ghost predicate NoStart(later: seq<Action>) {
    forall a <- later :: !a.Start?
  }

  /** From the moment Join stops waiting until the next StartAccept nothing
      accepts, listens or is connected. */
  ghost predicate Kept(rules: Rules, actions: seq<Action>, later: seq<Action>) {
    var s, e := Run(rules, INITIAL, actions), Run(rules, INITIAL, actions + later);
    (s.leaving > 0 || s.core.status.Ready?) && NoStart(later) ==> Closed(e) && e.conns == map[]
  }

  ghost predicate JoinPromise(rules: Rules) {
    forall actions: seq<Action>, later: seq<Action> :: Kept(rules, actions, later)
  }

  /** Join keeps its promise in all runs of callers that follow `rules` if and
      only if they neither listen on descriptor 0 nor overlap Joins. */
  lemma JoinPromiseIff(rules: Rules)
    ensures JoinPromise(rules) <==> rules == DISCIPLINED
  {
    hide Run, Closed;
    if rules == DISCIPLINED {
      forall actions: seq<Action>, later: seq<Action>
        ensures Kept(rules, actions, later)
      {
        RunConcat(rules, INITIAL, actions, later);
        var s := Reached(actions);
        if (s.leaving > 0 || s.core.status.Ready?) && NoStart(later) {
          JoinMeansClosed(actions, later);
          ClosedIs(Run(DISCIPLINED, s, later));
        }
      }
    } else {
      var actions: seq<Action>;
      if rules.zeroFd {
        actions := DescriptorZero(rules.manyJoins);
      } else {
        actions := OverlappingJoins(rules.zeroFd);
      }
      assert actions + [] == actions;
      ClosedIs(Run(rules, INITIAL, actions));
      assert !Kept(rules, actions, []);
    }
  }

  lemma ClosedIs(s: State)
    ensures Closed(s) <==> s.listener.None? && s.core.sockets == {} && s.threads == map[]
  {
  }

  const FREE := Rules(true, true)

  /** A run in which no descriptor 0 is started and no Join begins while another
      is open. */
  ghost predicate Behaved(s: State, actions: seq<Action>)
    decreases |actions|
  {
    actions == [] ||
    (&& (actions[0].Start? ==> actions[0].fd != 0)
     && (actions[0].JoinBegin? ==> s.waiting + s.leaving == 0)
     && Behaved(Step(FREE, s, actions[0]), actions[1..]))
  }

  /** Such a run, by callers bound to nothing, is one of disciplined callers,
      so all that is proved of those holds of it. */
  lemma {:induction false} BehavedIsDisciplined(s: State, actions: seq<Action>)
    requires Behaved(s, actions)
    ensures Run(FREE, s, actions) == Run(DISCIPLINED, s, actions)
    decreases |actions|
  {
    if actions != [] {
      assert Step(FREE, s, actions[0]) == Step(DISCIPLINED, s, actions[0]);
      BehavedIsDisciplined(Step(FREE, s, actions[0]), actions[1..]);
    }
  }
}
