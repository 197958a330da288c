/** The timers of an RPC over every run, whatever its peers answer: when there
    is at most one, what guards the call, and that no limit passes the deadline. */
module RpcTimers {
  import opened Bytes
  import opened RpcMachine
  import opened RpcProofs
  import opened RpcShape
  import RT = RpcTheorems

  /** The clock as it was, or as EndRPC leaves it; limits within the deadline. */
  ghost predicate Clocked(s: Rpc, r: Rpc) {
    && r.clock.deadline == s.clock.deadline
    && (!r.ended ==> r.clock.timers == s.clock.timers && r.clock.timerId == s.clock.timerId && r.clock.added == s.clock.added)
    && (r.ended ==> r.clock.timers == StopTimer(s).clock.timers)
    && (WithinDeadline(s) ==> WithinDeadline(r))
  }

  lemma AttemptClock(c: Config, s: Rpc)
    requires Sane(c) && !s.ended
    ensures var a := Attempt(c, s);
            && Clocked(s, a) && !a.ended && a.error != EBACKUPREQUEST
            && a.cur.nretry == s.cur.nretry && a.maxRetry == s.maxRetry
  {
    hide StopTimer;
    AttemptFrame(c, s);
  }

  lemma EndClock(s: Rpc, id: Id, responded: bool)
    ensures Clocked(s, EndRpc(s, id, responded)) && EndRpc(s, id, responded).ended
  {
    hide EndRpc;
    EndRpcFrame(s, id, responded);
  }

  lemma ClockedOn(s: Rpc, m: Rpc, r: Rpc)
    requires Clocked(s, m) && !m.ended && Clocked(m, r)
    ensures Clocked(s, r)
  {
    hide WithinDeadline;
  }

  lemma SameClock(s: Rpc, t: Rpc, r: Rpc)
    requires s.clock == t.clock && Clocked(s, r)
    ensures Clocked(t, r)
  {
  }

  lemma {:induction false} IssueClock(c: Config, s: Rpc)
    requires Sane(c) && !s.ended
    ensures Clocked(s, Issue(c, s))
    decreases s.maxRetry - s.cur.nretry, 1
  {
    hide Attempt, SendFailed, Conclude, Clocked;
    AttemptClock(c, s);
    var a := Attempt(c, s);
    if a.error != 0 {
      SendFailedConcludes(c, a);
      ConcludeClock(c, a, Version(a.cur.nretry), false);
      ClockedOn(s, a, SendFailed(c, a));
    }
  }

  /** Any error but that of the backup timer. */
  lemma {:induction false} ConcludeClock(c: Config, s: Rpc, id: Id, responded: bool)
    requires Sane(c) && !s.ended && s.error != EBACKUPREQUEST
    ensures Clocked(s, Conclude(c, s, id, responded))
    ensures s.error != 0 && s.error !in c.retriable ==> Conclude(c, s, id, responded).ended
    decreases s.maxRetry - s.cur.nretry, 0
  {
    hide Issue, EndRpc, Clocked, CompleteCurrent;
    EndClock(s, id, responded);
    if s.cur.nretry < s.maxRetry && s.error in c.retriable {
      var t := Retried(s, id, responded);
      RetriedClock(s, id, responded);
      IssueClock(c, t);
      SameClock(t, s, Issue(c, t));
    }
  }

  lemma RetriedClock(s: Rpc, id: Id, responded: bool)
    ensures var t := Retried(s, id, responded);
            t.clock == s.clock && t.ended == s.ended && t.maxRetry == s.maxRetry && t.cur.nretry == s.cur.nretry + 1
  {
  }

  /** A version is about to be backed up. */
  predicate BacksUp(c: Config, s: Rpc) {
    s.cur.nretry < s.maxRetry && !(c.timeoutMs >= 0 && c.rearmRc != 0)
  }

  /** The error of the backup timer. */
  lemma BackupClock(c: Config, s: Rpc, id: Id, responded: bool)
    requires Sane(c) && !s.ended && s.error == EBACKUPREQUEST
    ensures var r := Conclude(c, s, id, responded);
            if BacksUp(c, s) then Clocked(BackedUp(c, s), r) else r.ended && Clocked(s, r)
  {
    hide Issue, EndRpc, Clocked, BackedUp;
    EndClock(s, id, responded);
    if BacksUp(c, s) {
      BackedUpRuns(c, s);
      IssueClock(c, BackedUp(c, s));
    } else if s.cur.nretry < s.maxRetry {
      var f := SetFailed(s, c.rearmRc);
      EndClock(f, id, responded);
      SameClock(f, s, EndRpc(f, id, responded));
    }
  }

  lemma BackedUpRuns(c: Config, s: Rpc)
    ensures BackedUp(c, s).ended == s.ended
  {
  }

  // ---- One event ----

  /** The event makes the RPC back up its current version. */
  predicate Backs(c: Config, s: Rpc, e: Event) {
    !s.ended && Delivers(s, e) && BacksUp(c, s)
  }

  /** The state once the timer that fires, if one does, is gone. */
  function Before(s: Rpc, e: Event): Rpc {
    if e.Fire? && e.timer in s.clock.timers then Fired(s, e.timer) else s
  }

  lemma ReturnedClock(c: Config, s: Rpc, id: Id, responded: bool, saved: int)
    requires Sane(c) && !s.ended
    ensures var r := Returned(c, s, id, responded, saved);
            var here := id == Base || id == Version(s.cur.nretry);
            && (s.error == EBACKUPREQUEST && here && BacksUp(c, s) ==> Clocked(BackedUp(c, s), r))
            && (!(s.error == EBACKUPREQUEST && here && BacksUp(c, s)) ==> Clocked(s, r))
            && (id == Base && s.error != 0 && s.error !in c.retriable && s.error != EBACKUPREQUEST ==> r.ended)
            && (id == Base && s.error == EBACKUPREQUEST && !BacksUp(c, s) ==> r.ended)
  {
    hide Conclude, BackedUp;
    if s.error == EBACKUPREQUEST {
      BackupClock(c, s, id, responded);
    } else {
      ConcludeClock(c, s, id, responded);
    }
  }

  lemma StepClock(c: Config, s: Rpc, e: Event)
    requires Sane(c) && !s.ended && s.error == 0
    ensures var r := Step(c, s, e);
            var b := Before(s, e);
            && (Backs(c, s, e) ==> Clocked(BackedUp(c, SetFailed(b, EBACKUPREQUEST)), r))
            && (!Backs(c, s, e) ==> Clocked(b, r))
            && (!Backs(c, s, e) && b != s ==> r.ended)
  {
    hide Returned, BackedUp;
    match e {
      case Response(n, error) =>
        var f := if error == 0 then s else SetFailed(s, error);
        ReturnedClock(c, f, Version(n), true, s.error);
        ClockOnly(f, s, Step(c, s, e));
      case SocketFailed(n, error) =>
        ReturnedClock(c, SetFailed(s, error), Version(n), false, s.error);
        ClockOnly(SetFailed(s, error), s, Step(c, s, e));
      case Fire(t) =>
        if t in s.clock.timers {
          var code := if s.clock.timers[t].kind == Backup then EBACKUPREQUEST else ERPCTIMEDOUT;
          var f := SetFailed(Fired(s, t), code);
          ReturnedClock(c, f, Base, false, s.error);
          ClockOnly(f, Fired(s, t), Step(c, s, e));
        }
      case Cancel =>
        ReturnedClock(c, SetFailed(s, ECANCELED), Base, false, s.error);
        ClockOnly(SetFailed(s, ECANCELED), s, Step(c, s, e));
    }
  }

  lemma ClockOnly(f: Rpc, s: Rpc, r: Rpc)
    requires f.clock == s.clock
    ensures Clocked(f, r) ==> Clocked(s, r)
  {
  }

  // ---- At most one timer ----

  /** What the RPC promises of its timers. */
  ghost predicate TimersOk(s: Rpc) {
    |s.clock.timers.Keys| <= 1 && (s.ended ==> NoTimer(s))
  }

  /** The only timer there may be is the one that _timeout_id names. */
  ghost predicate Named(s: Rpc) {
    && (forall t <- s.clock.timers :: t == s.clock.timerId != 0 && t <= s.clock.added)
    && (s.ended ==> NoTimer(s))
  }

  /** The event arms a second timer: a peer reports EBACKUPREQUEST for the
      current version while one is armed, a retry is left, and the timer of the
      deadline can be added. */
  ghost predicate Doubles(c: Config, s: Rpc, e: Event) {
    && !s.ended && (e.Response? || e.SocketFailed?) && e.error == EBACKUPREQUEST && e.nretry == s.cur.nretry
    && s.cur.nretry < s.maxRetry && c.timeoutMs >= 0 && c.rearmRc == 0 && !NoTimer(s)
  }

  lemma NamedOk(s: Rpc)
    requires Named(s)
    ensures TimersOk(s)
  {
    var keys := s.clock.timers.Keys;
    assert keys == {} || keys == {s.clock.timerId};
  }

  lemma BackedUpNamed(c: Config, s: Rpc)
    requires Named(s) && !s.ended && (c.timeoutMs >= 0 ==> NoTimer(s))
    ensures Named(BackedUp(c, s))
  {
  }

  lemma ClockedNamed(s: Rpc, r: Rpc)
    requires Named(s) && Clocked(s, r)
    ensures Named(r)
  {
  }

  lemma FiredNone(s: Rpc, e: Event)
    requires Named(s) && !s.ended
    ensures Named(Before(s, e)) && (Before(s, e) != s ==> NoTimer(Before(s, e)))
  {
  }

  /** Two timers are armed, or one of them is left when the RPC ends. */
  lemma TwoTimers(c: Config, s: Rpc, r: Rpc)
    requires Named(s) && !s.ended && !NoTimer(s) && c.timeoutMs >= 0 && Clocked(BackedUp(c, s), r)
    ensures !TimersOk(r)
  {
    var b := BackedUp(c, s);
    var old_, new_ := s.clock.timerId, s.clock.added + 1;
    assert old_ in b.clock.timers && new_ in b.clock.timers && b.clock.timerId == new_ != old_;
    if r.ended {
      assert old_ in r.clock.timers;
    } else {
      var keys := r.clock.timers.Keys;
      assert {old_, new_} <= keys;
      Larger({old_, new_}, keys);
    }
  }

  lemma {:induction false} Larger(a: set<nat>, b: set<nat>)
    requires a <= b
    ensures |a| <= |b|
  {
    if a != {} {
      var x :| x in a;
      Larger(a - {x}, b - {x});
    }
  }

  lemma StepNamed(c: Config, s: Rpc, e: Event)
    requires Sane(c) && Named(s) && (!s.ended ==> s.error == 0)
    ensures if Doubles(c, s, e) then !TimersOk(Step(c, s, e)) else Named(Step(c, s, e))
  {
    hide Step, Clocked, BackedUp, Named;
    if s.ended {
      EndedStays(c, s, e);
    } else {
      var b := Before(s, e);
      StepClock(c, s, e);
      FiredNone(s, e);
      if Doubles(c, s, e) {
        var f := SetFailed(s, EBACKUPREQUEST);
        NamedFails(s, EBACKUPREQUEST);
        TwoTimers(c, f, Step(c, s, e));
      } else if Backs(c, s, e) {
        NamedFails(b, EBACKUPREQUEST);
        BackedUpNamed(c, SetFailed(b, EBACKUPREQUEST));
        ClockedNamed(BackedUp(c, SetFailed(b, EBACKUPREQUEST)), Step(c, s, e));
      } else {
        ClockedNamed(b, Step(c, s, e));
      }
    }
  }

  lemma NamedFails(s: Rpc, error: int)
    requires Named(s)
    ensures Named(SetFailed(s, error))
  {
  }

  // ---- Runs ----

  ghost predicate DoublesAt(c: Config, s: Rpc, events: seq<Event>, i: nat)
    requires i < |events|
  {
    Doubles(c, Run(c, s, events[..i]), events[i])
  }

  ghost predicate OkAt(c: Config, s: Rpc, events: seq<Event>, i: nat)
    requires i <= |events|
  {
    TimersOk(Run(c, s, events[..i]))
  }

  lemma {:induction false} RunNamed(c: Config, s: Rpc, events: seq<Event>, n: nat)
    requires Sane(c) && Steady(s) && Named(s) && n <= |events|
    requires forall i: nat :: i < n ==> !DoublesAt(c, s, events, i)
    ensures Named(Run(c, s, events[..n]))
  {
    hide Step, Steady, Named, Doubles;
    if n > 0 {
      RunNamed(c, s, events, n - 1);
      RunShape(c, s, events[..n - 1]);
      assert events[..n][..n - 1] == events[..n - 1];
      assert !DoublesAt(c, s, events, n - 1);
      SteadyIs(Run(c, s, events[..n - 1]));
      StepNamed(c, Run(c, s, events[..n - 1]), events[n - 1]);
    } else {
      assert events[..0] == [];
    }
  }

  lemma SteadyIs(s: Rpc)
    requires Steady(s)
    ensures !s.ended ==> s.error == 0
  {
  }

  /** In every state of a run there is at most one timer, and none is left after
      the end, if and only if no event doubled it. */
  lemma RunTimersIff(c: Config, s: Rpc, events: seq<Event>)
    requires Sane(c) && Steady(s) && Named(s)
    ensures (forall i: nat :: i <= |events| ==> OkAt(c, s, events, i))
       <==> (forall i: nat :: i < |events| ==> !DoublesAt(c, s, events, i))
  {
    hide Step, Steady, Named, TimersOk, Doubles;
    if forall i: nat :: i < |events| ==> !DoublesAt(c, s, events, i) {
      forall i: nat | i <= |events|
        ensures OkAt(c, s, events, i)
      {
        RunNamed(c, s, events, i);
        NamedOk(Run(c, s, events[..i]));
      }
    } else {
      var i: nat :| i < |events| && DoublesAt(c, s, events, i);
      var n := FirstDouble(c, s, events, i);
      RunNamed(c, s, events, n);
      RunShape(c, s, events[..n]);
      SteadyIs(Run(c, s, events[..n]));
      StepNamed(c, Run(c, s, events[..n]), events[n]);
      assert events[..n + 1][..n] == events[..n];
      assert !OkAt(c, s, events, n + 1);
    }
  }

  lemma {:induction false} FirstDouble(c: Config, s: Rpc, events: seq<Event>, i: nat) returns (n: nat)
    requires i < |events| && DoublesAt(c, s, events, i)
    ensures n <= i && DoublesAt(c, s, events, n) && forall j: nat :: j < n ==> !DoublesAt(c, s, events, j)
    decreases i
  {
    hide DoublesAt;
    if j: nat :| j < i && DoublesAt(c, s, events, j) {
      n := FirstDouble(c, s, events, j);
    } else {
      n := i;
    }
  }

  // ---- The start ----

  ghost predicate Armed(s: Rpc) {
    exists t: nat :: t in s.clock.timers
  }

  lemma FailedClock(c: Config, s: Rpc, error: int)
    requires Sane(c) && !s.ended && Named(s) && NoTimer(s) && WithinDeadline(s)
    ensures var r := SendFailed(c, SetFailed(s, error));
            && Named(r) && WithinDeadline(r) && r.clock.deadline == s.clock.deadline
            && (!r.ended ==> (Armed(r) <==> error == EBACKUPREQUEST && c.timeoutMs >= 0))
  {
    hide Conclude, Clocked;
    var f := SetFailed(s, error);
    SendFailedConcludes(c, f);
    if error == EBACKUPREQUEST {
      BackupClock(c, f, Version(f.cur.nretry), false);
      BackedUpNamed(c, f);
      BackedUpArmed(c, f);
      ClockedArmed(BackedUp(c, f), Conclude(c, f, Version(f.cur.nretry), false));
      ClockedArmed(f, Conclude(c, f, Version(f.cur.nretry), false));
    } else {
      ConcludeClock(c, f, Version(f.cur.nretry), false);
      ClockedArmed(f, Conclude(c, f, Version(f.cur.nretry), false));
    }
  }

  lemma BackedUpArmed(c: Config, s: Rpc)
    ensures c.timeoutMs >= 0 ==> Armed(BackedUp(c, s))
    ensures c.timeoutMs < 0 ==> BackedUp(c, s).clock == s.clock
    ensures WithinDeadline(s) ==> WithinDeadline(BackedUp(c, s))
    ensures BackedUp(c, s).clock.deadline == s.clock.deadline
  {
    if c.timeoutMs >= 0 {
      assert s.clock.added + 1 in BackedUp(c, s).clock.timers;
    }
  }

  lemma ClockedArmed(s: Rpc, r: Rpc)
    ensures Clocked(s, r) && !r.ended ==> (Armed(r) <==> Armed(s))
    ensures Clocked(s, r) && WithinDeadline(s) ==> WithinDeadline(r)
    ensures Clocked(s, r) ==> r.clock.deadline == s.clock.deadline
    ensures Clocked(s, r) && Named(s) ==> Named(r)
  {
  }

  /** How the clock stands when CallMethod returns. */
  lemma StartClock(c: Config, maxRetry: nat, start: nat, early: Option<int>, stream: bool)
    requires Sane(c)
    ensures var s := CallMethod(c, maxRetry, start, early, stream);
            && Named(s) && WithinDeadline(s)
            && s.clock.deadline == (if early.Some? || c.timeoutMs < 0 then -1 else c.timeoutMs * 1000 + start)
            && (!s.ended && c.timeoutMs >= 0 ==>
                (Armed(s) <==> (early.None? && c.timerRc == 0) || early == Some(EBACKUPREQUEST)))
  {
    hide Issue, SendFailed, StartTimed, Armed, Clocked;
    if early.Some? {
      FailedClock(c, Fresh(maxRetry).(first := 1), early.value);
    } else {
      var m := if stream then 0 else maxRetry;
      var backupMs := if stream then -1 else c.backupMs;
      var s := Fresh(m).(clock := Clock(if c.timeoutMs < 0 then -1 else c.timeoutMs * 1000 + start, 0, map[], 0, []));
      if backupMs >= 0 && (backupMs < c.timeoutMs || c.timeoutMs < 0) {
        TimedClock(c, s, Timer(Backup, backupMs * 1000 + start));
      } else if c.timeoutMs >= 0 {
        TimedClock(c, s, Timer(Timeout, s.clock.deadline));
      } else {
        IssueClock(c, s);
        ClockedArmed(s, Issue(c, s));
      }
    }
  }

  lemma TimedClock(c: Config, s: Rpc, t: Timer)
    requires Sane(c) && !s.ended && Named(s) && NoTimer(s) && WithinDeadline(s)
    requires s.clock.deadline >= 0 ==> t.at <= s.clock.deadline
    ensures var r := StartTimed(c, s, t);
            && Named(r) && WithinDeadline(r) && r.clock.deadline == s.clock.deadline
            && (!r.ended ==> (Armed(r) <==> c.timerRc == 0))
  {
    hide Issue, SendFailed, Clocked;
    if c.timerRc != 0 {
      FailedClock(c, s.(first := 1), c.timerRc);
    } else {
      var a := AddTimer(s, t);
      assert s.clock.added + 1 in a.clock.timers;
      IssueClock(c, a);
      ClockedArmed(a, Issue(c, a));
    }
  }

  // ---- The theorems ----

  /** Whatever the peers answer: in every state of a run at most one timer is
      armed, and none is left after the end, if and only if no event of the run
      doubled it. Peers that never answer EBACKUPREQUEST double nothing. */
  lemma OneTimerIff(c: Config, maxRetry: nat, start: nat, early: Option<int>, stream: bool, events: seq<Event>)
    requires Sane(c)
    ensures var s := CallMethod(c, maxRetry, start, early, stream);
            (forall i: nat :: i <= |events| ==> OkAt(c, s, events, i))
            <==> (forall i: nat :: i < |events| ==> !DoublesAt(c, s, events, i))
  {
    hide CallMethod, Run, Named, Steady, OkAt, DoublesAt;
    StartClock(c, maxRetry, start, early, stream);
    StartShape(c, maxRetry, start, early, stream);
    RunTimersIff(c, CallMethod(c, maxRetry, start, early, stream), events);
  }

  lemma StepLimits(c: Config, s: Rpc, e: Event)
    requires Sane(c) && !s.ended && s.error == 0 && WithinDeadline(s)
    ensures WithinDeadline(Step(c, s, e)) && Step(c, s, e).clock.deadline == s.clock.deadline
  {
    hide Step, Clocked, BackedUp;
    var b := Before(s, e);
    StepClock(c, s, e);
    BackedUpArmed(c, SetFailed(b, EBACKUPREQUEST));
    ClockedArmed(BackedUp(c, SetFailed(b, EBACKUPREQUEST)), Step(c, s, e));
    ClockedArmed(b, Step(c, s, e));
  }

  lemma {:induction false} RunLimits(c: Config, s: Rpc, events: seq<Event>)
    requires Sane(c) && Steady(s) && WithinDeadline(s)
    ensures WithinDeadline(Run(c, s, events)) && Run(c, s, events).clock.deadline == s.clock.deadline
  {
    hide Step, Steady, WithinDeadline;
    if events != [] {
      var n := |events| - 1;
      var t := Run(c, s, events[..n]);
      RunLimits(c, s, events[..n]);
      RunShape(c, s, events[..n]);
      SteadyIs(t);
      if t.ended {
        EndedStays(c, t, events[n]);
      } else {
        StepLimits(c, t, events[n]);
      }
    }
  }

  /** Whatever the peers answer, the deadline is the one that CallMethod computed
      and no timer or connect limit that was ever set lies beyond it. */
  lemma OneDeadline(c: Config, maxRetry: nat, start: nat, early: Option<int>, stream: bool, events: seq<Event>)
    requires Sane(c)
    ensures var s := Run(c, CallMethod(c, maxRetry, start, early, stream), events);
            && s.clock.deadline == (if early.Some? || c.timeoutMs < 0 then -1 else c.timeoutMs * 1000 + start)
            && (s.clock.deadline >= 0 ==> forall l <- s.clock.limits :: l <= s.clock.deadline)
  {
    hide CallMethod, Run, Steady, Named;
    StartClock(c, maxRetry, start, early, stream);
    StartShape(c, maxRetry, start, early, stream);
    RunLimits(c, CallMethod(c, maxRetry, start, early, stream), events);
  }

  ghost predicate BacksAt(c: Config, s: Rpc, events: seq<Event>, i: nat)
    requires i < |events|
  {
    Backs(c, Run(c, s, events[..i]), events[i])
  }

  lemma StepArmed(c: Config, s: Rpc, e: Event)
    requires Sane(c) && !s.ended && s.error == 0 && c.timeoutMs >= 0
    ensures !Step(c, s, e).ended ==> (Armed(Step(c, s, e)) <==> Armed(s) || Backs(c, s, e))
  {
    hide Step, Clocked, BackedUp, Armed;
    var b := Before(s, e);
    StepClock(c, s, e);
    BackedUpArmed(c, SetFailed(b, EBACKUPREQUEST));
    ClockedArmed(BackedUp(c, SetFailed(b, EBACKUPREQUEST)), Step(c, s, e));
    ClockedArmed(b, Step(c, s, e));
  }

  lemma {:induction false} RunArmed(c: Config, s: Rpc, events: seq<Event>)
    requires Sane(c) && Steady(s) && c.timeoutMs >= 0
    ensures !Run(c, s, events).ended ==>
              (Armed(Run(c, s, events)) <==> Armed(s) || exists i: nat :: i < |events| && BacksAt(c, s, events, i))
  {
    hide Step, Steady, Armed, Backs;
    if events != [] {
      var n := |events| - 1;
      var t := Run(c, s, events[..n]);
      RunArmed(c, s, events[..n]);
      RunShape(c, s, events[..n]);
      SteadyIs(t);
      forall i: nat | i < n
        ensures BacksAt(c, s, events, i) == BacksAt(c, s, events[..n], i)
      {
        assert events[..n][..i] == events[..i];
      }
      assert BacksAt(c, s, events, n) == Backs(c, t, events[n]);
      if t.ended {
        EndedStays(c, t, events[n]);
      } else {
        StepArmed(c, t, events[n]);
      }
    }
  }

  /** Whatever the peers answer, a running RPC with a timeout has a timer armed if
      and only if CallMethod got as far as arming one or some event made the RPC
      back up a version. So a call that failed early and was retried has none,
      unless a peer answers EBACKUPREQUEST. */
  lemma TimerGuards(c: Config, maxRetry: nat, start: nat, early: Option<int>, stream: bool, events: seq<Event>)
    requires Sane(c) && c.timeoutMs >= 0
    ensures var s0 := CallMethod(c, maxRetry, start, early, stream);
            var s := Run(c, s0, events);
            !s.ended ==>
              (Armed(s) <==> || (early.None? && c.timerRc == 0) || early == Some(EBACKUPREQUEST)
                             || exists i: nat :: i < |events| && BacksAt(c, s0, events, i))
  {
    hide CallMethod, Run, Steady, Named, Armed, BacksAt;
    var s0 := CallMethod(c, maxRetry, start, early, stream);
    StartClock(c, maxRetry, start, early, stream);
    StartShape(c, maxRetry, start, early, stream);
    RunArmed(c, s0, events);
    if s0.ended {
      RunEnded(c, s0, events);
    }
  }

  lemma {:induction false} RunEnded(c: Config, s: Rpc, events: seq<Event>)
    requires s.ended
    ensures Run(c, s, events) == s
  {
    hide Step;
    if events != [] {
      RunEnded(c, s, events[..|events| - 1]);
      EndedStays(c, s, events[|events| - 1]);
    }
  }

  // ---- Which timers ----

  /** The call is to be backed up before it times out. */
  predicate WantsBackup(c: Config, stream: bool) {
    !stream && c.backupMs >= 0 && (c.timeoutMs < 0 || c.backupMs < c.timeoutMs)
  }

  /** The timer that CallMethod arms. */
  function FirstTimer(c: Config, start: int, stream: bool): Option<Timer> {
    if WantsBackup(c, stream) then Some(Timer(Backup, c.backupMs * 1000 + start))
    else if c.timeoutMs >= 0 then Some(Timer(Timeout, c.timeoutMs * 1000 + start))
    else None
  }

  /** A call that gets to run has exactly one timer: that of the backup request
      if it is to come before the timeout, else that of the timeout, else none. */
  lemma StartArms(c: Config, maxRetry: nat, start: nat, stream: bool)
    requires Sane(c) && c.timerRc == 0
    ensures var s := CallMethod(c, maxRetry, start, None, stream);
            var t := FirstTimer(c, start, stream);
            !s.ended ==> s.clock.timers == if t.Some? then map[1 := t.value] else map[]
  {
    hide Issue, Clocked;
    var m := if stream then 0 else maxRetry;
    var s := Fresh(m).(clock := Clock(if c.timeoutMs < 0 then -1 else c.timeoutMs * 1000 + start, 0, map[], 0, []));
    var t := FirstTimer(c, start, stream);
    var a := if t.Some? then AddTimer(s, t.value) else s;
    assert CallMethod(c, maxRetry, start, None, stream) == Issue(c, a);
    IssueClock(c, a);
    ClockedTimers(a, Issue(c, a));
  }

  lemma ClockedTimers(s: Rpc, r: Rpc)
    requires Clocked(s, r)
    ensures r.clock.deadline == s.clock.deadline
    ensures !r.ended ==> r.clock.timers == s.clock.timers
    ensures forall t <- r.clock.timers :: t in s.clock.timers && r.clock.timers[t] == s.clock.timers[t]
  {
  }

  /** Every timer armed is the first one, or is set to the deadline. */
  ghost predicate TimersFrom(s: Rpc, first: Option<Timer>) {
    forall t <- s.clock.timers :: Some(s.clock.timers[t]) == first || s.clock.timers[t] == Timer(Timeout, s.clock.deadline)
  }

  lemma StepTimers(c: Config, s: Rpc, e: Event, first: Option<Timer>)
    requires Sane(c) && !s.ended && s.error == 0 && TimersFrom(s, first)
    ensures TimersFrom(Step(c, s, e), first)
  {
    hide Step, Clocked;
    var b := Before(s, e);
    StepClock(c, s, e);
    if Backs(c, s, e) {
      ClockedTimers(BackedUp(c, SetFailed(b, EBACKUPREQUEST)), Step(c, s, e));
    } else {
      ClockedTimers(b, Step(c, s, e));
    }
  }

  lemma {:induction false} RunTimers(c: Config, s: Rpc, events: seq<Event>, first: Option<Timer>)
    requires Sane(c) && Steady(s) && TimersFrom(s, first)
    ensures TimersFrom(Run(c, s, events), first)
  {
    hide Step, Steady, TimersFrom;
    if events != [] {
      var n := |events| - 1;
      var t := Run(c, s, events[..n]);
      RunTimers(c, s, events[..n], first);
      RunShape(c, s, events[..n]);
      SteadyIs(t);
      if t.ended {
        EndedStays(c, t, events[n]);
      } else {
        StepTimers(c, t, events[n], first);
      }
    }
  }

  /** In every run, whatever the peers answer: a backup timer is only ever armed
      for the time of the backup request of a call that wants one, and a timeout
      only for the deadline. */
  lemma EveryTimer(c: Config, maxRetry: nat, start: nat, stream: bool, events: seq<Event>)
    requires Sane(c) && c.timerRc == 0 && !CallMethod(c, maxRetry, start, None, stream).ended
    ensures var s := Run(c, CallMethod(c, maxRetry, start, None, stream), events);
            forall t <- s.clock.timers ::
              match s.clock.timers[t].kind
              case Backup => WantsBackup(c, stream) && s.clock.timers[t].at == c.backupMs * 1000 + start
              case Timeout => s.clock.timers[t].at == if c.timeoutMs < 0 then -1 else c.timeoutMs * 1000 + start
  {
    hide CallMethod, Run, Steady, Named;
    var s0 := CallMethod(c, maxRetry, start, None, stream);
    StartClock(c, maxRetry, start, None, stream);
    StartArms(c, maxRetry, start, stream);
    StartShape(c, maxRetry, start, None, stream);
    RunTimers(c, s0, events, FirstTimer(c, start, stream));
    RunLimits(c, s0, events);
  }

  // ---- The limit on connecting ----

  /** The limit on connecting version `n`: the smaller of its own and the
      deadline of the RPC, if it has one. */
  ghost predicate FairLimit(c: Config, deadline: int, n: nat, limit: int) {
    var own := c.connectMs * 1000 + TimeOf(c, n);
    && limit <= own && (deadline >= 0 ==> limit <= deadline)
    && (limit == own || (deadline >= 0 && limit == deadline))
  }

  /** The last limit set is that of the current version. */
  ghost predicate Limited(c: Config, s: Rpc) {
    s.clock.limits != [] && FairLimit(c, s.clock.deadline, s.cur.nretry, s.clock.limits[|s.clock.limits| - 1])
  }

  lemma {:induction false} IssueLimits(c: Config, s: Rpc)
    requires Sane(c) && !s.ended && c.connectMs > 0
    ensures var r := Issue(c, s); !r.ended && r.error == 0 ==> Limited(c, r)
    decreases s.maxRetry - s.cur.nretry, 1
  {
    hide SendFailed, Conclude;
    var a := Attempt(c, s);
    if a.error != 0 {
      AttemptClock(c, s);
      SendFailedConcludes(c, a);
      ConcludeLimits(c, a, Version(a.cur.nretry), false);
    }
  }

  lemma {:induction false} ConcludeLimits(c: Config, s: Rpc, id: Id, responded: bool)
    requires Sane(c) && !s.ended && c.connectMs > 0
    ensures var r := Conclude(c, s, id, responded); !r.ended && r.error == 0 ==> Limited(c, r)
    decreases s.maxRetry - s.cur.nretry, 0
  {
    hide Issue, EndRpc, CompleteCurrent, BackedUp, Limited;
    EndClock(s, id, responded);
    EndClock(SetFailed(s, c.rearmRc), id, responded);
    if s.cur.nretry < s.maxRetry && s.error == EBACKUPREQUEST {
      BackedUpRuns(c, s);
      NextVersion(c, s);
      IssueLimits(c, BackedUp(c, s));
    } else if s.cur.nretry < s.maxRetry && s.error in c.retriable {
      RetriedClock(s, id, responded);
      IssueLimits(c, Retried(s, id, responded));
    }
  }

  lemma NextVersion(c: Config, s: Rpc)
    ensures BackedUp(c, s).cur.nretry == s.cur.nretry + 1 && BackedUp(c, s).maxRetry == s.maxRetry
  {
  }

  /** In every run with a limit on connecting: an event after which another
      version is current and running has set that version's limit, the smaller of
      its own and the deadline. */
  lemma VersionsAreLimited(c: Config, maxRetry: nat, start: nat, early: Option<int>, stream: bool, events: seq<Event>,
                           e: Event)
    requires Sane(c) && c.connectMs > 0
    ensures var s := Run(c, CallMethod(c, maxRetry, start, early, stream), events);
            var r := Step(c, s, e);
            !r.ended && r.cur.nretry != s.cur.nretry ==> Limited(c, r)
  {
    hide CallMethod, Run, Conclude, Limited, Numbered;
    var s0 := CallMethod(c, maxRetry, start, early, stream);
    var s := Run(c, s0, events);
    StartShape(c, maxRetry, start, early, stream);
    RunShape(c, s0, events);
    if !s.ended {
      StepShape(c, s, e);
      match e {
        case Response(n, error) =>
          ConcludeLimits(c, if error == 0 then s else SetFailed(s, error), Version(n), true);
        case SocketFailed(n, error) => ConcludeLimits(c, SetFailed(s, error), Version(n), false);
        case Fire(t) =>
          ConcludeLimits(c, SetFailed(Fired(s, t), EBACKUPREQUEST), Base, false);
          ConcludeLimits(c, SetFailed(Fired(s, t), ERPCTIMEDOUT), Base, false);
        case Cancel => ConcludeLimits(c, SetFailed(s, ECANCELED), Base, false);
      }
    }
  }

  /** One forged answer is enough: no CHECK fails, the RPC succeeds, and a timer
      is still armed after its end. */
  lemma ForgedTimer()
    ensures var c := Config(false, {}, 1000, -1, 0, [], [], 0, 0);
            var s0 := CallMethod(c, 2, 0, None, false);
            var events := [Response(0, EBACKUPREQUEST), Response(1, 0)];
            var s := Run(c, s0, events);
            && RT.Untripped(c, s0, events) && DoublesAt(c, s0, events, 0)
            && s.hist.checksFailed == 0 && s.ended && s.error == 0 && !NoTimer(s)
  {
    hide Step, Issue;
    var c := Config(false, {}, 1000, -1, 0, [], [], 0, 0);
    var s0 := CallMethod(c, 2, 0, None, false);
    var events := [Response(0, EBACKUPREQUEST), Response(1, 0)];
    var f0 := AddTimer(Fresh(2).(clock := Clock(1000_000, 0, map[], 0, [])), Timer(Timeout, 1000_000));
    assert s0 == Issue(c, f0);
    RT.SentIssue(c, f0);
    RT.ForgedStep(c, s0);
    var s1 := Step(c, s0, events[0]);
    SuccessEnds(c, s1);
    var s2 := Step(c, s1, events[1]);
    assert events[..0] == [] && events[..1] == [events[0]] && [events[0]][..0] == [];
    assert Run(c, s0, events[..1]) == s1 && Run(c, s0, events) == s2;
    assert 1 in s0.clock.timers && 1 in s2.clock.timers;
    assert RT.Untripped(c, s0, events[..0]) && RT.Untripped(c, s0, events[..1]);
  }

  lemma SuccessEnds(c: Config, s: Rpc)
    requires !s.ended && s.error == 0 && !c.userPolicy
    ensures Step(c, s, Response(s.cur.nretry, 0)) == EndRpc(s, Version(s.cur.nretry), true)
  {
    hide EndRpc;
    assert Step(c, s, Response(s.cur.nretry, 0)) == Conclude(c, s, Version(s.cur.nretry), true);
  }
}
