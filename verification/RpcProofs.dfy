/** What every run of an RPC keeps: each version completed exactly once, no
    socket or feedback lost, one timer, one deadline, and no failed CHECK. */
module RpcProofs {
  import opened Bytes
  import opened RpcMachine

  // ---- Accounting ----

  /** How often version `k` was completed. */
  ghost function Times(log: seq<Completion>, k: nat): nat {
    if log == [] then 0
    else Times(log[..|log| - 1], k) + if log[|log| - 1].nretry == k then 1 else 0
  }

  lemma TimesSnoc(log: seq<Completion>, d: Completion, k: nat)
    ensures Times(log + [d], k) == Times(log, k) + if d.nretry == k then 1 else 0
  {
    assert (log + [d])[..|log|] == log;
  }

  ghost function Range(a: nat, b: nat): seq<nat> {
    if b <= a then [] else Range(a, b - 1) + [b - 1]
  }

  ghost function Is(call: Call, k: nat): nat {
    if call.nretry == k then 1 else 0
  }

  ghost function Holds(call: Call): nat {
    if call.sock then 1 else 0
  }

  ghost function Owes(call: Call, k: nat): nat {
    if call.feedback && call.nretry == k then 1 else 0
  }

  ghost predicate IsOpen(s: Rpc, id: Id) {
    id == Version(s.cur.nretry) || (s.unfinished.Some? && id == Version(s.unfinished.value.nretry))
  }

  /** Version `k`, if it was ever started, is completed once or still open, not
      both, and its feedback is given or owed by the open call. */
  ghost predicate Balanced(s: Rpc, k: nat) {
    && Times(s.hist.log, k) + Is(s.cur, k) + (if s.unfinished.None? then 0 else Is(s.unfinished.value, k))
       == (if k <= s.cur.nretry then 1 else 0)
    && s.hist.selected[k] == s.hist.fedBack[k] + Owes(s.cur, k)
                             + (if s.unfinished.None? then 0 else Owes(s.unfinished.value, k))
  }

  ghost predicate Settled(s: Rpc, k: nat) {
    && Times(s.hist.log, k) == (if k <= s.cur.nretry then 1 else 0)
    && s.hist.selected[k] == s.hist.fedBack[k]
  }

  /** While the RPC runs every version is balanced and every socket taken was
      released or belongs to an open call. */
  ghost predicate Running(s: Rpc) {
    && !s.ended && s.hist.doneRuns == 0 && s.hist.checksFailed == 0
    && s.first <= 1 && s.cur.nretry <= s.maxRetry
    && (s.unfinished.Some? ==> s.unfinished.value.nretry < s.cur.nretry)
    && s.hist.taken == s.hist.released + Holds(s.cur) + (if s.unfinished.None? then 0 else Holds(s.unfinished.value))
    && s.hist.issued == Range(s.first, s.cur.nretry + 1)
    && forall k: nat :: Balanced(s, k)
  }

  ghost function CurrentIssued(s: Rpc): Rpc {
    s.(cur := s.cur.(feedback := false), hist := s.hist.(issued := Range(s.first, s.cur.nretry + 1)))
  }

  /** About to run IssueRPC for version cur.nretry. */
  ghost predicate ToIssue(s: Rpc) {
    && !s.cur.sock && s.first <= s.cur.nretry
    && s.hist.issued == Range(s.first, s.cur.nretry)
    && Running(CurrentIssued(s))
  }

  /** The RPC is over: every version was completed exactly once, nothing is
      held or owed, and done ran once. */
  ghost predicate Over(s: Rpc) {
    && s.ended && s.hist.doneRuns == 1 && s.hist.checksFailed == 0
    && s.cur.nretry <= s.maxRetry
    && s.unfinished == None && !s.cur.sock
    && s.hist.taken == s.hist.released
    && s.hist.issued == Range(s.first, s.cur.nretry + 1)
    && forall k: nat :: Settled(s, k)
  }

  lemma SelectedRuns(s: Rpc, feedback: bool, sock: bool)
    requires Running(s) && !s.cur.sock && !s.cur.feedback
    ensures Running(Selected(s, feedback, sock))
  {
    hide Times, Range;
    forall k: nat ensures Balanced(Selected(s, feedback, sock), k) {
      assert Balanced(s, k);
    }
  }

  /** The accounts do not depend on the error, the timers and the limits. */
  ghost predicate SameCalls(s: Rpc, t: Rpc) {
    s == t.(error := s.error, clock := s.clock)
  }

  lemma RunningCarriesOver(s: Rpc, t: Rpc)
    requires Running(s) && SameCalls(s, t)
    ensures Running(t)
  {
    hide Times, Range;
    forall k: nat ensures Balanced(t, k) {
      assert Balanced(s, k);
    }
  }

  lemma AttemptRuns(c: Config, s: Rpc)
    requires ToIssue(s)
    ensures Running(Attempt(c, s))
  {
    hide Times, Selected, Running, ConnectLimit;
    var b, a := Begun(s), Attempt(c, s);
    BegunRuns(s);
    match SendOf(c, s.cur.nretry) {
      case NoServer(e) =>
        RunningCarriesOver(b, a);
      case NoConnection(e, fb) =>
        SelectedRuns(b, fb, false);
        RunningCarriesOver(Selected(b, fb, false), a);
      case NotPacked(e, fb) =>
        SelectedRuns(b, fb, true);
        RunningCarriesOver(Selected(b, fb, true), a);
      case Sent(fb) =>
        SelectedRuns(b, fb, true);
        RunningCarriesOver(Selected(b, fb, true), a);
    }
  }

  lemma BegunRuns(s: Rpc)
    requires ToIssue(s)
    ensures Running(Begun(s))
  {
    hide Running;
    assert Begun(s).hist.issued == Range(s.first, s.cur.nretry + 1);
    RunningCarriesOver(CurrentIssued(s), Begun(s));
  }

  lemma RetriedToIssue(s: Rpc, responded: bool)
    requires Running(s) && s.cur.nretry < s.maxRetry
    ensures ToIssue(Retried(s, Version(s.cur.nretry), responded))
  {
    hide Times;
    var r := Retried(s, Version(s.cur.nretry), responded);
    forall k: nat ensures Balanced(CurrentIssued(r), k) {
      assert Balanced(s, k) && Balanced(s, s.cur.nretry + 1);
      TimesSnoc(s.hist.log, Completion(s.cur.nretry, s.error, responded, false), k);
    }
  }

  lemma BackedUpToIssue(c: Config, s: Rpc)
    requires Running(s) && s.unfinished.None? && s.cur.nretry < s.maxRetry
    ensures ToIssue(BackedUp(c, s))
  {
    hide Times;
    var r := BackedUp(c, s);
    forall k: nat ensures Balanced(CurrentIssued(r), k) {
      assert Balanced(s, k);
    }
  }

  lemma UnfinishedRuns(s: Rpc, error: int, responded: bool, endOfRpc: bool)
    requires Running(s) && s.unfinished.Some?
    ensures Running(CompleteUnfinished(s, error, responded, endOfRpc))
  {
    hide Times, Range;
    var r := CompleteUnfinished(s, error, responded, endOfRpc);
    forall k: nat ensures Balanced(r, k) {
      assert Balanced(s, k);
      TimesSnoc(s.hist.log, r.hist.log[|s.hist.log|], k);
    }
  }

  ghost function Finish(s: Rpc): Rpc {
    s.(ended := true, hist := s.hist.(doneRuns := s.hist.doneRuns + 1))
  }

  lemma CurrentOver(s: Rpc, error: int, responded: bool)
    requires Running(s) && s.unfinished.None?
    ensures Over(Finish(CompleteCurrent(s, error, responded, true)))
  {
    hide Times, Range;
    var r := CompleteCurrent(s, error, responded, true);
    forall k: nat ensures Settled(r, k) && Settled(Finish(r), k) {
      assert Balanced(s, k);
      TimesSnoc(s.hist.log, r.hist.log[|s.hist.log|], k);
    }
  }

  lemma UnfinishedOver(s: Rpc, responded: bool)
    requires Running(s) && s.unfinished.Some?
    ensures Over(Finish(EndByUnfinished(s, Version(s.unfinished.value.nretry), responded)))
  {
    hide Times, Range;
    var r := EndByUnfinished(s, Version(s.unfinished.value.nretry), responded);
    var n := |s.hist.log|;
    assert r.hist.log == s.hist.log + [r.hist.log[n]] + [r.hist.log[n + 1]];
    forall k: nat ensures Settled(Finish(r), k) {
      assert Balanced(s, k);
      TimesSnoc(s.hist.log, r.hist.log[n], k);
      TimesSnoc(s.hist.log + [r.hist.log[n]], r.hist.log[n + 1], k);
    }
  }

  lemma EndRpcOver(s: Rpc, id: Id, responded: bool)
    requires Running(s) && (id == Base || IsOpen(s, id))
    ensures Over(EndRpc(s, id, responded))
  {
    hide Running, Over, CompleteCurrent, EndByUnfinished;
    var q := StopTimer(s);
    RunningCarriesOver(s, q);
    if id == Base || id == Version(s.cur.nretry) {
      if s.unfinished.None? {
        CurrentOver(q, q.error, responded);
      } else {
        var error := if s.error == 0 then EBACKUPREQUEST else s.error;
        UnfinishedRuns(q, error, false, false);
        CurrentOver(CompleteUnfinished(q, error, false, false), q.error, responded);
      }
    } else {
      UnfinishedOver(q, responded);
    }
  }

  // ---- Timers and limits ----

  /** At most one unfired timer is armed, and _timeout_id names it; once the
      backup request is out it can only be the timeout. */
  ghost predicate OneTimer(s: Rpc) {
    && (forall t <- s.clock.timers :: t == s.clock.timerId != 0)
    && (s.unfinished.Some? ==> forall t <- s.clock.timers :: s.clock.timers[t].kind == Timeout)
  }

  /** An RPC with a timeout has a timer armed when CallMethod got as far as
      arming it, and none otherwise. */
  ghost predicate Guarded(c: Config, s: Rpc) {
    && (s.first == 0 && c.timeoutMs >= 0 ==> s.clock.timerId in s.clock.timers)
    && (s.first != 0 ==> NoTimer(s))
  }

  ghost predicate NoTimer(s: Rpc) {
    forall t: nat :: t !in s.clock.timers
  }

  ghost predicate WithinDeadline(s: Rpc) {
    s.clock.deadline >= 0 ==> forall l <- s.clock.limits :: l <= s.clock.deadline
  }

  ghost predicate Timed(c: Config, s: Rpc) {
    OneTimer(s) && Guarded(c, s) && WithinDeadline(s)
  }

  /** As `Timed`, while an error is being handled: the timer that reports it
      has fired. */
  ghost predicate TimedAt(c: Config, s: Rpc) {
    && OneTimer(s) && WithinDeadline(s)
    && (s.error == EBACKUPREQUEST ==> NoTimer(s) && s.first == 0)
    && (s.error != EBACKUPREQUEST && s.error in c.retriable ==> Guarded(c, s))
  }

  /** What no step of an RPC changes. */
  ghost predicate Fixed(s: Rpc, t: Rpc) {
    s.maxRetry == t.maxRetry && s.clock.deadline == t.clock.deadline && s.first == t.first
  }

  // ---- One step ----

  /** The retry policy does not retry a success or an error of the whole RPC,
      and no send fails with the code of the backup timer. */
  ghost predicate Sane(c: Config) {
    && 0 !in c.retriable && ECANCELED !in c.retriable && ERPCTIMEDOUT !in c.retriable
    && c.timerRc != EBACKUPREQUEST && c.rearmRc != EBACKUPREQUEST
    && forall i :: 0 <= i < |c.sends| ==> c.sends[i].Sent? || c.sends[i].error != EBACKUPREQUEST
  }

  /** Where an RPC is after an event: over, or running with no error set. */
  ghost predicate Good(c: Config, s: Rpc) {
    if s.ended then Over(s) else Running(s) && s.error == 0
  }

  ghost predicate GoodTimers(c: Config, s: Rpc) {
    WithinDeadline(s) && if s.ended then NoTimer(s) else Timed(c, s)
  }

  lemma AttemptFrame(c: Config, s: Rpc)
    requires Sane(c)
    ensures var a := Attempt(c, s);
            && Fixed(s, a) && a.cur.nretry == s.cur.nretry && a.error != EBACKUPREQUEST
            && a.clock.timers == s.clock.timers && a.clock.timerId == s.clock.timerId && a.unfinished == s.unfinished
            && (a.clock.limits == s.clock.limits || a.clock.limits == s.clock.limits + ConnectLimit(c, s))
  {
    hide ConnectLimit;
    assert ConnectLimit(c, Begun(s)) == ConnectLimit(c, s) by { ConnectLimitDepends(c, s, Begun(s)); }
  }

  lemma ConnectLimitDepends(c: Config, s: Rpc, t: Rpc)
    requires s.cur.nretry == t.cur.nretry && s.clock == t.clock
    ensures ConnectLimit(c, s) == ConnectLimit(c, t)
  {
  }

  lemma AttemptTimers(c: Config, s: Rpc)
    requires Sane(c)
    ensures var a := Attempt(c, s);
            && Fixed(s, a) && a.cur.nretry == s.cur.nretry && a.error != EBACKUPREQUEST
            && (Timed(c, s) ==> Timed(c, a))
  {
    hide Attempt;
    AttemptFrame(c, s);
  }

  lemma EndRpcFrame(s: Rpc, id: Id, responded: bool)
    ensures var r := EndRpc(s, id, responded);
            && r.ended && r.error == s.error && Fixed(s, r) && r.cur.nretry == s.cur.nretry
            && r.clock == StopTimer(s).clock
  {
  }

  lemma EndRpcTimers(s: Rpc, id: Id, responded: bool)
    ensures var r := EndRpc(s, id, responded);
            && r.ended && r.error == s.error && Fixed(s, r)
            && (WithinDeadline(s) ==> WithinDeadline(r))
            && (OneTimer(s) ==> NoTimer(r))
  {
    hide EndRpc;
    EndRpcFrame(s, id, responded);
  }

  lemma {:induction false} IssueKeeps(c: Config, s: Rpc)
    requires Sane(c) && ToIssue(s)
    ensures var r := Issue(c, s);
            && Good(c, r) && Fixed(s, r) && (r.ended ==> r.error != 0 && r.error != EBACKUPREQUEST)
            && (Timed(c, s) ==> GoodTimers(c, r))
    decreases s.maxRetry - s.cur.nretry, 3
  {
    hide Attempt, Running, Over, Timed, ToIssue, SendFailed, Conclude;
    AttemptRuns(c, s);
    AttemptTimers(c, s);
    var a := Attempt(c, s);
    RunningNotEnded(a);
    if a.error != 0 {
      assert Timed(c, s) ==> TimedAt(c, a) by { TimedIsTimedAt(c, a); }
      ConcludeKeeps(c, a, Version(a.cur.nretry), false);
      SendFailedConcludes(c, a);
    } else {
      assert Timed(c, a) ==> GoodTimers(c, a) by { TimedIsTimedAt(c, a); }
    }
  }

  lemma SendFailedConcludes(c: Config, s: Rpc)
    ensures SendFailed(c, s) == Conclude(c, s, Version(s.cur.nretry), false)
  {
    hide Conclude;
    assert SendFailed(c, s) == Returned(c, s, Version(s.cur.nretry), false, s.error);
  }

  lemma RunningNotEnded(s: Rpc)
    requires Running(s)
    ensures !s.ended
  {
  }

  lemma TimedIsTimedAt(c: Config, s: Rpc)
    ensures Timed(c, s) && s.error != EBACKUPREQUEST ==> TimedAt(c, s)
    ensures Timed(c, s) && !s.ended ==> GoodTimers(c, s)
  {
  }

  lemma {:induction false} ConcludeKeeps(c: Config, s: Rpc, id: Id, responded: bool)
    requires Sane(c) && Running(s) && (id == Base || IsOpen(s, id))
    requires s.error == EBACKUPREQUEST ==> s.unfinished.None?
    requires s.error != EBACKUPREQUEST && s.error in c.retriable ==> id == Version(s.cur.nretry)
    ensures var r := Conclude(c, s, id, responded);
            && Good(c, r) && Fixed(s, r)
            && (s.error == 0 ==> r.ended)
            && (r.ended ==> (r.error == 0 <==> s.error == 0))
            && (r.ended && r.error == EBACKUPREQUEST <==> s.error == EBACKUPREQUEST && s.cur.nretry >= s.maxRetry)
            && (TimedAt(c, s) ==> GoodTimers(c, r))
    decreases s.maxRetry - s.cur.nretry, 0
  {
    hide Issue, EndRpc, BackedUp, Retried, Running, Over, ToIssue;
    if (s.error == 0 && !c.userPolicy) || s.cur.nretry >= s.maxRetry {
      EndKeeps(c, s, id, responded);
    } else if s.error == EBACKUPREQUEST {
      if c.timeoutMs >= 0 && c.rearmRc != 0 {
        var f := SetFailed(s, c.rearmRc);
        RunningCarriesOver(s, f);
        EndKeeps(c, f, id, responded);
      } else {
        BackedUpToIssue(c, s);
        BackedUpTimers(c, s);
        IssueKeeps(c, BackedUp(c, s));
      }
    } else if s.error in c.retriable {
      RetriedToIssue(s, responded);
      RetriedTimers(c, s, responded);
      IssueKeeps(c, Retried(s, id, responded));
    } else {
      EndKeeps(c, s, id, responded);
    }
  }

  lemma EndKeeps(c: Config, s: Rpc, id: Id, responded: bool)
    requires Running(s) && (id == Base || IsOpen(s, id))
    ensures var r := EndRpc(s, id, responded);
            && r.ended && r.error == s.error && Fixed(s, r) && Over(r)
            && (OneTimer(s) && WithinDeadline(s) ==> GoodTimers(c, r))
  {
    hide EndRpc, Running, Over, OneTimer, WithinDeadline;
    EndRpcOver(s, id, responded);
    EndRpcTimers(s, id, responded);
  }

  lemma BackedUpTimers(c: Config, s: Rpc)
    ensures var r := BackedUp(c, s);
            && Fixed(s, r) && r.cur.nretry == s.cur.nretry + 1
            && (WithinDeadline(s) && NoTimer(s) && s.first == 0 ==> Timed(c, r))
  {
  }

  lemma RetriedTimers(c: Config, s: Rpc, responded: bool)
    ensures var r := Retried(s, Version(s.cur.nretry), responded);
            && Fixed(s, r) && r.cur.nretry == s.cur.nretry + 1
            && (Timed(c, s) ==> Timed(c, r))
  {
  }

  lemma {:induction false} ReturnedKeeps(c: Config, s: Rpc, id: Id, responded: bool)
    requires Sane(c) && Running(s)
    requires s.error == EBACKUPREQUEST && (id == Base || id == Version(s.cur.nretry)) ==> s.unfinished.None?
    requires s.error != EBACKUPREQUEST && s.error in c.retriable ==> id != Base
    ensures var r := Returned(c, s, id, responded, 0);
            && Good(c, r) && Fixed(s, r)
            && (r.ended ==> (id == Base || IsOpen(s, id)) && (r.error == 0 <==> s.error == 0))
            && (s.error == 0 && (id == Base || IsOpen(s, id)) ==> r.ended)
            && (r.ended && r.error == EBACKUPREQUEST <==>
                s.error == EBACKUPREQUEST && s.cur.nretry >= s.maxRetry && (id == Base || id == Version(s.cur.nretry)))
            && (TimedAt(c, s) && (id != Base ==> Timed(c, s)) ==> GoodTimers(c, r))
  {
    hide Conclude, Running, Over, TimedAt;
    var r := Returned(c, s, id, responded, 0);
    RunningNotEnded(s);
    if id == Base || id == Version(s.cur.nretry) {
      ConcludeKeeps(c, s, id, responded);
    } else if s.unfinished.None? || id != Version(s.unfinished.value.nretry) {
      RunningCarriesOver(s, r);
    } else if s.error == 0 {
      ConcludeKeeps(c, s, id, responded);
    } else {
      UnfinishedRuns(s, s.error, responded, false);
      RunningCarriesOver(CompleteUnfinished(s, s.error, responded, false), r);
    }
  }
}
