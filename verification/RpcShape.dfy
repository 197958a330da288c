/** What holds of every run of an RPC whatever its peers answer, even after a
    failed CHECK: how versions are numbered, how the RPC ends, and that a
    version once left behind stays so. */
module RpcShape {
  import opened Bytes
  import opened RpcMachine
  import opened RpcProofs

  /** The versions issued are consecutive and end with the current one. */
  ghost predicate Numbered(s: Rpc) {
    && s.first <= 1 && s.cur.nretry <= s.maxRetry
    && s.hist.issued == Range(s.first, s.cur.nretry + 1)
  }

  ghost predicate ToNumber(s: Rpc) {
    && s.first <= 1 && s.first <= s.cur.nretry <= s.maxRetry
    && s.hist.issued == Range(s.first, s.cur.nretry)
  }

  /** Version `k` is neither current nor outstanding, and will not be again. */
  predicate Past(s: Rpc, k: nat) {
    k < s.cur.nretry && (s.unfinished.Some? ==> s.unfinished.value.nretry != k)
  }

  /** The RPC runs on without error, or has ended with one. */
  ghost predicate Outcome(c: Config, s: Rpc, r: Rpc) {
    && Numbered(r) && Fixed(s, r)
    && (r.ended <==> r.error != 0)
    && (forall k: nat :: Past(s, k) ==> Past(r, k))
    && r.hist.checksFailed >= s.hist.checksFailed
  }

  lemma AttemptShape(c: Config, s: Rpc)
    requires ToNumber(s) && !s.ended
    ensures var a := Attempt(c, s);
            && Numbered(a) && Fixed(s, a) && !a.ended && a.cur.nretry == s.cur.nretry && a.unfinished == s.unfinished
            && a.hist.checksFailed == s.hist.checksFailed
            && (Sane(c) ==> a.error != EBACKUPREQUEST)
  {
    hide ConnectLimit;
  }

  lemma {:induction false} IssueShape(c: Config, s: Rpc)
    requires ToNumber(s) && !s.ended
    ensures var r := Issue(c, s); Outcome(c, s, r) && (Sane(c) && r.ended ==> r.error != EBACKUPREQUEST)
    decreases s.maxRetry - s.cur.nretry, 1
  {
    hide Attempt, SendFailed, Conclude, Numbered, ToNumber;
    AttemptShape(c, s);
    var a := Attempt(c, s);
    if a.error != 0 {
      SendFailedConcludes(c, a);
      ConcludeShape(c, a, Version(a.cur.nretry), false);
    }
  }

  /** Completing calls settles them and changes nothing else. */
  ghost predicate Completes(s: Rpc, r: Rpc) {
    && r.error == s.error && Fixed(s, r) && r.cur.nretry == s.cur.nretry && r.ended == s.ended
    && r.hist.issued == s.hist.issued && (r.unfinished == s.unfinished || r.unfinished == None)
    && r.hist.checksFailed >= s.hist.checksFailed
  }

  lemma EndByCurrentShape(s: Rpc, responded: bool)
    ensures Completes(s, EndByCurrent(s, responded))
  {
  }

  lemma EndByUnfinishedShape(s: Rpc, id: Id, responded: bool)
    ensures Completes(s, EndByUnfinished(s, id, responded))
  {
  }

  lemma EndShape(s: Rpc, id: Id, responded: bool)
    ensures var r := EndRpc(s, id, responded); r.ended && Completes(s, r.(ended := s.ended))
  {
    hide EndByCurrent, EndByUnfinished;
    var q := StopTimer(s);
    EndByCurrentShape(q, responded);
    EndByUnfinishedShape(q, id, responded);
  }

  lemma BackedUpShape(c: Config, s: Rpc)
    requires Numbered(s) && s.cur.nretry < s.maxRetry
    ensures var r := BackedUp(c, s);
            && ToNumber(r) && Fixed(s, r) && r.ended == s.ended && r.cur.nretry == s.cur.nretry + 1
            && (forall k: nat :: Past(s, k) ==> Past(r, k))
            && r.hist.checksFailed == s.hist.checksFailed + if s.unfinished.None? then 0 else 1
  {
  }

  lemma RetriedShape(s: Rpc, id: Id, responded: bool)
    requires Numbered(s) && s.cur.nretry < s.maxRetry
    ensures var r := Retried(s, id, responded);
            && ToNumber(r) && Fixed(s, r) && r.ended == s.ended && r.cur.nretry == s.cur.nretry + 1
            && (forall k: nat :: Past(s, k) ==> Past(r, k))
            && r.hist.checksFailed >= s.hist.checksFailed
  {
  }

  lemma {:induction false} ConcludeShape(c: Config, s: Rpc, id: Id, responded: bool)
    requires Numbered(s) && !s.ended
    ensures var r := Conclude(c, s, id, responded);
            && Numbered(r) && Fixed(s, r) && r.hist.checksFailed >= s.hist.checksFailed
            && (forall k: nat :: Past(s, k) ==> Past(r, k))
            && (s.error != 0 ==> (r.ended <==> r.error != 0))
            && (s.error == 0 && 0 !in c.retriable ==> r.ended && r.error == 0)
            && (Sane(c) ==> (r.ended && r.error == EBACKUPREQUEST <==>
                             s.error == EBACKUPREQUEST && s.cur.nretry >= s.maxRetry))
    decreases s.maxRetry - s.cur.nretry, 0
  {
    hide Issue, EndRpc, BackedUp, Retried, ToNumber, Range;
    if (s.error == 0 && !c.userPolicy) || s.cur.nretry >= s.maxRetry {
      EndShape(s, id, responded);
    } else if s.error == EBACKUPREQUEST {
      if c.timeoutMs >= 0 && c.rearmRc != 0 {
        EndShape(SetFailed(s, c.rearmRc), id, responded);
      } else {
        BackedUpShape(c, s);
        IssueShape(c, BackedUp(c, s));
      }
    } else if s.error in c.retriable {
      RetriedShape(s, id, responded);
      IssueShape(c, Retried(s, id, responded));
    } else {
      EndShape(s, id, responded);
    }
  }

  // ---- One event ----

  /** A successful answer to the current or the backed-up version. */
  ghost predicate Success(s: Rpc, e: Event) {
    e.Response? && e.error == 0 && IsOpen(s, Version(e.nretry))
  }

  /** The event hands EBACKUPREQUEST to the RPC: a peer reports it for the
      current version, or the backup timer fires. */
  predicate Delivers(s: Rpc, e: Event) {
    || ((e.Response? || e.SocketFailed?) && e.error == EBACKUPREQUEST && e.nretry == s.cur.nretry)
    || (e.Fire? && e.timer in s.clock.timers && s.clock.timers[e.timer].kind == Backup)
  }

  /** As an RPC stands between events. */
  ghost predicate Steady(s: Rpc) {
    Numbered(s) && (!s.ended ==> s.error == 0)
  }

  lemma ReturnedShape(c: Config, s: Rpc, id: Id, responded: bool)
    requires Numbered(s) && !s.ended
    ensures var r := Returned(c, s, id, responded, 0);
            && Numbered(r) && Fixed(s, r) && r.hist.checksFailed >= s.hist.checksFailed
            && (forall k: nat :: Past(s, k) ==> Past(r, k))
            && (s.error != 0 ==> (r.ended <==> r.error != 0))
            && (s.error == 0 && 0 !in c.retriable ==>
                if id == Base || IsOpen(s, id) then r.ended && r.error == 0 else !r.ended && r.error == 0)
            && (Sane(c) ==> (r.ended && r.error == EBACKUPREQUEST <==>
                             && s.error == EBACKUPREQUEST && s.cur.nretry >= s.maxRetry
                             && (id == Base || id == Version(s.cur.nretry))))
  {
    hide Conclude, Range;
    ConcludeShape(c, s, id, responded);
  }

  lemma StepShape(c: Config, s: Rpc, e: Event)
    requires Sane(c) && Steady(s) && !s.ended
    ensures var r := Step(c, s, e);
            && Steady(r) && Fixed(s, r) && r.hist.checksFailed >= s.hist.checksFailed
            && (forall k: nat :: Past(s, k) ==> Past(r, k))
            && (r.ended && r.error == 0 <==> Success(s, e))
            && (r.ended && r.error == EBACKUPREQUEST <==> Delivers(s, e) && s.cur.nretry >= s.maxRetry)
  {
    hide Returned, Range;
    match e {
      case Response(n, error) =>
        ReturnedShape(c, if error == 0 then s else SetFailed(s, error), Version(n), true);
      case SocketFailed(n, error) =>
        ReturnedShape(c, SetFailed(s, error), Version(n), false);
      case Fire(t) =>
        if t in s.clock.timers {
          var code := if s.clock.timers[t].kind == Backup then EBACKUPREQUEST else ERPCTIMEDOUT;
          ReturnedShape(c, SetFailed(Fired(s, t), code), Base, false);
        }
      case Cancel =>
        ReturnedShape(c, SetFailed(s, ECANCELED), Base, false);
    }
  }

  // ---- CallMethod ----

  lemma FreshNumbered(maxRetry: nat)
    ensures ToNumber(Fresh(maxRetry)) && Numbered(Fresh(maxRetry).(first := 1))
  {
    assert Range(1, 1) == [] == Range(0, 0);
  }

  lemma StartShape(c: Config, maxRetry: nat, start: int, early: Option<int>, stream: bool)
    ensures var s := CallMethod(c, maxRetry, start, early, stream);
            && Steady(s) && s.maxRetry <= maxRetry && s.hist.checksFailed >= 0
            && (s.ended ==> s.error != 0)
            && (Sane(c) ==> (s.ended && s.error == EBACKUPREQUEST <==> early == Some(EBACKUPREQUEST) && maxRetry == 0))
  {
    hide Issue, Conclude, SendFailed, Numbered, ToNumber, StartTimed;
    FreshNumbered(maxRetry);
    if early.Some? {
      FailedShape(c, Fresh(maxRetry).(first := 1), early.value);
    } else {
      var m := if stream then 0 else maxRetry;
      var s := Fresh(m).(clock := Clock(if c.timeoutMs < 0 then -1 else c.timeoutMs * 1000 + start, 0, map[], 0, []));
      FreshNumbered(m);
      SameNumbers(Fresh(m), s);
      TimedShape(c, s, Timer(Backup, c.backupMs * 1000 + start));
      TimedShape(c, s, Timer(Timeout, s.clock.deadline));
      IssueShape(c, s);
    }
  }

  lemma SameNumbers(s: Rpc, t: Rpc)
    requires SameCalls(s, t)
    ensures ToNumber(s) ==> ToNumber(t)
    ensures Numbered(s) ==> Numbered(t)
  {
  }

  lemma FailedShape(c: Config, s: Rpc, error: int)
    requires Numbered(s) && !s.ended
    ensures var r := SendFailed(c, SetFailed(s, error));
            && Steady(r) && Fixed(s, r) && (r.ended ==> r.error != 0)
            && (Sane(c) ==> (r.ended && r.error == EBACKUPREQUEST <==>
                             error == EBACKUPREQUEST && s.cur.nretry >= s.maxRetry))
  {
    hide Conclude, Range;
    SendFailedConcludes(c, SetFailed(s, error));
    ConcludeShape(c, SetFailed(s, error), Version(s.cur.nretry), false);
  }

  lemma TimedShape(c: Config, s: Rpc, t: Timer)
    requires ToNumber(s) && !s.ended && s == Fresh(s.maxRetry).(clock := s.clock)
    ensures var r := StartTimed(c, s, t);
            && Steady(r) && r.maxRetry == s.maxRetry && (r.ended ==> r.error != 0)
            && (Sane(c) && r.ended ==> r.error != EBACKUPREQUEST)
  {
    hide Issue, SendFailed, Range;
    if c.timerRc != 0 {
      FreshNumbered(s.maxRetry);
      FailedShape(c, s.(first := 1), c.timerRc);
    } else {
      IssueShape(c, AddTimer(s, t));
    }
  }

  // ---- Runs ----

  lemma {:induction false} RunShape(c: Config, s: Rpc, events: seq<Event>)
    requires Sane(c) && Steady(s)
    ensures var r := Run(c, s, events);
            && Steady(r) && Fixed(s, r) && r.hist.checksFailed >= s.hist.checksFailed
            && (forall k: nat :: Past(s, k) ==> Past(r, k))
  {
    hide Step, Steady;
    if events != [] {
      var n := |events| - 1;
      var t := Run(c, s, events[..n]);
      RunShape(c, s, events[..n]);
      if t.ended {
        EndedStays(c, t, events[n]);
      } else {
        StepShape(c, t, events[n]);
      }
    }
  }

  lemma EndedStays(c: Config, s: Rpc, e: Event)
    requires s.ended
    ensures Step(c, s, e) == s
  {
  }

  /** Numbering needs nothing of the codes and of the retry policy. */
  lemma ReturnedNumbers(c: Config, s: Rpc, id: Id, responded: bool, saved: int)
    requires Numbered(s) && !s.ended
    ensures Numbered(Returned(c, s, id, responded, saved)) && Fixed(s, Returned(c, s, id, responded, saved))
  {
    hide Conclude, Range;
    ConcludeShape(c, s, id, responded);
  }

  lemma StepNumbers(c: Config, s: Rpc, e: Event)
    requires Numbered(s)
    ensures Numbered(Step(c, s, e)) && Fixed(s, Step(c, s, e))
  {
    hide Returned, Range;
    if !s.ended {
      match e {
        case Response(n, error) =>
          ReturnedNumbers(c, if error == 0 then s else SetFailed(s, error), Version(n), true, s.error);
        case SocketFailed(n, error) =>
          ReturnedNumbers(c, SetFailed(s, error), Version(n), false, s.error);
        case Fire(t) =>
          if t in s.clock.timers {
            var code := if s.clock.timers[t].kind == Backup then EBACKUPREQUEST else ERPCTIMEDOUT;
            ReturnedNumbers(c, SetFailed(Fired(s, t), code), Base, false, s.error);
          }
        case Cancel =>
          ReturnedNumbers(c, SetFailed(s, ECANCELED), Base, false, s.error);
      }
    }
  }

  lemma {:induction false} RunNumbers(c: Config, s: Rpc, events: seq<Event>)
    requires Numbered(s)
    ensures Numbered(Run(c, s, events)) && Fixed(s, Run(c, s, events))
  {
    hide Step, Numbered;
    if events != [] {
      var n := |events| - 1;
      RunNumbers(c, s, events[..n]);
      StepNumbers(c, Run(c, s, events[..n]), events[n]);
    }
  }
}
