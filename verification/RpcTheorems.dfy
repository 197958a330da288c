/** The promises of an RPC, over every run of responses, socket failures,
    timers and cancellations. */
module RpcTheorems {
  import opened Bytes
  import opened RpcMachine
  import opened RpcProofs
  import opened RpcShape

  /** Only the backup timer reports EBACKUPREQUEST. */
  predicate Genuine(e: Event) {
    (e.Response? || e.SocketFailed?) ==> e.error != EBACKUPREQUEST
  }

  lemma StepKeeps(c: Config, s: Rpc, e: Event)
    requires Sane(c) && Good(c, s) && GoodTimers(c, s) && Genuine(e)
    ensures var r := Step(c, s, e); Good(c, r) && GoodTimers(c, r) && Fixed(s, r)
  {
    hide Returned, Running, Over;
    if !s.ended {
      RunningFirst(s);
      match e {
        case Response(n, error) =>
          var f := if error == 0 then s else SetFailed(s, error);
          RunningCarriesOver(s, f);
          ReturnedKeeps(c, f, Version(n), true);
        case SocketFailed(n, error) =>
          RunningCarriesOver(s, SetFailed(s, error));
          ReturnedKeeps(c, SetFailed(s, error), Version(n), false);
        case Fire(t) =>
          if t in s.clock.timers {
            var code := if s.clock.timers[t].kind == Backup then EBACKUPREQUEST else ERPCTIMEDOUT;
            var f := SetFailed(Fired(s, t), code);
            RunningCarriesOver(s, f);
            ReturnedKeeps(c, f, Base, false);
          }
        case Cancel =>
          RunningCarriesOver(s, SetFailed(s, ECANCELED));
          ReturnedKeeps(c, SetFailed(s, ECANCELED), Base, false);
      }
    }
  }

  lemma RunningFirst(s: Rpc)
    requires Running(s)
    ensures s.first <= 1
  {
  }

  lemma FreshRuns(maxRetry: nat, first: nat)
    requires first <= 1
    ensures var s := Fresh(maxRetry).(first := first);
            if first == 1 then Running(s) else ToIssue(s)
  {
    var s := Fresh(maxRetry).(first := first);
    assert Range(0, 1) == [0] && Range(1, 1) == [] == Range(0, 0);
    forall k: nat ensures Balanced(CurrentIssued(s), k) && Balanced(s, k) {
    }
  }

  /** A failure before the first IssueRPC. */
  lemma FailedStart(c: Config, s: Rpc, error: int)
    requires Sane(c)
    requires Running(s) && s.unfinished.None? && s.first == 1 && NoTimer(s) && WithinDeadline(s)
    ensures var r := SendFailed(c, SetFailed(s, error));
            Good(c, r) && Fixed(s, r) && (error != EBACKUPREQUEST ==> GoodTimers(c, r))
  {
    hide Running, Over, Conclude;
    var f := SetFailed(s, error);
    RunningCarriesOver(s, f);
    ConcludeKeeps(c, f, Version(f.cur.nretry), false);
    SendFailedConcludes(c, f);
  }

  lemma StartTimedKeeps(c: Config, s: Rpc, t: Timer)
    requires Sane(c) && ToIssue(s) && s == Fresh(s.maxRetry).(clock := s.clock)
    requires s.clock == Clock(s.clock.deadline, 0, map[], 0, [])
    requires s.clock.deadline >= 0 ==> t.at <= s.clock.deadline
    ensures var r := StartTimed(c, s, t);
            Good(c, r) && GoodTimers(c, r) && Fixed(if c.timerRc == 0 then s else s.(first := 1), r)
  {
    hide Running, Over, SendFailed, Issue, ToIssue;
    if c.timerRc != 0 {
      FreshRuns(s.maxRetry, 1);
      RunningCarriesOver(Fresh(s.maxRetry).(first := 1), s.(first := 1));
      FailedStart(c, s.(first := 1), c.timerRc);
    } else {
      ToIssueCarriesOver(s, AddTimer(s, t));
      IssueKeeps(c, AddTimer(s, t));
    }
  }

  lemma ToIssueCarriesOver(s: Rpc, t: Rpc)
    requires ToIssue(s) && SameCalls(s, t)
    ensures ToIssue(t)
  {
    hide Running;
    RunningCarriesOver(CurrentIssued(s), CurrentIssued(t));
  }

  /** How an RPC stands when CallMethod returns. The deadline is the start plus
      the timeout, unless the call failed before it was computed; `first` is 0
      exactly when the first version was issued with its timer armed. */
  lemma CallMethodKeeps(c: Config, maxRetry: nat, start: nat, early: Option<int>, stream: bool)
    requires Sane(c)
    ensures var s := CallMethod(c, maxRetry, start, early, stream);
            && Good(c, s) && s.maxRetry <= maxRetry
            && (early != Some(EBACKUPREQUEST) ==> GoodTimers(c, s))
            && s.clock.deadline == (if early.Some? || c.timeoutMs < 0 then -1 else c.timeoutMs * 1000 + start)
            && (c.timeoutMs >= 0 ==> (s.first == 0 <==> early.None? && c.timerRc == 0))
  {
    hide Good, GoodTimers, Issue, SendFailed, StartTimed, ToIssue, Running;
    var f := Fresh(maxRetry);
    if early.Some? {
      FreshRuns(maxRetry, 1);
      FailedStart(c, f.(first := 1), early.value);
    } else {
      var m := if stream then 0 else maxRetry;
      var backupMs := if stream then -1 else c.backupMs;
      FreshRuns(m, 0);
      var s := Fresh(m).(clock := Clock(if c.timeoutMs < 0 then -1 else c.timeoutMs * 1000 + start, 0, map[], 0, []));
      ToIssueCarriesOver(Fresh(m), s);
      if backupMs >= 0 && (backupMs < c.timeoutMs || c.timeoutMs < 0) {
        StartTimedKeeps(c, s, Timer(Backup, backupMs * 1000 + start));
      } else if c.timeoutMs >= 0 {
        StartTimedKeeps(c, s, Timer(Timeout, s.clock.deadline));
      } else {
        IssueKeeps(c, s);
      }
    }
  }

  lemma {:induction false} RunKeeps(c: Config, s: Rpc, events: seq<Event>)
    requires Sane(c) && Good(c, s) && GoodTimers(c, s) && forall e <- events :: Genuine(e)
    ensures var r := Run(c, s, events); Good(c, r) && GoodTimers(c, r) && Fixed(s, r)
  {
    hide Good, GoodTimers, Step;
    if events != [] {
      var n := |events| - 1;
      RunKeeps(c, s, events[..n]);
      StepKeeps(c, Run(c, s, events[..n]), events[n]);
    }
  }

  // ---- The theorems ----

  /** An event that hands EBACKUPREQUEST to the RPC while a backed-up call is
      outstanding, a retry is left and the timer can be armed again. */
  predicate Trips(c: Config, s: Rpc, e: Event) {
    && !s.ended && Delivers(s, e)
    && s.unfinished.Some? && s.cur.nretry < s.maxRetry && !(c.timeoutMs >= 0 && c.rearmRc != 0)
  }

  lemma SecondBackup(c: Config, s: Rpc, id: Id, responded: bool)
    requires Running(s) && s.error == EBACKUPREQUEST && s.unfinished.Some?
    requires id == Base || id == Version(s.cur.nretry)
    ensures var r := Conclude(c, s, id, responded);
            if s.cur.nretry < s.maxRetry && !(c.timeoutMs >= 0 && c.rearmRc != 0) then r.hist.checksFailed != 0
            else Good(c, r)
  {
    hide Issue, Running, Over, BackedUp, EndRpc;
    if s.cur.nretry >= s.maxRetry || (c.timeoutMs >= 0 && c.rearmRc != 0) {
      var f := if s.cur.nretry >= s.maxRetry then s else SetFailed(s, c.rearmRc);
      RunningCarriesOver(s, f);
      EndKeeps(c, f, id, responded);
    } else {
      RunningNumbered(s);
      BackedUpShape(c, s);
      IssueShape(c, BackedUp(c, s));
    }
  }

  lemma RunningNumbered(s: Rpc)
    requires Running(s)
    ensures Numbered(s) && !s.ended && s.hist.checksFailed == 0
  {
  }

  lemma GoodNoChecks(c: Config, s: Rpc)
    requires Good(c, s)
    ensures s.hist.checksFailed == 0
  {
  }

  /** Whatever the peers answer: in a state whose accounts are in order an event
      makes a CHECK fail if and only if it trips, and otherwise it leaves the
      accounts in order. */
  lemma CheckFailsIff(c: Config, s: Rpc, e: Event)
    requires Sane(c) && Good(c, s)
    ensures var r := Step(c, s, e);
            && (r.hist.checksFailed != 0 <==> Trips(c, s, e))
            && (!Trips(c, s, e) ==> Good(c, r))
  {
    hide Running, Over, Conclude, Returned;
    GoodNoChecks(c, s);
    if !s.ended {
      match e {
        case Response(n, error) =>
          FailureAccounts(c, s, if error == 0 then s else SetFailed(s, error), Version(n), true);
        case SocketFailed(n, error) =>
          FailureAccounts(c, s, SetFailed(s, error), Version(n), false);
        case Fire(t) =>
          if t in s.clock.timers {
            var code := if s.clock.timers[t].kind == Backup then EBACKUPREQUEST else ERPCTIMEDOUT;
            FailureAccounts(c, s, SetFailed(Fired(s, t), code), Base, false);
          }
        case Cancel =>
          FailureAccounts(c, s, SetFailed(s, ECANCELED), Base, false);
      }
    }
  }

  lemma FailureAccounts(c: Config, s: Rpc, f: Rpc, id: Id, responded: bool)
    requires Sane(c) && Running(s) && SameCalls(s, f)
    requires f.error != EBACKUPREQUEST && f.error in c.retriable ==> id != Base
    ensures var r := Returned(c, f, id, responded, 0);
            if && f.error == EBACKUPREQUEST && (id == Base || id == Version(s.cur.nretry)) && s.unfinished.Some?
               && s.cur.nretry < s.maxRetry && !(c.timeoutMs >= 0 && c.rearmRc != 0)
            then r.hist.checksFailed != 0
            else Good(c, r) && r.hist.checksFailed == 0
  {
    hide Running, Over, Conclude;
    RunningCarriesOver(s, f);
    var r := Returned(c, f, id, responded, 0);
    if f.error == EBACKUPREQUEST && (id == Base || id == Version(s.cur.nretry)) && s.unfinished.Some? {
      SecondBackup(c, f, id, responded);
    } else {
      ReturnedKeeps(c, f, id, responded);
    }
    if Good(c, r) {
      GoodNoChecks(c, r);
    }
  }

  /** No event of the run tripped. */
  ghost predicate Untripped(c: Config, s: Rpc, events: seq<Event>) {
    events == [] ||
    var n := |events| - 1;
    Untripped(c, s, events[..n]) && !Trips(c, Run(c, s, events[..n]), events[n])
  }

  lemma GoodIsSteady(c: Config, s: Rpc)
    requires Good(c, s) && s.first <= 1
    ensures Steady(s)
  {
  }

  /** Over any run from a state with accounts in order, the CHECKs hold if and
      only if no event tripped, and then the accounts are in order. */
  lemma {:induction false} RunAccounts(c: Config, s: Rpc, events: seq<Event>)
    requires Sane(c) && Good(c, s) && s.first <= 1
    ensures var r := Run(c, s, events);
            && (r.hist.checksFailed == 0 <==> Untripped(c, s, events))
            && (Untripped(c, s, events) ==> Good(c, r))
  {
    hide Good, Step, Trips;
    GoodNoChecks(c, s);
    if events != [] {
      var n := |events| - 1;
      var t := Run(c, s, events[..n]);
      RunAccounts(c, s, events[..n]);
      GoodIsSteady(c, s);
      RunShape(c, s, events[..n]);
      if Untripped(c, s, events[..n]) {
        CheckFailsIff(c, t, events[n]);
      } else if t.ended {
        EndedStays(c, t, events[n]);
      } else {
        StepShape(c, t, events[n]);
      }
    }
  }

  /** Peers that do not answer EBACKUPREQUEST trip nothing. */
  lemma {:induction false} GenuineUntripped(c: Config, s: Rpc, events: seq<Event>)
    requires Sane(c) && Good(c, s) && GoodTimers(c, s) && forall e <- events :: Genuine(e)
    ensures Untripped(c, s, events)
  {
    hide Good, Step;
    if events != [] {
      var n := |events| - 1;
      assert events[n] in events;
      GenuineUntripped(c, s, events[..n]);
      RunKeeps(c, s, events[..n]);
    }
  }

  /** Whatever the peers answer, the CHECKs of a run hold if and only if no
      event tripped. In such a run, peers that never answer EBACKUPREQUEST
      included: every version that was started is completed exactly once by
      the end of the RPC, its socket is released, its feedback given, no
      unfinished call survives and done runs once; before the end no version
      is completed twice. */
  lemma ExactlyOnce(c: Config, maxRetry: nat, start: nat, early: Option<int>, stream: bool, events: seq<Event>)
    requires Sane(c)
    ensures var s0 := CallMethod(c, maxRetry, start, early, stream);
            var s := Run(c, s0, events);
            && (s.hist.checksFailed == 0 <==> Untripped(c, s0, events))
            && (Untripped(c, s0, events) ==> Settles(s))
            && (early != Some(EBACKUPREQUEST) && (forall e <- events :: Genuine(e)) ==> Untripped(c, s0, events))
  {
    hide Run, CallMethod, Good, GoodTimers, Settles;
    var s0 := CallMethod(c, maxRetry, start, early, stream);
    CallMethodKeeps(c, maxRetry, start, early, stream);
    StartShape(c, maxRetry, start, early, stream);
    RunAccounts(c, s0, events);
    if Untripped(c, s0, events) {
      GoodSettles(c, Run(c, s0, events));
    }
    if early != Some(EBACKUPREQUEST) && forall e <- events :: Genuine(e) {
      GenuineUntripped(c, s0, events);
    }
  }

  /** The accounts, as a caller sees them. */
  ghost predicate Settles(s: Rpc) {
    && (s.ended ==>
        && (forall k: nat :: Times(s.hist.log, k) == if k <= s.cur.nretry then 1 else 0)
        && s.hist.taken == s.hist.released && s.hist.selected == s.hist.fedBack
        && s.unfinished == None && s.hist.doneRuns == 1)
    && (!s.ended ==>
        && (forall k: nat :: Times(s.hist.log, k) == if k <= s.cur.nretry && !IsOpen(s, Version(k)) then 1 else 0)
        && s.hist.doneRuns == 0)
  }

  lemma GoodSettles(c: Config, s: Rpc)
    requires Good(c, s)
    ensures Settles(s)
  {
    hide Times;
    if s.ended {
      forall k: nat
        ensures Times(s.hist.log, k) == if k <= s.cur.nretry then 1 else 0
        ensures s.hist.selected[k] == s.hist.fedBack[k]
      {
        assert Settled(s, k);
      }
      assert s.hist.selected == s.hist.fedBack;
    } else {
      forall k: nat ensures Times(s.hist.log, k) == if k <= s.cur.nretry && !IsOpen(s, Version(k)) then 1 else 0 {
        assert Balanced(s, k);
      }
    }
  }

  lemma {:induction false} RangeIs(a: nat, b: nat)
    ensures |Range(a, b)| == if b <= a then 0 else b - a
    ensures forall i :: 0 <= i < |Range(a, b)| ==> Range(a, b)[i] == a + i
  {
    if b > a {
      RangeIs(a, b - 1);
    }
  }

  /** Whatever the peers answer: the versions issued are consecutive from 0, or
      from 1 when the call failed before the first was issued; there are at
      most max_retry + 1, and the id of each lies within the 2 + max_retry ids
      reserved when CallMethod starts, even when the request opens a stream and
      max_retry is lowered. */
  lemma BoundedAttempts(c: Config, ofController: int, ofChannel: int, start: int, early: Option<int>, stream: bool,
                        events: seq<Event>)
    ensures var maxRetry := EffectiveMaxRetry(ofController, ofChannel);
            var s := Run(c, CallMethod(c, maxRetry, start, early, stream), events);
            && 2 + maxRetry <= ID_MAX_RANGE
            && |s.hist.issued| < 2 + maxRetry
            && forall i :: 0 <= i < |s.hist.issued| ==>
                 s.hist.issued[i] == s.first + i && s.hist.issued[i] + 1 < 2 + maxRetry
  {
    hide Run, CallMethod, Range;
    var maxRetry := EffectiveMaxRetry(ofController, ofChannel);
    var s0 := CallMethod(c, maxRetry, start, early, stream);
    StartShape(c, maxRetry, start, early, stream);
    RunNumbers(c, s0, events);
    var s := Run(c, s0, events);
    RangeIs(s.first, s.cur.nretry + 1);
  }

  // ---- Stale completions ----

  /** A completion of a version that is neither current nor outstanding. */
  ghost predicate Stale(s: Rpc, e: Event) {
    (e.Response? || e.SocketFailed?) && !IsOpen(s, Version(e.nretry))
  }

  lemma StaleIsInert(c: Config, s: Rpc, e: Event)
    requires Stale(s, e)
    ensures Step(c, s, e) == s
  {
    hide Conclude;
  }

  /** The events without those that were stale when they came. */
  ghost function Live(c: Config, s: Rpc, events: seq<Event>): seq<Event> {
    if events == [] then []
    else
      var n := |events| - 1;
      Live(c, s, events[..n]) + if Stale(Run(c, s, events[..n]), events[n]) then [] else [events[n]]
  }

  lemma RunSnoc(c: Config, s: Rpc, events: seq<Event>, e: Event)
    ensures Run(c, s, events + [e]) == Step(c, Run(c, s, events), e)
  {
    hide Step;
    assert (events + [e])[..|events|] == events;
  }

  /** Stale completions may be deleted from any run: it ends in the same state. */
  lemma {:induction false} StaleMayBeDeleted(c: Config, s: Rpc, events: seq<Event>)
    ensures Run(c, s, Live(c, s, events)) == Run(c, s, events)
  {
    hide Step, Stale;
    if events != [] {
      var n := |events| - 1;
      StaleMayBeDeleted(c, s, events[..n]);
      if Stale(Run(c, s, events[..n]), events[n]) {
        StaleIsInert(c, Run(c, s, events[..n]), events[n]);
        assert Live(c, s, events[..n]) + [] == Live(c, s, events[..n]);
      } else {
        RunSnoc(c, s, Live(c, s, events[..n]), events[n]);
      }
    }
  }

  /** The events without completions of version `k`. */
  ghost function Without(events: seq<Event>, k: nat): seq<Event> {
    if events == [] then []
    else
      var n := |events| - 1;
      var e := events[n];
      Without(events[..n], k) + if (e.Response? || e.SocketFailed?) && e.nretry == k then [] else [e]
  }

  /** Once a version is past, whatever still arrives for it may be deleted from
      the rest of the run, whatever the peers answer. */
  lemma {:induction false} PastIsInert(c: Config, s: Rpc, events: seq<Event>, k: nat)
    requires Sane(c) && Steady(s) && Past(s, k)
    ensures Run(c, s, Without(events, k)) == Run(c, s, events)
  {
    hide Step, Steady;
    if events != [] {
      var n := |events| - 1;
      var e := events[n];
      PastIsInert(c, s, events[..n], k);
      RunShape(c, s, events[..n]);
      if (e.Response? || e.SocketFailed?) && e.nretry == k {
        StaleIsInert(c, Run(c, s, events[..n]), e);
        assert Without(events[..n], k) + [] == Without(events[..n], k);
      } else {
        RunSnoc(c, s, Without(events[..n], k), e);
      }
    }
  }

  /** While the RPC runs, the versions that are past are exactly those that
      were completed. */
  lemma CompletedIsPast(c: Config, s: Rpc, k: nat)
    requires Good(c, s) && !s.ended
    ensures Times(s.hist.log, k) == 1 <==> Past(s, k)
    ensures Times(s.hist.log, k) <= 1
  {
    assert Balanced(s, k);
  }

  /** A failed answer to the backed-up version completes that version, which is
      past from then on, and touches nothing else: not the current call, the
      timers, the error code or what was issued. */
  lemma FailedBackupRetires(c: Config, s: Rpc, e: Event)
    requires Sane(c) && Good(c, s) && !s.ended && s.unfinished.Some?
    requires (e.Response? && e.error != 0) || e.SocketFailed?
    requires e.nretry == s.unfinished.value.nretry
    ensures var r := Step(c, s, e);
            && Good(c, r) && r.unfinished == None && Past(r, e.nretry) && Times(r.hist.log, e.nretry) == 1
            && r.cur == s.cur && r.clock == s.clock && r.error == s.error && !r.ended
            && r.hist.issued == s.hist.issued && r.hist.doneRuns == s.hist.doneRuns
  {
    hide Conclude, Times, Balanced;
    CheckFailsIff(c, s, e);
    var f := SetFailed(s, e.error);
    assert Step(c, s, e) == CompleteUnfinished(f, f.error, e.Response?, false).(error := s.error);
    CompletedIsPast(c, Step(c, s, e), e.nretry);
  }

  // ---- How it ends ----

  /** Event `i` of the run found the RPC running, and was a successful answer to
      an open version. */
  ghost predicate Wins(c: Config, s: Rpc, events: seq<Event>, i: nat)
    requires i < |events|
  {
    var t := Run(c, s, events[..i]);
    !t.ended && Success(t, events[i])
  }

  /** Event `i` handed EBACKUPREQUEST to the RPC when no retry was left. */
  ghost predicate Exhausts(c: Config, s: Rpc, events: seq<Event>, i: nat)
    requires i < |events|
  {
    var t := Run(c, s, events[..i]);
    !t.ended && Delivers(t, events[i]) && t.cur.nretry >= t.maxRetry
  }

  lemma {:induction false} RunEnds(c: Config, s: Rpc, events: seq<Event>)
    requires Sane(c) && Steady(s) && (s.ended ==> s.error != 0)
    ensures var r := Run(c, s, events);
            && (r.ended && r.error == 0 <==> exists i: nat :: i < |events| && Wins(c, s, events, i))
            && (r.ended && r.error == EBACKUPREQUEST <==>
                (s.ended && s.error == EBACKUPREQUEST) || exists i: nat :: i < |events| && Exhausts(c, s, events, i))
  {
    hide Step, Steady, Success, Delivers;
    if events != [] {
      var n := |events| - 1;
      var t := Run(c, s, events[..n]);
      RunEnds(c, s, events[..n]);
      RunShape(c, s, events[..n]);
      forall i: nat | i < n
        ensures Wins(c, s, events, i) == Wins(c, s, events[..n], i)
        ensures Exhausts(c, s, events, i) == Exhausts(c, s, events[..n], i)
      {
        assert events[..n][..i] == events[..i];
      }
      assert Wins(c, s, events, n) <==> !t.ended && Success(t, events[n]);
      assert Exhausts(c, s, events, n) <==> !t.ended && Delivers(t, events[n]) && t.cur.nretry >= t.maxRetry;
      if t.ended {
        EndedStays(c, t, events[n]);
      } else {
        StepShape(c, t, events[n]);
      }
    }
  }

  /** Over every run of an RPC, CallMethod included, and whatever the peers
      answer: it ends with code 0 if and only if some event was a successful
      answer to a version that was then current or backed-up; it ends with
      EBACKUPREQUEST if and only if that code was handed to it, by an event or by
      the start, when no retry was left. */
  lemma HowItEnds(c: Config, maxRetry: nat, start: int, early: Option<int>, stream: bool, events: seq<Event>)
    requires Sane(c)
    ensures var s0 := CallMethod(c, maxRetry, start, early, stream);
            var s := Run(c, s0, events);
            && (s.ended && s.error == 0 <==> exists i: nat :: i < |events| && Wins(c, s0, events, i))
            && (s.ended && s.error == EBACKUPREQUEST <==>
                || (early == Some(EBACKUPREQUEST) && maxRetry == 0)
                || exists i: nat :: i < |events| && Exhausts(c, s0, events, i))
  {
    hide Run, CallMethod, Wins, Exhausts, Steady;
    StartShape(c, maxRetry, start, early, stream);
    RunEnds(c, CallMethod(c, maxRetry, start, early, stream), events);
  }

  // ---- When a peer answers with the code of the backup timer ----

  /** A call that fails before it is issued with a code the policy retries goes
      on without a timer and without a deadline, whatever its timeout. */
  lemma RetriedWithoutTimeout(c: Config, maxRetry: nat, start: nat, early: int)
    requires Sane(c) && early in c.retriable && early != EBACKUPREQUEST && maxRetry >= 1 && SendOf(c, 1).Sent?
    ensures var s := CallMethod(c, maxRetry, start, Some(early), false);
            !s.ended && NoTimer(s) && s.clock.deadline == -1 && s.hist.issued == [1]
  {
    var f := SetFailed(Fresh(maxRetry).(first := 1), early);
    SendFailedConcludes(c, f);
    var s1 := Retried(f, Version(0), false);
    assert Conclude(c, f, Version(0), false) == Issue(c, s1) == Attempt(c, s1);
  }

  /** A response EBACKUPREQUEST to the current version sends the next one. */
  lemma ForgedStep(c: Config, s: Rpc)
    requires !s.ended && s.cur.nretry < s.maxRetry && c.rearmRc == 0 && SendOf(c, s.cur.nretry + 1).Sent?
    ensures Step(c, s, Response(s.cur.nretry, EBACKUPREQUEST)) == Attempt(c, BackedUp(c, SetFailed(s, EBACKUPREQUEST)))
  {
    hide Attempt;
    var f := SetFailed(s, EBACKUPREQUEST);
    var b := BackedUp(c, f);
    assert Attempt(c, b).error == 0 by { SentAttempt(c, b); }
    assert Conclude(c, f, Version(s.cur.nretry), true) == Issue(c, b) == Attempt(c, b);
  }

  lemma SentAttempt(c: Config, s: Rpc)
    requires SendOf(c, s.cur.nretry).Sent?
    ensures Attempt(c, s).error == 0
  {
  }

  /** A server that answers EBACKUPREQUEST twice makes the second-backup CHECK
      fail; the RPC then ends with a socket that is never released and a timer
      that nobody can delete. */
  lemma ForgedBackup()
    ensures var c := Config(false, {}, 1000, -1, 0, [], [], 0, 0);
            var s := CallMethod(c, 2, 0, None, false);
            var s := Step(c, Step(c, s, Response(0, EBACKUPREQUEST)), Response(1, EBACKUPREQUEST));
            && s.hist.checksFailed == 1
            && var end := Step(c, s, Cancel);
               end.ended && end.hist.taken == end.hist.released + 1 && !NoTimer(end)
  {
    hide Step, Issue;
    var c := Config(false, {}, 1000, -1, 0, [], [], 0, 0);
    var s0 := CallMethod(c, 2, 0, None, false);
    var f0 := AddTimer(Fresh(2).(clock := Clock(1000_000, 0, map[], 0, [])), Timer(Timeout, 1000_000));
    assert s0 == Issue(c, f0);
    SentIssue(c, f0);
    ForgedStep(c, s0);
    var s1 := Step(c, s0, Response(0, EBACKUPREQUEST));
    ForgedStep(c, s1);
    var s2 := Step(c, s1, Response(1, EBACKUPREQUEST));
    CancelEnds(c, s2);
    assert 1 in Step(c, s2, Cancel).clock.timers;
  }

  lemma SentIssue(c: Config, s: Rpc)
    requires SendOf(c, s.cur.nretry).Sent?
    ensures Issue(c, s) == Attempt(c, s)
  {
    SentAttempt(c, s);
  }

  lemma CancelEnds(c: Config, s: Rpc)
    requires !s.ended && ECANCELED !in c.retriable
    ensures Step(c, s, Cancel) == EndRpc(SetFailed(s, ECANCELED), Base, false)
  {
    hide EndRpc;
    var f := SetFailed(s, ECANCELED);
    assert Step(c, s, Cancel) == Returned(c, f, Base, false, s.error) == Conclude(c, f, Base, false);
  }
}
