/** What becomes of a failed attempt: when the next version is issued, when the
    RPC ends and with which code, in every run. */
module RpcRetries {
  import opened Bytes
  import opened RpcMachine
  import opened RpcProofs
  import opened RpcShape

  const ENOENT: int := 2
  const EPIPE: int := 32
  const ENODATA: int := 61
  const ECONNRESET: int := 104
  const ETIMEDOUT: int := 110
  const ECONNREFUSED: int := 111
  const EHOSTDOWN: int := 112
  const EFAILEDSOCKET: int := 1009
  const EOVERCROWDED: int := 1011
  const EEOF: int := 1014
  const EH2RUNOUTSTREAMS: int := 1017
  const ELOGOFF: int := 2003

  /** What RpcRetryPolicy retries. */
  const DEFAULT_POLICY: set<int> :=
    {EFAILEDSOCKET, EEOF, EHOSTDOWN, ELOGOFF, ETIMEDOUT, ELIMIT, ENOENT, EPIPE, ECONNREFUSED, ECONNRESET, ENODATA,
     EOVERCROWDED, EH2RUNOUTSTREAMS}

  /** The default policy retries neither a success nor an error of the whole RPC,
      so all that is proved of sane configurations holds with it. */
  lemma DefaultIsSane(c: Config)
    requires c.retriable == DEFAULT_POLICY && c.timerRc != EBACKUPREQUEST && c.rearmRc != EBACKUPREQUEST
    requires forall i :: 0 <= i < |c.sends| ==> c.sends[i].Sent? || c.sends[i].error != EBACKUPREQUEST
    ensures Sane(c)
  {
  }

  /** The code with which the send of version `n` fails; 0 if it goes out. */
  function SendError(c: Config, n: nat): int {
    match SendOf(c, n)
    case NoServer(e) => if e == 0 then -1 else e
    case NoConnection(e, _) => if e == 0 then -1 else e
    case NotPacked(e, _) => if e == 0 then -1 else e
    case Sent(_) => 0
  }

  /** Version `n` cannot be sent, and another one may follow. */
  predicate FailsOver(c: Config, maxRetry: nat, n: nat) {
    n < maxRetry && SendError(c, n) != 0 && SendError(c, n) in c.retriable
  }

  /** Of the versions from `n` on, `m` is the first that is not passed over. */
  ghost predicate Lasts(c: Config, maxRetry: nat, n: nat, m: nat) {
    n <= m && !FailsOver(c, maxRetry, m) && forall k :: n <= k < m ==> FailsOver(c, maxRetry, k)
  }

  /** The completions of the versions passed over. */
  ghost function PassedOver(c: Config, n: nat, m: nat): seq<Completion> {
    if m <= n then [] else PassedOver(c, n, m - 1) + [Completion(m - 1, SendError(c, m - 1), false, false)]
  }

  lemma {:induction false} PassedOverFirst(c: Config, n: nat, m: nat)
    requires n < m
    ensures PassedOver(c, n, m) == [Completion(n, SendError(c, n), false, false)] + PassedOver(c, n + 1, m)
  {
    if n + 1 < m {
      PassedOverFirst(c, n, m - 1);
    } else {
      assert PassedOver(c, n, n) == [] == PassedOver(c, n + 1, n + 1);
    }
  }

  lemma {:induction false} RangeFirst(n: nat, m: nat)
    requires n < m
    ensures Range(n, m) == [n] + Range(n + 1, m)
  {
    if n + 1 < m {
      RangeFirst(n, m - 1);
    } else {
      assert Range(n, n) == [] == Range(n + 1, n + 1);
    }
  }

  /** The completion that a backed-up call gets when the RPC ends without it. */
  ghost function Given(unfinished: Option<Call>, code: int): seq<Completion> {
    if unfinished.None? then [] else [Completion(unfinished.value.nretry, code, false, false)]
  }

  // ---- The end ----

  /** The RPC ended by its current call: with which code, and what was completed. */
  ghost predicate EndsBy(s: Rpc, r: Rpc, code: int, responded: bool) {
    && r.ended && r.error == code && r.cur.nretry == s.cur.nretry && r.unfinished.None?
    && r.hist.issued == s.hist.issued && r.hist.doneRuns == s.hist.doneRuns + 1
    && r.hist.log == s.hist.log + Given(s.unfinished, if code == 0 then EBACKUPREQUEST else code)
                     + [Completion(s.cur.nretry, code, responded, true)]
  }

  lemma EndsNow(s: Rpc, id: Id, responded: bool)
    requires id == Base || id == Version(s.cur.nretry)
    ensures EndsBy(s, EndRpc(s, id, responded), s.error, responded)
  {
    if s.unfinished.None? {
      assert s.hist.log + [] == s.hist.log;
    }
  }

  // ---- The next version ----

  /** From `s`, about to issue its version, to `r`: failed sends were passed
      over until version `m`, which went out or ended the RPC. */
  ghost predicate GoesOnTo(c: Config, s: Rpc, r: Rpc, m: nat) {
    && Lasts(c, s.maxRetry, s.cur.nretry, m) && r.cur.nretry == m
    && r.hist.issued == s.hist.issued + Range(s.cur.nretry, m + 1)
    && r.error == SendError(c, m) && (r.ended <==> SendError(c, m) != 0)
    && (!r.ended ==> r.unfinished == s.unfinished && r.hist.log == s.hist.log + PassedOver(c, s.cur.nretry, m))
    && (r.ended ==> r.hist.log == s.hist.log + PassedOver(c, s.cur.nretry, m) + Given(s.unfinished, SendError(c, m))
                                  + [Completion(m, SendError(c, m), false, true)])
  }

  lemma AttemptIs(c: Config, s: Rpc)
    ensures var a := Attempt(c, s);
            && a.error == SendError(c, s.cur.nretry) && a.cur.nretry == s.cur.nretry && a.ended == s.ended
            && a.hist.issued == s.hist.issued + [s.cur.nretry] && a.hist.log == s.hist.log
            && a.unfinished == s.unfinished && a.maxRetry == s.maxRetry
  {
    hide ConnectLimit;
  }

  lemma RetriedIs(s: Rpc, id: Id, responded: bool)
    ensures var r := Retried(s, id, responded);
            && r.cur.nretry == s.cur.nretry + 1 && r.ended == s.ended && r.maxRetry == s.maxRetry
            && r.unfinished == s.unfinished && r.hist.issued == s.hist.issued
            && r.hist.log == s.hist.log + [Completion(s.cur.nretry, s.error, responded, false)]
  {
  }

  lemma {:induction false} IssueGoesOn(c: Config, s: Rpc) returns (m: nat)
    requires Sane(c) && !s.ended && s.cur.nretry <= s.maxRetry
    ensures GoesOnTo(c, s, Issue(c, s), m)
    decreases s.maxRetry - s.cur.nretry
  {
    hide Attempt, SendFailed, Retried, EndRpc, SendError;
    var n := s.cur.nretry;
    var a := Attempt(c, s);
    AttemptIs(c, s);
    SaneSend(c, n);
    RangeFirst(n, n + 1);
    if a.error == 0 {
      m := n;
    } else {
      SendFailedConcludes(c, a);
      if FailsOver(c, s.maxRetry, n) {
        var b := Retried(a, Version(n), false);
        RetriedIs(a, Version(n), false);
        m := IssueGoesOn(c, b);
        GoesOnAfter(c, s, b, Issue(c, b), m);
      } else {
        m := n;
        EndsNow(a, Version(n), false);
      }
    }
  }

  lemma GoesOnAfter(c: Config, s: Rpc, b: Rpc, r: Rpc, m: nat)
    requires FailsOver(c, s.maxRetry, s.cur.nretry) && GoesOnTo(c, b, r, m)
    requires b.cur.nretry == s.cur.nretry + 1 && b.maxRetry == s.maxRetry && b.unfinished == s.unfinished
    requires b.hist.issued == s.hist.issued + [s.cur.nretry]
    requires b.hist.log == s.hist.log + [Completion(s.cur.nretry, SendError(c, s.cur.nretry), false, false)]
    ensures GoesOnTo(c, s, r, m)
  {
    hide SendError, FailsOver;
    var n := s.cur.nretry;
    PassedOverFirst(c, n, m);
    RangeFirst(n, m + 1);
  }

  lemma SaneSend(c: Config, n: nat)
    requires Sane(c)
    ensures SendError(c, n) != EBACKUPREQUEST
  {
  }

  // ---- One event ----

  /** As `s`, about to issue the next version, with the given completions and
      backed-up call. */
  ghost function Next(s: Rpc, log: seq<Completion>, unfinished: Option<Call>): Rpc {
    s.(cur := s.cur.(nretry := s.cur.nretry + 1), unfinished := unfinished, hist := s.hist.(log := log))
  }

  lemma SameStart(c: Config, a: Rpc, b: Rpc, r: Rpc, m: nat)
    requires GoesOnTo(c, a, r, m)
    requires a.cur.nretry == b.cur.nretry && a.maxRetry == b.maxRetry && a.unfinished == b.unfinished
    requires a.hist.issued == b.hist.issued && a.hist.log == b.hist.log
    ensures GoesOnTo(c, b, r, m)
  {
  }

  /** The code a peer or a socket reports for version `n`. */
  predicate Reports(e: Event, n: nat, code: int) {
    || (e.Response? && e.nretry == n && e.error == code)
    || (e.SocketFailed? && e.nretry == n && code == if e.error == 0 then -1 else e.error)
  }

  /** The current version fails with a code that is neither 0 nor the backup
      timer's: if the code is one to retry and a retry is left, the call is
      completed with it and the next version is issued; otherwise the RPC ends
      with that very code. */
  lemma FailureOutcome(c: Config, s: Rpc, e: Event, code: int) returns (m: nat)
    requires Sane(c) && Steady(s) && !s.ended
    requires Reports(e, s.cur.nretry, code) && code != 0 && code != EBACKUPREQUEST
    ensures var r := Step(c, s, e);
            if code in c.retriable && s.cur.nretry < s.maxRetry then
              GoesOnTo(c, Next(s, s.hist.log + [Completion(s.cur.nretry, code, e.Response?, false)], s.unfinished), r, m)
            else EndsBy(s, r, code, e.Response?)
  {
    hide Issue, EndRpc, Retried, GoesOnTo, EndsBy, Range;
    var f := SetFailed(s, e.error);
    var id := Version(s.cur.nretry);
    assert Step(c, s, e) == Conclude(c, f, id, e.Response?);
    m := 0;
    if code in c.retriable && s.cur.nretry < s.maxRetry {
      var b := Retried(f, id, e.Response?);
      RetriedIs(f, id, e.Response?);
      m := IssueGoesOn(c, b);
      SameStart(c, b, Next(s, s.hist.log + [Completion(s.cur.nretry, code, e.Response?, false)], s.unfinished),
                Step(c, s, e), m);
    } else {
      EndsNow(f, id, e.Response?);
      EndsAs(s, f, Step(c, s, e), code, e.Response?);
    }
  }

  lemma EndsAs(s: Rpc, f: Rpc, r: Rpc, code: int, responded: bool)
    requires EndsBy(f, r, code, responded) && SameCalls(s, f)
    ensures EndsBy(s, r, code, responded)
  {
  }

  /** A timeout and a cancellation end the RPC, whatever is left to retry. A
      timer that is not armed has no effect. */
  lemma EndedFromOutside(c: Config, s: Rpc, e: Event)
    requires Sane(c) && Steady(s) && !s.ended
    ensures var r := Step(c, s, e);
            && (e.Fire? && e.timer !in s.clock.timers ==> r == s)
            && (e.Fire? && e.timer in s.clock.timers && s.clock.timers[e.timer].kind.Timeout? ==>
                  EndsBy(s, r, ERPCTIMEDOUT, false))
            && (e.Cancel? ==> EndsBy(s, r, ECANCELED, false))
  {
    hide EndRpc, EndsBy, Range;
    if e.Cancel? {
      var f := SetFailed(s, ECANCELED);
      assert Step(c, s, e) == Conclude(c, f, Base, false) == EndRpc(f, Base, false);
      EndsNow(f, Base, false);
      EndsAs(s, f, Step(c, s, e), ECANCELED, false);
    } else if e.Fire? && e.timer in s.clock.timers && s.clock.timers[e.timer].kind.Timeout? {
      var f := SetFailed(Fired(s, e.timer), ERPCTIMEDOUT);
      assert Step(c, s, e) == Conclude(c, f, Base, false) == EndRpc(f, Base, false);
      EndsNow(f, Base, false);
      EndsAs(s, f, Step(c, s, e), ERPCTIMEDOUT, false);
    }
  }

  /** The backup request is due: the current call is kept, and the next version
      is issued beside it. Without a retry left, or when the timeout cannot be
      armed again, the RPC ends. */
  lemma BackupOutcome(c: Config, s: Rpc, e: Event) returns (m: nat)
    requires Sane(c) && Steady(s) && !s.ended && Delivers(s, e)
    ensures var r := Step(c, s, e);
            if s.cur.nretry >= s.maxRetry then EndsBy(s, r, EBACKUPREQUEST, e.Response?)
            else if c.timeoutMs >= 0 && c.rearmRc != 0 then EndsBy(s, r, c.rearmRc, e.Response?)
            else GoesOnTo(c, Next(s, s.hist.log, Some(s.cur)), r, m)
  {
    hide Issue, EndRpc, BackedUp, GoesOnTo, EndsBy, Range;
    var id := if e.Fire? then Base else Version(s.cur.nretry);
    var f := SetFailed(if e.Fire? then Fired(s, e.timer) else s, EBACKUPREQUEST);
    assert Step(c, s, e) == Conclude(c, f, id, e.Response?);
    m := 0;
    if s.cur.nretry >= s.maxRetry {
      EndsNow(f, id, e.Response?);
      EndsAs(s, f, Step(c, s, e), EBACKUPREQUEST, e.Response?);
    } else if c.timeoutMs >= 0 && c.rearmRc != 0 {
      var g := SetFailed(f, c.rearmRc);
      EndsNow(g, id, e.Response?);
      EndsAs(s, g, Step(c, s, e), c.rearmRc, e.Response?);
    } else {
      BackedUpIs(c, f);
      m := IssueGoesOn(c, BackedUp(c, f));
      SameStart(c, BackedUp(c, f), Next(s, s.hist.log, Some(s.cur)), Step(c, s, e), m);
    }
  }

  lemma BackedUpIs(c: Config, s: Rpc)
    ensures var r := BackedUp(c, s);
            && r.cur.nretry == s.cur.nretry + 1 && r.ended == s.ended && r.maxRetry == s.maxRetry
            && r.unfinished == Some(s.cur) && r.hist.issued == s.hist.issued && r.hist.log == s.hist.log
  {
  }

  /** A successful answer ends the RPC: its own call is completed with 0 and the
      other open one, if any, with the code of a call that is no longer needed. */
  lemma SuccessOutcome(c: Config, s: Rpc, e: Event)
    requires Sane(c) && Steady(s) && !s.ended && Success(s, e)
    requires s.unfinished.Some? ==> s.unfinished.value.nretry != s.cur.nretry
    ensures var r := Step(c, s, e);
            if e.nretry == s.cur.nretry then EndsBy(s, r, 0, true)
            else
              && r.ended && r.error == 0 && r.unfinished.None? && r.hist.issued == s.hist.issued
              && r.hist.doneRuns == s.hist.doneRuns + 1
              && r.hist.log == s.hist.log + [Completion(s.cur.nretry, ECANCELED, false, false)]
                               + [Completion(e.nretry, 0, true, true)]
  {
    hide Range, Issue, Retried;
    var id := Version(e.nretry);
    assert Step(c, s, e) == Conclude(c, s, id, true) == EndRpc(s, id, true);
    if e.nretry == s.cur.nretry {
      EndsNow(s, Version(e.nretry), true);
    }
  }

  // ---- The start ----

  /** CallMethod that fails before its first version, with an error of its own or
      because the timer cannot be armed: as any failure of version 0, it is
      retried or ends the RPC. */
  lemma FailedStartOutcome(c: Config, s: Rpc, error: int) returns (m: nat)
    requires Sane(c) && Numbered(s) && !s.ended && error != EBACKUPREQUEST
    ensures var r := SendFailed(c, SetFailed(s, error));
            var code := if error == 0 then -1 else error;
            if code in c.retriable && s.cur.nretry < s.maxRetry then
              GoesOnTo(c, Next(s, s.hist.log + [Completion(s.cur.nretry, code, false, false)], s.unfinished), r, m)
            else EndsBy(s, r, code, false)
  {
    hide Issue, EndRpc, Retried, GoesOnTo, EndsBy, Range, SendFailed;
    var f := SetFailed(s, error);
    var id := Version(s.cur.nretry);
    SendFailedConcludes(c, f);
    m := 0;
    if f.error in c.retriable && s.cur.nretry < s.maxRetry {
      var b := Retried(f, id, false);
      RetriedIs(f, id, false);
      m := IssueGoesOn(c, b);
      SameStart(c, b, Next(s, s.hist.log + [Completion(s.cur.nretry, f.error, false, false)], s.unfinished),
                SendFailed(c, f), m);
    } else {
      EndsNow(f, id, false);
      EndsAs(s, f, SendFailed(c, f), f.error, false);
    }
  }

  /** How a call starts: with version 0, unless it fails before; then version 1
      follows if the code is one to retry and a retry is left, and else the RPC
      ends with that code. */
  lemma StartOutcome(c: Config, maxRetry: nat, start: int, early: Option<int>, stream: bool) returns (m: nat)
    requires Sane(c) && early != Some(EBACKUPREQUEST)
    ensures var r := CallMethod(c, maxRetry, start, early, stream);
            var retries := if stream && early.None? then 0 else maxRetry;
            var timed := c.timeoutMs >= 0 || (!stream && c.backupMs >= 0);
            var error := if early.Some? then early.value else if timed then c.timerRc else 0;
            var code := if error == 0 then -1 else error;
            var s := Fresh(retries);
            if early.None? && error == 0 then GoesOnTo(c, s, r, m)
            else if code in c.retriable && retries > 0 then GoesOnTo(c, Next(s, [Completion(0, code, false, false)], None), r, m)
            else EndsBy(s, r, code, false)
  {
    hide Issue, SendFailed, GoesOnTo, EndsBy, Numbered, ToNumber;
    var retries := if stream && early.None? then 0 else maxRetry;
    var s := Fresh(retries);
    FreshNumbered(retries);
    if early.Some? {
      m := FailedStart(c, s, s.(first := 1), early.value, CallMethod(c, maxRetry, start, early, stream));
    } else {
      var deadline := if c.timeoutMs < 0 then -1 else c.timeoutMs * 1000 + start;
      var t := s.(clock := s.clock.(deadline := deadline));
      var timed := c.timeoutMs >= 0 || (!stream && c.backupMs >= 0);
      if timed && c.timerRc != 0 {
        SameNumbers(s.(first := 1), t.(first := 1));
        m := FailedStart(c, s, t.(first := 1), c.timerRc, CallMethod(c, maxRetry, start, early, stream));
      } else {
        var backup := Timer(Backup, c.backupMs * 1000 + start);
        var a := if !timed then t
                 else if !stream && c.backupMs >= 0 && (c.backupMs < c.timeoutMs || c.timeoutMs < 0) then AddTimer(t, backup)
                 else AddTimer(t, Timer(Timeout, deadline));
        assert CallMethod(c, maxRetry, start, early, stream) == Issue(c, a);
        m := IssueGoesOn(c, a);
        SameStart(c, a, s, Issue(c, a), m);
      }
    }
  }

  lemma FailedStart(c: Config, s: Rpc, t: Rpc, error: int, r: Rpc) returns (m: nat)
    requires Sane(c) && error != EBACKUPREQUEST && s == Fresh(s.maxRetry) && Numbered(t)
    requires t == s.(first := 1, clock := t.clock) && r == SendFailed(c, SetFailed(t, error))
    ensures var code := if error == 0 then -1 else error;
            if code in c.retriable && s.maxRetry > 0 then GoesOnTo(c, Next(s, [Completion(0, code, false, false)], None), r, m)
            else EndsBy(s, r, code, false)
  {
    hide SendFailed, Numbered;
    var code := if error == 0 then -1 else error;
    m := FailedStartOutcome(c, t, error);
    assert [] + [Completion(0, code, false, false)] == [Completion(0, code, false, false)];
  }

  // ---- Whole runs ----

  /** In every run: when the current version fails with a code that is neither 0
      nor the backup timer's, the next version is issued if and only if the code
      is one to retry and a retry is left, and the RPC ends at once, with that
      code, if and only if not. */
  lemma RetriedIff(c: Config, maxRetry: nat, start: int, early: Option<int>, stream: bool, events: seq<Event>,
                   e: Event, code: int)
    requires Sane(c) && code != 0 && code != EBACKUPREQUEST
    requires var s := Run(c, CallMethod(c, maxRetry, start, early, stream), events);
             !s.ended && Reports(e, s.cur.nretry, code)
    ensures var s := Run(c, CallMethod(c, maxRetry, start, early, stream), events);
            var r := Step(c, s, e);
            && (s.cur.nretry + 1 in r.hist.issued <==> code in c.retriable && s.cur.nretry < s.maxRetry)
            && (s.cur.nretry + 1 !in r.hist.issued <==> r.ended && r.cur.nretry == s.cur.nretry && r.error == code)
            && s.maxRetry == if stream && early.None? then 0 else maxRetry
  {
    hide Step, Run, CallMethod, Numbered;
    var first := CallMethod(c, maxRetry, start, early, stream);
    var s := Run(c, first, events);
    StartShape(c, maxRetry, start, early, stream);
    StartRetries(c, maxRetry, start, early, stream);
    RunShape(c, first, events);
    var m := FailureOutcome(c, s, e, code);
    NumberedUpTo(s);
    if code in c.retriable && s.cur.nretry < s.maxRetry {
      InRange(s.cur.nretry + 1, m + 1);
    }
  }

  lemma NumberedUpTo(s: Rpc)
    requires Numbered(s)
    ensures s.cur.nretry + 1 !in s.hist.issued
  {
    NotInRange(s.first, s.cur.nretry + 1);
  }

  lemma {:induction false} NotInRange(a: nat, b: nat)
    ensures forall k <- Range(a, b) :: a <= k < b
  {
    if b > a {
      NotInRange(a, b - 1);
    }
  }

  lemma {:induction false} InRange(a: nat, b: nat)
    requires a < b
    ensures a in Range(a, b)
  {
    RangeFirst(a, b);
  }

  /** A stream is never retried; otherwise CallMethod leaves the limit alone. */
  lemma StartRetries(c: Config, maxRetry: nat, start: int, early: Option<int>, stream: bool)
    ensures CallMethod(c, maxRetry, start, early, stream).maxRetry == if stream && early.None? then 0 else maxRetry
  {
    hide Issue, SendFailed, ToNumber, Numbered;
    FreshNumbered(maxRetry);
    FreshNumbered(0);
    if early.Some? {
      FailedShape(c, Fresh(maxRetry).(first := 1), early.value);
    } else {
      var m := if stream then 0 else maxRetry;
      var s := Fresh(m).(clock := Clock(if c.timeoutMs < 0 then -1 else c.timeoutMs * 1000 + start, 0, map[], 0, []));
      SameNumbers(Fresh(m), s);
      TimedShape(c, s, Timer(Backup, c.backupMs * 1000 + start));
      TimedShape(c, s, Timer(Timeout, s.clock.deadline));
      IssueShape(c, s);
    }
  }

  /** Answers to the versions from `n` on, with the given codes. */
  function Answers(n: nat, codes: seq<int>): seq<Event> {
    seq(|codes|, i requires 0 <= i < |codes| => Response(n + i, codes[i]))
  }

  /** When every request goes out and every answer is a failure to retry, each
      one takes one retry, and the RPC ends with the first that finds none left. */
  lemma {:induction false} RetriesRunOut(c: Config, s: Rpc, codes: seq<int>)
    requires Sane(c) && Steady(s) && !s.ended
    requires forall k: nat :: SendError(c, k) == 0
    requires forall i :: 0 <= i < |codes| ==> codes[i] in c.retriable && codes[i] != EBACKUPREQUEST
    ensures var r := Run(c, s, Answers(s.cur.nretry, codes));
            var left := s.maxRetry - s.cur.nretry;
            && Steady(r) && r.maxRetry == s.maxRetry
            && (|codes| <= left ==> !r.ended && r.cur.nretry == s.cur.nretry + |codes|)
            && (|codes| > left ==> r.ended && r.cur.nretry == s.maxRetry && r.error == codes[left])
  {
    hide Step, Numbered;
    var n := |codes| - 1;
    SteadyBound(s);
    if n >= 0 {
      var before := codes[..n];
      var events := Answers(s.cur.nretry, codes);
      assert events[..n] == Answers(s.cur.nretry, before);
      RetriesRunOut(c, s, before);
      var t := Run(c, s, events[..n]);
      var e := events[n];
      if t.ended {
        EndedStays(c, t, e);
        assert before[s.maxRetry - s.cur.nretry] == codes[s.maxRetry - s.cur.nretry];
      } else {
        StepShape(c, t, e);
        assert Reports(e, t.cur.nretry, codes[n]);
        var m := FailureOutcome(c, t, e, codes[n]);
        SteadyBound(t);
        assert !FailsOver(c, t.maxRetry, t.cur.nretry + 1);
      }
    }
  }

  lemma SteadyBound(s: Rpc)
    requires Steady(s)
    ensures s.cur.nretry <= s.maxRetry
  {
  }
}
