/** The client side of Controller with the part of Channel::CallMethod that
    drives it: methods that update the controller's fields, each proved to
    compute the function of the same name in RpcMachine. A controller is valid
    when its accounts and its timer are in order; starting the RPC and handling
    events keep it so. */
module RpcController {
  import opened Bytes
  import Machine = RpcMachine
  import opened RpcMachine
  import Proofs = RpcProofs
  import Theorems = RpcTheorems

  class Controller {
    const config: Config
    var maxRetry: nat
    var cur: Call                   // _current_call
    var unfinished: Option<Call>    // _unfinished_call
    var error: int                  // _error_code
    var clock: Clock                // _deadline_us, _timeout_id and the timer thread
    var ended: bool                 // the id was destroyed
    var first: nat
    ghost var hist: History

    ghost function View(): Rpc
      reads this
    {
      Rpc(maxRetry, first, cur, unfinished, error, ended, clock, hist)
    }

    /** Every version is completed once or open, sockets and feedback are
        accounted for, one timer guards the call, no CHECK has failed. */
    ghost predicate Valid()
      reads this
    {
      Proofs.Sane(config) && Proofs.Good(config, View()) && Proofs.GoodTimers(config, View())
    }

    constructor (config: Config, maxRetry: nat)
      ensures this.config == config && View() == Fresh(maxRetry)
    {
      this.config := config;
      this.maxRetry, cur, unfinished, error := maxRetry, Call(0, false, false), None, 0;
      clock, ended, first := Clock(-1, 0, map[], 0, []), false, 0;
      hist := History([], [], 0, 0, multiset{}, multiset{}, 0, 0);
    }

    method SetFailed(code: int)
      modifies this`error
      ensures View() == Machine.SetFailed(old(View()), code)
    {
      error := if code == 0 then -1 else code;
    }

    /** bthread_timer_add */
    method AddTimer(kind: TimerKind, at: int)
      modifies this`clock
      ensures View() == Machine.AddTimer(old(View()), Timer(kind, at))
    {
      var id := clock.added + 1;
      clock := clock.(timerId := id, added := id);
      clock := clock.(timers := clock.timers[id := Timer(kind, at)], limits := clock.limits + [at]);
    }

    /** CHECK logs and goes on. */
    method Check(holds: bool)
      modifies this`hist
      ensures View() == Machine.Check(old(View()), holds)
    {
      if !holds {
        hist := hist.(checksFailed := hist.checksFailed + 1);
      }
    }

    /** _current_call.OnComplete */
    method CompleteCurrent(code: int, responded: bool, endOfRpc: bool)
      modifies this`cur, this`hist
      ensures View() == Machine.CompleteCurrent(old(View()), code, responded, endOfRpc)
      ensures cur == old(cur).(sock := false)
    {
      hist := OnComplete(hist, cur, code, responded, endOfRpc);
      cur := cur.(sock := false);
    }

    /** _unfinished_call->OnComplete, then delete */
    method CompleteUnfinished(code: int, responded: bool, endOfRpc: bool)
      requires unfinished.Some?
      modifies this`unfinished, this`hist
      ensures View() == Machine.CompleteUnfinished(old(View()), code, responded, endOfRpc)
    {
      hist := OnComplete(hist, unfinished.value, code, responded, endOfRpc);
      unfinished := None;
    }

    /** A server was selected and, with `sock`, a connection to it was had. */
    method Select(feedback: bool, sock: bool)
      modifies this`cur, this`hist
      ensures View() == Selected(old(View()), feedback, sock)
    {
      hist := hist.(taken := hist.taken + (if sock then 1 else 0),
                    selected := hist.selected + One(feedback, cur.nretry));
      cur := cur.(feedback := feedback, sock := cur.sock || sock);
    }

    method Begin()
      modifies this`cur, this`error, this`hist
      ensures View() == Begun(old(View()))
    {
      error := 0;
      hist := hist.(issued := hist.issued + [cur.nretry]);
      cur := cur.(feedback := false);
    }

    method LimitConnect()
      modifies this`clock
      ensures View() == old(View()).(clock := old(clock).(limits := old(clock.limits) + ConnectLimit(config, old(View()))))
    {
      if config.connectMs > 0 {
        var at := config.connectMs * 1000 + TimeOf(config, cur.nretry);
        clock := clock.(limits := clock.limits + [if 0 <= clock.deadline < at then clock.deadline else at]);
      } else {
        assert clock.limits + [] == clock.limits;
      }
    }

    method IssueRpc()
      modifies this
      ensures View() == Issue(config, old(View()))
      decreases maxRetry - cur.nretry, 3
    {
      hide SendFailed, Begun, Machine.SetFailed, ConnectLimit;
      Begin();
      ghost var s := View();
      BegunFrame(old(View()));
      match SendOf(config, cur.nretry) {
        case NoServer(code) =>
          SetFailed(code);
        case NoConnection(code, feedback) =>
          Select(feedback, false);
          SetFailed(code);
        case NotPacked(code, feedback) =>
          Select(feedback, true);
          SetFailed(code);
        case Sent(feedback) =>
          Select(feedback, true);
          SameLimit(config, s, View());
          LimitConnect();
      }
      assert View() == Attempt(config, old(View()));
      if error != 0 {
        HandleSendFailed();
      }
    }

    method HandleSendFailed()
      modifies this
      ensures View() == SendFailed(config, old(View()))
      decreases maxRetry - cur.nretry, 2
    {
      OnVersionedRpcReturned(Version(cur.nretry), false, error);
    }

    method OnVersionedRpcReturned(id: Id, responded: bool, saved: int)
      modifies this
      ensures View() == Returned(config, old(View()), id, responded, saved)
      decreases maxRetry - cur.nretry, 1
    {
      hide Conclude;
      if id != Base && id != Version(cur.nretry) {
        var backedUp := unfinished.Some? && id == Version(unfinished.value.nretry);
        if !(backedUp && error == 0) {
          if backedUp {
            CompleteUnfinished(error, responded, false);
          }
          error := saved;
          return;
        }
      }
      ConcludeRpc(id, responded);
    }

    /** OnVersionedRPCReturned after the interception of old calls. */
    method ConcludeRpc(id: Id, responded: bool)
      modifies this
      ensures View() == Conclude(config, old(View()), id, responded)
      decreases maxRetry - cur.nretry, 0
    {
      hide Issue, Machine.EndRpc, Machine.AddTimer, Machine.SetFailed, Machine.Check, Machine.CompleteCurrent;
      ghost var s := View();
      if (error == 0 && !config.userPolicy) || cur.nretry >= maxRetry {
        EndRpc(id, responded);
      } else if error == EBACKUPREQUEST {
        if config.timeoutMs >= 0 {
          if config.rearmRc != 0 {
            SetFailed(config.rearmRc);
            EndRpc(id, responded);
            return;
          }
          AddTimer(Timeout, clock.deadline);
        }
        Check(unfinished.None?);
        unfinished := Some(cur);
        cur := Call(cur.nretry + 1, false, false);
        assert View() == BackedUp(config, s);
        IssueRpc();
      } else if error in config.retriable {
        Check(id == Version(cur.nretry));
        CompleteCurrent(error, responded, false);
        cur := cur.(nretry := cur.nretry + 1);
        assert View() == Retried(s, id, responded);
        IssueRpc();
      } else {
        EndRpc(id, responded);
      }
    }

    method EndRpc(id: Id, responded: bool)
      modifies this
      ensures View() == Machine.EndRpc(old(View()), id, responded)
    {
      hide Machine.EndByCurrent, Machine.EndByUnfinished;
      if clock.timerId != 0 {
        clock := clock.(timers := clock.timers - {clock.timerId}, timerId := 0);  // bthread_timer_del
      }
      assert View() == StopTimer(old(View()));
      if id == Base || id == Version(cur.nretry) {
        EndByCurrent(responded);
      } else {
        EndByUnfinished(id, responded);
      }
      hist := hist.(doneRuns := hist.doneRuns + 1);
      ended := true;
    }

    method EndByCurrent(responded: bool)
      modifies this
      ensures View() == Machine.EndByCurrent(old(View()), responded)
    {
      hide Machine.CompleteCurrent, Machine.CompleteUnfinished;
      if unfinished.Some? {
        CompleteUnfinished(if error == 0 then EBACKUPREQUEST else error, false, false);
      }
      CompleteCurrent(error, responded, true);
    }

    method EndByUnfinished(id: Id, responded: bool)
      modifies this
      ensures View() == Machine.EndByUnfinished(old(View()), id, responded)
    {
      hide Machine.Check, Machine.CompleteCurrent, Machine.CompleteUnfinished;
      Check(unfinished.Some?);
      CompleteCurrent(ECANCELED, false, false);
      if unfinished.Some? {
        if id == Version(unfinished.value.nretry) {
          CompleteUnfinished(error, responded, true);
        } else {
          Check(false);
          CompleteUnfinished(ECANCELED, false, true);
        }
      }
    }

    /** Channel::CallMethod once the id is locked. */
    method CallMethod(start: int, early: Option<int>, stream: bool)
      requires View() == Fresh(maxRetry)
      modifies this
      ensures View() == Machine.CallMethod(config, old(maxRetry), start, early, stream)
      ensures Proofs.Sane(config) && start >= 0 && early != Some(EBACKUPREQUEST) ==> Valid()
    {
      Start(start, early, stream);
      if Proofs.Sane(config) && start >= 0 {
        Theorems.CallMethodKeeps(config, old(maxRetry), start, early, stream);
      }
    }

    method Start(start: int, early: Option<int>, stream: bool)
      requires View() == Fresh(maxRetry)
      modifies this
      ensures View() == Machine.CallMethod(config, old(maxRetry), start, early, stream)
    {
      hide Issue, SendFailed;
      if early.Some? {
        first := 1;
        SetFailed(early.value);
        HandleSendFailed();
        return;
      }
      var backupMs := config.backupMs;
      if stream {
        maxRetry, backupMs := 0, -1;
      }
      clock := clock.(deadline := if config.timeoutMs < 0 then -1 else config.timeoutMs * 1000 + start);
      var backup := backupMs >= 0 && (backupMs < config.timeoutMs || config.timeoutMs < 0);
      if backup || config.timeoutMs >= 0 {
        if config.timerRc != 0 {
          first := 1;
          SetFailed(config.timerRc);
          HandleSendFailed();
          return;
        }
        if backup {
          AddTimer(Backup, backupMs * 1000 + start);
        } else {
          AddTimer(Timeout, clock.deadline);
        }
      }
      IssueRpc();
    }

    /** HandleSocketFailed, for an id that was not destroyed. */
    method HandleSocketFailed(id: Id, code: int)
      modifies this
      ensures View() == Returned(config, Machine.SetFailed(old(View()), code), id, false, old(error))
    {
      hide Returned;
      var saved := error;
      SetFailed(code);
      OnVersionedRpcReturned(id, false, saved);
    }

    /** One event, as its handler deals with it. A valid controller stays valid
        unless a peer answers with the code of the backup timer. */
    method Handle(e: Event)
      modifies this
      ensures View() == Step(config, old(View()), e)
      ensures old(Valid()) && Theorems.Genuine(e) ==> Valid()
    {
      ghost var s, valid := View(), Valid();
      Dispatch(e);
      if valid && Theorems.Genuine(e) {
        Theorems.StepKeeps(config, s, e);
      }
    }

    method Dispatch(e: Event)
      modifies this
      ensures View() == Step(config, old(View()), e)
    {
      hide Returned;
      if ended {
        return;
      }
      match e {
        case Response(n, code) =>
          var saved := error;
          if code != 0 {
            SetFailed(code);
          }
          OnVersionedRpcReturned(Version(n), true, saved);
        case SocketFailed(n, code) =>
          HandleSocketFailed(Version(n), code);
        case Cancel =>
          HandleSocketFailed(Base, ECANCELED);
        case Fire(t) =>
          FireTimer(t);
      }
    }

    /** A whole RPC: the call and the events that reach it, in their order.
        Whatever the peers answer, the CHECKs hold if and only if no event
        trips; then every version is completed exactly once by the end, every
        socket is released, and done runs once. */
    method Perform(start: nat, early: Option<int>, stream: bool, events: seq<Event>)
      requires View() == Fresh(maxRetry) && Proofs.Sane(config)
      modifies this
      ensures var s0 := Machine.CallMethod(config, old(maxRetry), start, early, stream);
              && View() == Run(config, s0, events)
              && (hist.checksFailed == 0 <==> Theorems.Untripped(config, s0, events))
              && (hist.checksFailed == 0 ==> Theorems.Settles(View()))
    {
      hide Step, Machine.CallMethod, Theorems.Settles, Theorems.Untripped;
      ghost var m := maxRetry;
      CallMethod(start, early, stream);
      ghost var s0 := View();
      assert events[..0] == [];
      for i := 0 to |events|
        invariant View() == Run(config, s0, events[..i])
      {
        assert events[..i + 1] == events[..i] + [events[i]];
        Theorems.RunSnoc(config, s0, events[..i], events[i]);
        Handle(events[i]);
      }
      assert events[..|events|] == events;
      Theorems.ExactlyOnce(config, m, start, early, stream, events);
    }

    /** The timer thread calls HandleBackupRequest or HandleTimeout. */
    method FireTimer(t: nat)
      requires !ended
      modifies this
      ensures View() == Step(config, old(View()), Fire(t))
    {
      hide Returned;
      if t in clock.timers {
        var code := if clock.timers[t].kind == Backup then EBACKUPREQUEST else ERPCTIMEDOUT;
        clock := clock.(timers := clock.timers - {t});
        HandleSocketFailed(Base, code);
      }
    }
  }

  lemma BegunFrame(s: Rpc)
    ensures Begun(s).cur.nretry == s.cur.nretry && Begun(s).maxRetry == s.maxRetry
  {
  }

  lemma SameLimit(c: Config, s: Rpc, t: Rpc)
    requires s.cur.nretry == t.cur.nretry && s.clock.deadline == t.clock.deadline
    ensures ConnectLimit(c, s) == ConnectLimit(c, t)
  {
  }
}
