/** One client RPC: the calls it sends, the completions it gives them, its
    timers and its end. Every function follows the method of controller.cpp or
    channel.cpp named above it; the version of a call is its nretry, and the id
    of version n is the correlation id plus n + 1. */
module RpcMachine {
  import opened Bytes

  const ECANCELED: int := 125
  const EBACKUPREQUEST: int := 1007
  const ERPCTIMEDOUT: int := 1008
  const ELIMIT: int := 2004
  const MAX_RETRY_COUNT: nat := 1000
  const ID_MAX_RANGE: nat := 1024
  const UNSET: int := -123456789

  datatype Id = Base | Version(nretry: nat)

  /** What matters of Controller::Call: its version, whether it holds a socket
      and whether the load balancer waits for its feedback. */
  datatype Call = Call(nretry: nat, sock: bool, feedback: bool)

  datatype TimerKind = Backup | Timeout
  datatype Timer = Timer(kind: TimerKind, at: int)

  /** One run of Call::OnComplete. */
  datatype Completion = Completion(nretry: nat, error: int, responded: bool, endOfRpc: bool)

  /** What IssueRPC meets: no server to talk to; a server but no connection; a
      connection but authentication or packing fails; or the request goes out. */
  datatype Send =
    | NoServer(error: int)
    | NoConnection(error: int, feedback: bool)
    | NotPacked(error: int, feedback: bool)
    | Sent(feedback: bool)

  /** Options of the RPC and the choices of its environment: the outcome and
      the start time of each version, and the result of adding a timer when
      CallMethod starts and when the backup request is due. */
  datatype Config = Config(
    userPolicy: bool, retriable: set<int>,
    timeoutMs: int, backupMs: int, connectMs: int,
    sends: seq<Send>, times: seq<int>, timerRc: int, rearmRc: int)

  /** The deadline, _timeout_id, the timers armed and not yet fired, how many
      timers were ever added, and every time limit that was set. */
  datatype Clock = Clock(deadline: int, timerId: nat, timers: map<nat, Timer>, added: nat, limits: seq<int>)

  /** Versions issued, completions in order, sockets taken and released,
      selections whose feedback is due and feedback given, done callbacks run
      and CHECKs that failed. */
  datatype History = History(
    issued: seq<nat>, log: seq<Completion>, taken: nat, released: nat,
    selected: multiset<nat>, fedBack: multiset<nat>, doneRuns: nat, checksFailed: nat)

  /** `first` is the first version that IssueRPC may be called for. */
  datatype Rpc = Rpc(
    maxRetry: nat, first: nat, cur: Call, unfinished: Option<Call>, error: int, ended: bool,
    clock: Clock, hist: History)

  function SendOf(c: Config, n: nat): Send {
    if n < |c.sends| then c.sends[n] else Sent(false)
  }

  function TimeOf(c: Config, n: nat): int {
    if n < |c.times| then c.times[n] else 0
  }

  /** SetFailed */
  function SetFailed(s: Rpc, error: int): (r: Rpc)
    ensures r.error != 0
  {
    s.(error := if error == 0 then -1 else error)
  }

  /** bthread_timer_add into _timeout_id */
  function AddTimer(s: Rpc, t: Timer): Rpc {
    var id := s.clock.added + 1;
    s.(clock := s.clock.(timerId := id, added := id, timers := s.clock.timers[id := t],
                         limits := s.clock.limits + [t.at]))
  }

  function Check(s: Rpc, holds: bool): Rpc {
    if holds then s else s.(hist := s.hist.(checksFailed := s.hist.checksFailed + 1))
  }

  function One(b: bool, n: nat): multiset<nat> {
    if b then multiset{n} else multiset{}
  }

  /** Call::OnComplete: logs, feeds back, releases the socket. */
  function OnComplete(h: History, call: Call, error: int, responded: bool, endOfRpc: bool): History {
    h.(log := h.log + [Completion(call.nretry, error, responded, endOfRpc)],
       released := h.released + (if call.sock then 1 else 0),
       fedBack := h.fedBack + One(call.feedback, call.nretry))
  }

  function CompleteCurrent(s: Rpc, error: int, responded: bool, endOfRpc: bool): Rpc {
    s.(hist := OnComplete(s.hist, s.cur, error, responded, endOfRpc), cur := s.cur.(sock := false))
  }

  /** OnComplete on _unfinished_call, which is then deleted. */
  function CompleteUnfinished(s: Rpc, error: int, responded: bool, endOfRpc: bool): Rpc
    requires s.unfinished.Some?
  {
    s.(hist := OnComplete(s.hist, s.unfinished.value, error, responded, endOfRpc), unfinished := None)
  }

  /** The start of IssueRPC: a new version, its error and feedback cleared. */
  function Begun(s: Rpc): Rpc {
    s.(error := 0, hist := s.hist.(issued := s.hist.issued + [s.cur.nretry]), cur := s.cur.(feedback := false))
  }

  /** A server was selected; `sock` says whether a connection was had, too. */
  function Selected(s: Rpc, feedback: bool, sock: bool): Rpc {
    s.(cur := s.cur.(feedback := feedback, sock := s.cur.sock || sock),
       hist := s.hist.(taken := s.hist.taken + (if sock then 1 else 0),
                       selected := s.hist.selected + One(feedback, s.cur.nretry)))
  }

  /** The limit on connecting, cut down to the deadline of the RPC. */
  function ConnectLimit(c: Config, s: Rpc): seq<int> {
    if c.connectMs <= 0 then []
    else
      var at := c.connectMs * 1000 + TimeOf(c, s.cur.nretry);
      [if 0 <= s.clock.deadline < at then s.clock.deadline else at]
  }

  /** IssueRPC up to HandleSendFailed or the end: error is zero exactly when
      the request went out. */
  function Attempt(c: Config, s: Rpc): Rpc {
    var s := Begun(s);
    match SendOf(c, s.cur.nretry)
    case NoServer(e) => SetFailed(s, e)
    case NoConnection(e, fb) => SetFailed(Selected(s, fb, false), e)
    case NotPacked(e, fb) => SetFailed(Selected(s, fb, true), e)
    case Sent(fb) => Selected(s, fb, true).(clock := s.clock.(limits := s.clock.limits + ConnectLimit(c, s)))
  }

  /** IssueRPC with HandleSendFailed */
  function Issue(c: Config, s: Rpc): Rpc
    decreases s.maxRetry - s.cur.nretry, 3
  {
    var s := Attempt(c, s);
    if s.error == 0 then s else SendFailed(c, s)
  }

  /** HandleSendFailed */
  function SendFailed(c: Config, s: Rpc): Rpc
    decreases s.maxRetry - s.cur.nretry, 2
  {
    Returned(c, s, Version(s.cur.nretry), false, s.error)
  }

  /** OnVersionedRPCReturned */
  function Returned(c: Config, s: Rpc, id: Id, responded: bool, saved: int): Rpc
    decreases s.maxRetry - s.cur.nretry, 1
  {
    if id != Base && id != Version(s.cur.nretry) then
      if s.unfinished.Some? && id == Version(s.unfinished.value.nretry) then
        if s.error == 0 then Conclude(c, s, id, responded)
        else CompleteUnfinished(s, s.error, responded, false).(error := saved)
      else s.(error := saved)
    else Conclude(c, s, id, responded)
  }

  /** The part of OnVersionedRPCReturned after the interception of old calls. */
  function Conclude(c: Config, s: Rpc, id: Id, responded: bool): Rpc
    decreases s.maxRetry - s.cur.nretry, 0
  {
    if (s.error == 0 && !c.userPolicy) || s.cur.nretry >= s.maxRetry then EndRpc(s, id, responded)
    else if s.error == EBACKUPREQUEST then
      if c.timeoutMs >= 0 && c.rearmRc != 0 then EndRpc(SetFailed(s, c.rearmRc), id, responded)
      else Issue(c, BackedUp(c, s))
    else if s.error in c.retriable then Issue(c, Retried(s, id, responded))
    else EndRpc(s, id, responded)
  }

  /** The timer is armed again for the deadline and the current call moves to
      _unfinished_call. */
  function BackedUp(c: Config, s: Rpc): Rpc {
    var s := if c.timeoutMs >= 0 then AddTimer(s, Timer(Timeout, s.clock.deadline)) else s;
    Check(s, s.unfinished.None?).(unfinished := Some(s.cur), cur := Call(s.cur.nretry + 1, false, false))
  }

  /** The current call is completed and the next version takes its place. */
  function Retried(s: Rpc, id: Id, responded: bool): Rpc {
    var s := CompleteCurrent(Check(s, id == Version(s.cur.nretry)), s.error, responded, false);
    s.(cur := s.cur.(nretry := s.cur.nretry + 1))
  }

  function StopTimer(s: Rpc): Rpc {
    if s.clock.timerId == 0 then s
    else s.(clock := s.clock.(timers := s.clock.timers - {s.clock.timerId}, timerId := 0))
  }

  /** The current call, or an error of the whole RPC, ends it. */
  function EndByCurrent(s: Rpc, responded: bool): Rpc {
    var s1 :=
      if s.unfinished.None? then s
      else CompleteUnfinished(s, if s.error == 0 then EBACKUPREQUEST else s.error, false, false);
    CompleteCurrent(s1, s.error, responded, true)
  }

  /** The backed-up call ends the RPC. */
  function EndByUnfinished(s: Rpc, id: Id, responded: bool): Rpc {
    var s1 := CompleteCurrent(Check(s, s.unfinished.Some?), ECANCELED, false, false);
    if s1.unfinished.None? then s1
    else if id == Version(s1.unfinished.value.nretry) then CompleteUnfinished(s1, s.error, responded, true)
    else CompleteUnfinished(Check(s1, false), ECANCELED, false, true)
  }

  /** EndRPC */
  function EndRpc(s: Rpc, id: Id, responded: bool): Rpc {
    var s := StopTimer(s);
    var s :=
      if id == Base || id == Version(s.cur.nretry) then EndByCurrent(s, responded)
      else EndByUnfinished(s, id, responded);
    s.(ended := true, hist := s.hist.(doneRuns := s.hist.doneRuns + 1))
  }

  // ---- CallMethod ----

  function Distance(a: int, b: int): int {
    if a < b then b - a else a - b
  }

  /** Controller::set_max_retry and the clamp of CallMethod: of the numbers
      allowed, the one nearest to what the controller asks for or, if it has not
      said, the channel. */
  function EffectiveMaxRetry(ofController: int, ofChannel: int): (r: nat)
    ensures r <= 1000
    ensures ofController != UNSET ==>
              forall m: nat :: m <= 1000 ==> Distance(r, ofController) <= Distance(m, ofController)
    ensures ofController == UNSET ==>
              forall m: nat :: m <= 1000 ==> Distance(r, ofChannel) <= Distance(m, ofChannel)
  {
    var wanted := if ofController == UNSET then ofChannel else ofController;
    if wanted < 0 then 0 else if wanted > MAX_RETRY_COUNT then MAX_RETRY_COUNT else wanted
  }

  function Fresh(maxRetry: nat): Rpc {
    Rpc(maxRetry, 0, Call(0, false, false), None, 0, false, Clock(-1, 0, map[], 0, []),
        History([], [], 0, 0, multiset{}, multiset{}, 0, 0))
  }

  /** CallMethod after the id was locked. `early` is the error of a failed
      serialization or ELIMIT when too much user code is running; `stream` says
      that the request opens a stream, which allows neither retry nor backup. */
  function CallMethod(c: Config, maxRetry: nat, start: int, early: Option<int>, stream: bool): Rpc {
    var s := Fresh(maxRetry);
    if early.Some? then SendFailed(c, SetFailed(s.(first := 1), early.value))
    else
      var s := if stream then s.(maxRetry := 0) else s;
      var backupMs := if stream then -1 else c.backupMs;
      var s := s.(clock := s.clock.(deadline := if c.timeoutMs < 0 then -1 else c.timeoutMs * 1000 + start));
      if backupMs >= 0 && (backupMs < c.timeoutMs || c.timeoutMs < 0) then
        StartTimed(c, s, Timer(Backup, backupMs * 1000 + start))
      else if c.timeoutMs >= 0 then StartTimed(c, s, Timer(Timeout, s.clock.deadline))
      else Issue(c, s)
  }

  function StartTimed(c: Config, s: Rpc, t: Timer): Rpc {
    if c.timerRc != 0 then SendFailed(c, SetFailed(s.(first := 1), c.timerRc))
    else Issue(c, AddTimer(s, t))
  }

  // ---- Events ----

  /** What can reach the RPC once its id is unlocked: a response or a socket
      failure for a version, a timer, a cancellation. */
  datatype Event =
    | Response(nretry: nat, error: int)
    | SocketFailed(nretry: nat, error: int)
    | Fire(timer: nat)
    | Cancel

  function Fired(s: Rpc, t: nat): Rpc {
    s.(clock := s.clock.(timers := s.clock.timers - {t}))
  }

  /** ProcessXXXResponse and HandleSocketFailed. The id is destroyed when the
      RPC ends, so what comes later is dropped. */
  function Step(c: Config, s: Rpc, e: Event): Rpc {
    if s.ended then s
    else match e
      case Response(n, error) =>
        Returned(c, if error == 0 then s else SetFailed(s, error), Version(n), true, s.error)
      case SocketFailed(n, error) => Returned(c, SetFailed(s, error), Version(n), false, s.error)
      case Fire(t) =>
        if t !in s.clock.timers then s
        else
          var code := if s.clock.timers[t].kind == Backup then EBACKUPREQUEST else ERPCTIMEDOUT;
          Returned(c, SetFailed(Fired(s, t), code), Base, false, s.error)
      case Cancel => Returned(c, SetFailed(s, ECANCELED), Base, false, s.error)
  }

  function Run(c: Config, s: Rpc, events: seq<Event>): Rpc {
    if events == [] then s else Step(c, Run(c, s, events[..|events| - 1]), events[|events| - 1])
  }
}
