/**
 One server-side manager and every goroutine that touches it, as a transition system whose steps
 are single atomic actions: one flag test, one flag set, one channel operation or one map update.
 Tests and the actions that rely on them are separate steps, so every interleaving is a run.
 The environment (the control connection, incoming streams, timeouts, listeners) is unconstrained.
 */
module ManagerMachine {
  import opened Channels
  import opened Options

  type Name = string
  type Port = string

  const CHANNEL_CAPACITY: nat := 10
  const DEFAULT_POOL_SIZE: nat := 2
  const MAX_POOL_SIZE: nat := 8
  const MAX_RETRIES: nat := 3

  /** The identity of a pipe request and of the one stream that a client opens for it. */
  datatype Token = Token(mgr: nat, seqno: nat)

  /** What a client sends on its control connection. */
  datatype Request =
    | HeartbeatRequest
    | HeartbeatResponse
    | EnableProxy(name: Name)
    | DisableProxy(name: Name)
    | UnknownRequest

  /** What a manager queues for its client. */
  datatype Notice =
    | PipeRequest(token: Token)
    | ProxyOk(name: Name, port: Port)
    | ProxyError
    | Beat

  /** The requests for which the dispatch loop builds a response. */
  predicate ProducesReply(m: Request) { m.HeartbeatRequest? || m.EnableProxy? }

  // Program counters, one datatype per goroutine.

  datatype RunPc =
    | InitTest(i: nat)
    | InitSend(i: nat)
    | Loop
    | Registering(name: Name)
    | Inserting(name: Name, port: Port)
    | Removing(name: Name)
    | ReplyTest(reply: Notice)
    | ReplySend(reply: Notice)
    | Finished
    | DoneSent

  datatype ClosePc = Test | SetFlag | CloseConn | CloseSend | CloseRecv | ClosePool | Sweep | Returned

  datatype RecvPc = RecvStart | Reading | RecvTest(msg: Request) | RecvSend(msg: Request) | RecvClosing(pc: ClosePc)

  datatype ServerPc = Idle | Queued | ServerClosing(pc: ClosePc)

  datatype SendPc = Waiting | WritingNotice(msg: Notice) | SendStopped

  datatype HandlerPc =
    | RequestTest
    | RequestSend
    | Popping
    | WritingRequest(pipe: Token)
    | Joined(pipe: Token)
    | GaveUp

  /** One user connection accepted by the proxy called `name`. */
  datatype Handler = Handler(name: Name, retry: nat, pc: HandlerPc)

  datatype PushPc = PushTest | PushSend

  /** Counts over the whole run, used to state conservation. */
  datatype Ledger = Ledger(
    initSent: nat, initSkipped: nat,
    popSent: nat, popSkipped: nat,
    popped: nat, timeouts: nat, refused: nat)

  /** The fields of a Manager; `listened` and `announced` remember every name that got a listener or a map entry. */
  datatype Fields = Fields(
    closed: bool,
    connOpen: bool,
    recvChan: Chan<Request>,
    sendChan: Chan<Notice>,
    pool: Chan<Token>,
    proxies: map<Name, Port>,
    listened: set<Name>,
    announced: set<Name>)

  /** The goroutines whose number is not fixed: user handlers, incoming pipes and pings. */
  datatype Crowd = Crowd(handlers: map<nat, Handler>, pushers: map<Token, PushPc>, pingers: nat)

  datatype State = State(
    me: nat,
    poolSize: nat,
    mgr: Fields,
    run: RunPc,
    recv: RecvPc,
    send: SendPc,
    server: ServerPc,
    crowd: Crowd,
    ledger: Ledger)
  {
    /** Every request issued so far has a sequence number below this. */
    function Issued(): nat { ledger.initSent + ledger.popSent }

    /** The state after `PipeRequest` has been queued. */
    function Requested(): State {
      this.(mgr := mgr.(sendChan := mgr.sendChan.Sent(PipeRequest(Token(me, Issued())))))
    }
  }

  /** The pool size a login request asks for, defaulted and clamped. */
  function PoolSizeFor(requested: int): (size: nat)
    ensures 1 <= size <= MAX_POOL_SIZE
    ensures 1 <= requested <= MAX_POOL_SIZE ==> size == requested
    ensures requested <= 0 ==> size == DEFAULT_POOL_SIZE
    ensures requested > MAX_POOL_SIZE ==> size == MAX_POOL_SIZE
  {
    var size := if requested > 0 then requested else DEFAULT_POOL_SIZE;
    if size > MAX_POOL_SIZE then MAX_POOL_SIZE else size
  }

  function Init(me: nat, requested: int): State {
    var size := PoolSizeFor(requested);
    State(
      me, size,
      Fields(false, true, Chan([], CHANNEL_CAPACITY, 0), Chan([], CHANNEL_CAPACITY, 0), Chan([], 2 * size, 0),
             map[], {}, {}),
      InitTest(0), RecvStart, Waiting, Idle, Crowd(map[], map[], 0), Ledger(0, 0, 0, 0, 0, 0, 0))
  }

  // ---- Manager.Run ----

  datatype RunAction =
    | RunReqTest
    | RunReqSend
    | RunTake
    | RunListen(port: Option<Port>)
    | RunInsert
    | RunRemove
    | RunReplyTest
    | RunReplySend
    | RunDone

  function AfterInit(s: State, i: nat): RunPc { if i < s.poolSize then InitTest(i) else Loop }

  /** An initial request that was not sent: the manager was closed, or the send panicked and recovered. */
  function InitSkip(s: State, i: nat): State {
    s.(run := AfterInit(s, i + 1), ledger := s.ledger.(initSkipped := s.ledger.initSkipped + 1))
  }

  function RunStep(s: State, a: RunAction): Option<State> {
    match a
    case RunReqTest =>
      if !s.run.InitTest? then None
      else if s.mgr.closed then Some(InitSkip(s, s.run.i))
      else Some(s.(run := InitSend(s.run.i)))
    case RunReqSend =>
      if !s.run.InitSend? then None
      else if !s.mgr.sendChan.IsOpen() then Some(InitSkip(s, s.run.i))
      else if s.mgr.sendChan.IsFull() then None
      else
        Some(s.Requested().(run := AfterInit(s, s.run.i + 1),
                            ledger := s.ledger.(initSent := s.ledger.initSent + 1)))
    case RunTake =>
      if !s.run.Loop? then None
      else if s.mgr.recvChan.buf != [] then
        Some(s.(mgr := s.mgr.(recvChan := s.mgr.recvChan.Taken()), run := Dispatch(s.mgr.recvChan.buf[0])))
      else if s.mgr.recvChan.IsOpen() then None
      else Some(s.(run := Finished))
    case RunListen(port) =>
      if !s.run.Registering? then None
      else if port.None? then Some(s.(run := ReplyTest(ProxyError)))
      else Some(s.(mgr := s.mgr.(listened := s.mgr.listened + {s.run.name}), run := Inserting(s.run.name, port.value)))
    case RunInsert =>
      if !s.run.Inserting? then None
      else
        Some(s.(mgr := InsertProxy(s.mgr, s.run.name, s.run.port),
                run := ReplyTest(ProxyOk(s.run.name, s.run.port))))
    case RunRemove =>
      if !s.run.Removing? then None
      else Some(s.(mgr := RemoveProxy(s.mgr, s.run.name), run := Loop))
    case RunReplyTest =>
      if !s.run.ReplyTest? then None
      else Some(s.(run := if s.mgr.closed then Finished else ReplySend(s.run.reply)))
    case RunReplySend =>
      if !s.run.ReplySend? then None
      else if !s.mgr.sendChan.IsOpen() then Some(s.(run := Loop)) // a recovered panic: SendMassage returns nil
      else if s.mgr.sendChan.IsFull() then None
      else Some(s.(mgr := s.mgr.(sendChan := s.mgr.sendChan.Sent(s.run.reply)), run := Loop))
    case RunDone =>
      if !s.run.Finished? then None else Some(s.(run := DoneSent, server := Queued))
  }

  function Dispatch(m: Request): RunPc {
    match m
    case HeartbeatRequest => ReplyTest(Beat)
    case HeartbeatResponse => Loop
    case EnableProxy(n) => Registering(n)
    case DisableProxy(n) => Removing(n)
    case UnknownRequest => Loop
  }

  function InsertProxy(m: Fields, n: Name, port: Port): Fields {
    m.(proxies := m.proxies[n := port], announced := m.announced + {n})
  }

  function RemoveProxy(m: Fields, n: Name): Fields { m.(proxies := m.proxies - {n}) }

  // ---- Manager.Close, called by awaitReceive and by the server ----

  /** Where `Close` goes after its step at `pc`. */
  function CloseNext(m: Fields, pc: ClosePc): ClosePc {
    match pc
    case Test => if m.closed then Returned else SetFlag
    case SetFlag => CloseConn
    case CloseConn => CloseSend
    case CloseSend => CloseRecv
    case CloseRecv => ClosePool
    case ClosePool => Sweep
    case Sweep => Returned
    case Returned => Returned
  }

  /** What the step of `Close` at `pc` does to the manager. */
  function CloseEffect(m: Fields, pc: ClosePc): Fields {
    match pc
    case Test => m
    case SetFlag => m.(closed := true)
    case CloseConn => m.(connOpen := false)
    case CloseSend => m.(sendChan := m.sendChan.Closed())
    case CloseRecv => m.(recvChan := m.recvChan.Closed())
    case ClosePool => m.(pool := m.pool.Closed())
    case Sweep => m.(proxies := map[])
    case Returned => m
  }

  // ---- Manager.awaitReceive ----

  datatype RecvAction = RecvBegin | RecvGet(msg: Request) | RecvError | RecvCheck | RecvPut | RecvClose

  function RecvStep(s: State, a: RecvAction): Option<State> {
    match a
    case RecvBegin =>
      if !s.recv.RecvStart? then None
      else Some(s.(recv := if s.mgr.closed then RecvClosing(Returned) else Reading))
    case RecvGet(m) =>
      if !s.recv.Reading? then None else Some(s.(recv := RecvTest(m)))
    case RecvError =>
      if !s.recv.Reading? then None else Some(s.(recv := RecvClosing(Test)))
    case RecvCheck =>
      if !s.recv.RecvTest? then None
      else Some(s.(recv := if s.mgr.closed then RecvClosing(Returned) else RecvSend(s.recv.msg)))
    case RecvPut =>
      if !s.recv.RecvSend? then None
      else if !s.mgr.recvChan.IsOpen() then Some(s.(recv := RecvClosing(Returned))) // a recovered panic
      else if s.mgr.recvChan.IsFull() then None
      else Some(s.(mgr := s.mgr.(recvChan := s.mgr.recvChan.Sent(s.recv.msg)), recv := Reading))
    case RecvClose =>
      if !s.recv.RecvClosing? || s.recv.pc.Returned? then None
      else Some(s.(mgr := CloseEffect(s.mgr, s.recv.pc), recv := RecvClosing(CloseNext(s.mgr, s.recv.pc))))
  }

  // ---- Manager.awaitSend ----

  datatype SendAction = SendTake | SendWrite(ok: bool)

  function SendStep(s: State, a: SendAction): Option<State> {
    match a
    case SendTake =>
      if !s.send.Waiting? then None
      else if s.mgr.sendChan.buf != [] then
        Some(s.(mgr := s.mgr.(sendChan := s.mgr.sendChan.Taken()), send := WritingNotice(s.mgr.sendChan.buf[0])))
      else if s.mgr.sendChan.IsOpen() then None
      else Some(s.(send := SendStopped))
    case SendWrite(ok) =>
      if !s.send.WritingNotice? then None
      else Some(s.(send := if ok then Waiting else SendStopped))
  }

  // ---- Server.awaitManagerDone ----

  datatype ServerAction = ServerForget | ServerClose

  function ServerStep(s: State, a: ServerAction): Option<State> {
    match a
    case ServerForget =>
      if !s.server.Queued? then None else Some(s.(server := ServerClosing(Test)))
    case ServerClose =>
      if !s.server.ServerClosing? || s.server.pc.Returned? then None
      else Some(s.(mgr := CloseEffect(s.mgr, s.server.pc), server := ServerClosing(CloseNext(s.mgr, s.server.pc))))
  }

  // ---- Proxy.handle and Manager.PopPipeConn ----

  datatype HandlerAction =
    | Accept(name: Name)
    | HandlerTest
    | HandlerSend
    | Pop
    | PopTimeout
    | RequestWritten(ok: bool)

  function WithHandler(s: State, h: nat, x: Handler): State {
    s.(crowd := s.crowd.(handlers := s.crowd.handlers[h := x]))
  }

  /** A pop whose request was not sent goes on to wait for a pipe all the same. */
  function PopSkip(s: State, h: nat, x: Handler): State {
    WithHandler(s, h, x.(pc := Popping)).(ledger := s.ledger.(popSkipped := s.ledger.popSkipped + 1))
  }

  function HandlerStep(s: State, h: nat, a: HandlerAction): Option<State> {
    if h !in s.crowd.handlers then
      // a proxy's listener accepts as soon as it exists, before the proxy is in the map
      if a.Accept? && a.name in s.mgr.listened then Some(WithHandler(s, h, Handler(a.name, 0, RequestTest)))
      else None
    else
      var x := s.crowd.handlers[h];
      match a
      case Accept(_) => None
      case HandlerTest =>
        if !x.pc.RequestTest? then None
        else if s.mgr.closed then Some(PopSkip(s, h, x))
        else Some(WithHandler(s, h, x.(pc := RequestSend)))
      case HandlerSend =>
        if !x.pc.RequestSend? then None
        else if !s.mgr.sendChan.IsOpen() then Some(PopSkip(s, h, x))
        else if s.mgr.sendChan.IsFull() then None
        else
          Some(WithHandler(s.Requested(), h, x.(pc := Popping)).(
               ledger := s.ledger.(popSent := s.ledger.popSent + 1)))
      case Pop =>
        if !x.pc.Popping? then None
        else if s.mgr.pool.buf != [] then
          Some(WithHandler(s, h, x.(pc := WritingRequest(s.mgr.pool.buf[0]))).(
               mgr := s.mgr.(pool := s.mgr.pool.Taken()), ledger := s.ledger.(popped := s.ledger.popped + 1)))
        else if s.mgr.pool.IsOpen() then None
        else Some(WithHandler(s, h, x.(pc := GaveUp)).(ledger := s.ledger.(refused := s.ledger.refused + 1)))
      case PopTimeout =>
        if !x.pc.Popping? then None
        else Some(WithHandler(s, h, x.(pc := GaveUp)).(ledger := s.ledger.(timeouts := s.ledger.timeouts + 1)))
      case RequestWritten(ok) =>
        if !x.pc.WritingRequest? then None
        else if ok then Some(WithHandler(s, h, x.(pc := Joined(x.pc.pipe))))
        else
          Some(WithHandler(s, h, Handler(x.name, x.retry + 1,
                                         if x.retry + 1 < MAX_RETRIES then RequestTest else GaveUp)))
  }

  // ---- Server.HandleStream and Manager.PushPipeConn for one incoming pipe ----

  datatype PushAction = PushBegin | PushCheck | PushPut

  function WithPushers(s: State, pushers: map<Token, PushPc>): State { s.(crowd := s.crowd.(pushers := pushers)) }

  /** Whether the select of PushPipeConn stores the pipe; otherwise the pool is full or the send panics. */
  predicate PoolAccepts(m: Fields) { m.pool.IsOpen() && !m.pool.IsFull() }

  function PushStep(s: State, p: Token, a: PushAction): Option<State> {
    var ps := s.crowd.pushers;
    match a
    case PushBegin =>
      if p in ps then None else Some(WithPushers(s, ps[p := PushTest]))
    case PushCheck =>
      if p !in ps || !ps[p].PushTest? then None
      else Some(WithPushers(s, if s.mgr.closed then ps - {p} else ps[p := PushSend]))
    case PushPut =>
      if p !in ps || !ps[p].PushSend? then None
      else if !PoolAccepts(s.mgr) then Some(WithPushers(s, ps - {p}))
      else Some(WithPushers(s, ps - {p}).(mgr := s.mgr.(pool := s.mgr.pool.Sent(p))))
  }

  // ---- Manager.Ping, called by the HTTP interface ----

  datatype PingAction = PingTest | PingSend

  function PingStep(s: State, a: PingAction): Option<State> {
    var n := s.crowd.pingers;
    match a
    case PingTest => Some(if s.mgr.closed then s else s.(crowd := s.crowd.(pingers := n + 1)))
    case PingSend =>
      if n == 0 then None
      else if !s.mgr.sendChan.IsOpen() then Some(s.(crowd := s.crowd.(pingers := n - 1)))
      else if s.mgr.sendChan.IsFull() then None
      else Some(s.(crowd := s.crowd.(pingers := n - 1), mgr := s.mgr.(sendChan := s.mgr.sendChan.Sent(Beat))))
  }

  datatype Action =
    | RunDo(run: RunAction)
    | RecvDo(recv: RecvAction)
    | SendDo(send: SendAction)
    | ServerDo(server: ServerAction)
    | HandlerDo(h: nat, handler: HandlerAction)
    | PushDo(pipe: Token, push: PushAction)
    | PingDo(ping: PingAction)

  /** One atomic action of one goroutine; `None` when it is blocked or not at that point. */
  function Step(s: State, a: Action): Option<State> {
    match a
    case RunDo(x) => RunStep(s, x)
    case RecvDo(x) => RecvStep(s, x)
    case SendDo(x) => SendStep(s, x)
    case ServerDo(x) => ServerStep(s, x)
    case HandlerDo(h, x) => HandlerStep(s, h, x)
    case PushDo(p, x) => PushStep(s, p, x)
    case PingDo(x) => PingStep(s, x)
  }

  /** The state after a whole schedule, or `None` if some action of it was not enabled. */
  function Exec(s: State, run: seq<Action>): Option<State>
    decreases |run|
  {
    if run == [] then Some(s)
    else
      match Step(s, run[0])
      case None => None
      case Some(s') => Exec(s', run[1..])
  }
}
