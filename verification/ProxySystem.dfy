/**
 The whole deployment: one server with its table of managers, any number of client processes, the
 control connections between them and every pipe stream ever opened. Each step is one atomic action
 of one goroutine; a manager's own goroutines take exactly the steps of `ManagerMachine`.
 */
module ProxySystem {
  import opened Options
  import opened ManagerMachine

  type Id = string
  type Address = string

  /** A client's configured proxy; the table is shared by all logins of the process. */
  datatype LocalProxy = LocalProxy(addr: Address, started: bool)

  /** `id` is the last id a login response gave; `pending` and `agent` name the manager at the other end. */
  datatype Client = Client(id: Option<Id>, proxies: map<Name, LocalProxy>, pending: Option<nat>, agent: Option<nat>)

  datatype Frame = LoginOk(id: Id) | Note(msg: Notice)

  /** How far the server has got with a login: manager running, manager in the table, response written. */
  datatype LoginPc = Created | Listed | Answered

  /** The control connection of one manager, and who logged in over it. */
  datatype Link = Link(owner: nat, id: Id, login: LoginPc, toClient: seq<Frame>, toServer: seq<Request>)

  /** The goroutine awaitWork at the client end of a pipe. */
  datatype FarEnd =
    | Awaiting
    | Found(name: Name)
    | Ready(name: Name)
    | JoinedTo(name: Name, addr: Address)
    | FarClosed

  /** A stream opened by `client` under `id`; `request` is the proxy name a handler wrote on it. */
  datatype Pipe = Pipe(client: nat, id: Id, request: Option<Name>, far: FarEnd)

  /** Where a pipe request, or the stream opened for it, is. */
  datatype Place =
    | InQueue(m: nat)           // in the manager's send channel
    | BeingWritten(m: nat)      // taken by awaitSend
    | OnWire(m: nat)            // written, not yet read by the agent
    | AtClient(c: nat)          // a goroutine awaitWork that has no stream yet
    | InTransit                 // stream opened, not yet handled by the server
    | Pushing(m: nat)           // in PushPipeConn
    | Pooled(m: nat)
    | Held(m: nat, h: nat)      // popped by a handler
    | Carrying(m: nat, h: nat)  // joined with a user connection
    | Discarded(m: nat)         // popped and closed again
    | Rejected                  // closed by the server without being pooled
    | Abandoned                 // PushPipeConn panicked on the closed pool: neither pooled nor closed
    | Failed                    // the notice or the stream was lost

  datatype System = System(
    mgrs: seq<State>,
    links: seq<Link>,
    table: map<Id, nat>,
    clients: map<nat, Client>,
    pipes: map<Token, Pipe>,
    place: map<Token, Place>)

  function Start(config: map<nat, map<Name, Address>>): System {
    System([], [], map[],
           map c | c in config :: Client(None, map n | n in config[c] :: LocalProxy(config[c][n], false), None, None),
           map[], map[])
  }

  // ---- Steps of a manager's goroutines ----

  datatype Move = Move(token: Token, place: Place)

  /** The token, if any, that a manager's step moves, and where to. */
  function Moved(x: State, a: Action): Option<Move> {
    match a
    case RunDo(RunReqSend) =>
      if x.mgr.sendChan.IsOpen() then Some(Move(Token(x.me, x.Issued()), InQueue(x.me))) else None
    case HandlerDo(h, b) => HandlerMoved(x, h, b)
    case SendDo(b) => SendMoved(x, b)
    case PushDo(p, b) => PushMoved(x, p, b)
    case _ => None
  }

  function HandlerMoved(x: State, h: nat, a: HandlerAction): Option<Move> {
    match a
    case HandlerSend => if x.mgr.sendChan.IsOpen() then Some(Move(Token(x.me, x.Issued()), InQueue(x.me))) else None
    case Pop => if x.mgr.pool.buf != [] then Some(Move(x.mgr.pool.buf[0], Held(x.me, h))) else None
    case RequestWritten(ok) =>
      if h in x.crowd.handlers && x.crowd.handlers[h].pc.WritingRequest? then
        Some(Move(x.crowd.handlers[h].pc.pipe, if ok then Carrying(x.me, h) else Discarded(x.me)))
      else None
    case _ => None
  }

  function SendMoved(x: State, a: SendAction): Option<Move> {
    match a
    case SendTake =>
      if x.mgr.sendChan.buf != [] && x.mgr.sendChan.buf[0].PipeRequest? then
        Some(Move(x.mgr.sendChan.buf[0].token, BeingWritten(x.me)))
      else None
    case SendWrite(ok) =>
      if x.send.WritingNotice? && x.send.msg.PipeRequest? then
        Some(Move(x.send.msg.token, if ok then OnWire(x.me) else Failed))
      else None
  }

  function PushMoved(x: State, p: Token, a: PushAction): Option<Move> {
    match a
    case PushBegin => Some(Move(p, Pushing(x.me)))
    case PushCheck => if x.mgr.closed then Some(Move(p, Rejected)) else None
    case PushPut =>
      Some(Move(p, if PoolAccepts(x.mgr) then Pooled(x.me) else if x.mgr.pool.IsOpen() then Rejected else Abandoned))
  }

  function Relocate(place: map<Token, Place>, mv: Option<Move>): map<Token, Place> {
    if mv.None? then place else place[mv.value.token := mv.value.place]
  }

  /** What the rest of the system must offer for a manager's step: bytes to read, or a stream with its id. */
  predicate Offered(s: System, m: nat, a: Action)
    requires m < |s.mgrs| == |s.links|
  {
    match a
    case RecvDo(RecvGet(msg)) => s.links[m].toServer != [] && s.links[m].toServer[0] == msg
    case PushDo(p, PushBegin) =>
      && p in s.place && s.place[p] == InTransit
      && p in s.pipes && s.pipes[p].id in s.table && s.table[s.pipes[p].id] == m
    case _ => true
  }

  function LinkAfter(x: State, link: Link, a: Action): Link {
    match a
    case RecvDo(RecvGet(_)) => if link.toServer != [] then link.(toServer := link.toServer[1..]) else link
    case SendDo(SendWrite(true)) =>
      if x.send.WritingNotice? then link.(toClient := link.toClient + [Note(x.send.msg)]) else link
    case _ => link
  }

  function TableAfter(table: map<Id, nat>, link: Link, a: Action): map<Id, nat> {
    if a == ServerDo(ServerForget) then table - {link.id} else table
  }

  /** A handler that writes its request puts the proxy's name on the pipe. */
  function PipesAfter(x: State, pipes: map<Token, Pipe>, a: Action): map<Token, Pipe> {
    match a
    case HandlerDo(h, RequestWritten(true)) =>
      if h in x.crowd.handlers && x.crowd.handlers[h].pc.WritingRequest? && x.crowd.handlers[h].pc.pipe in pipes then
        var p := x.crowd.handlers[h].pc.pipe;
        pipes[p := pipes[p].(request := Some(x.crowd.handlers[h].name))]
      else pipes
    case _ => pipes
  }

  function ManagerStep(s: System, m: nat, a: Action): Option<System> {
    if !(m < |s.mgrs| == |s.links|) || !Offered(s, m, a) then None
    else
      var x := s.mgrs[m];
      match Step(x, a)
      case None => None
      case Some(x') =>
        Some(System(s.mgrs[m := x'], s.links[m := LinkAfter(x, s.links[m], a)], TableAfter(s.table, s.links[m], a),
                    s.clients, PipesAfter(x, s.pipes, a), Relocate(s.place, Moved(x, a))))
  }

  // ---- Steps of the server's login handling and of the clients ----

  datatype ClientAction =
    | Login(id: Id, requested: int)
    | LoginRead
    | LoginAbort
    | AgentSend(msg: Request)
    | AgentRead
    | AgentStop

  function WithClient(s: System, c: nat, x: Client): System { s.(clients := s.clients[c := x]) }

  /**
   A login request accepted by the server: genId finds the id unused, and the manager starts to run.
   It is put in the table by a later step, so other logins and the manager's own end may come between.
   */
  function LoginStep(s: System, c: nat, x: Client, id: Id, requested: int): Option<System> {
    if x.pending.Some? || x.agent.Some? || id in s.table then None
    else
      var m := |s.mgrs|;
      Some(WithClient(s, c, x.(pending := Some(m))).(
           mgrs := s.mgrs + [Init(m, requested)],
           links := s.links + [Link(c, id, Created, [], [])]))
  }

  /** The first frame a client reads must be the login response; anything else fails the login. */
  function LoginReadStep(s: System, c: nat, x: Client): Option<System> {
    if x.pending.None? || !(x.pending.value < |s.links|) || s.links[x.pending.value].toClient == [] then None
    else
      var f := s.links[x.pending.value].toClient[0];
      if f.LoginOk? then
        Some(WithClient(s, c, x.(id := Some(f.id), agent := x.pending, pending := None)).(
             links := DropFrame(s.links, x.pending.value)))
      else Some(WithClient(s, c, x.(pending := None)))
  }

  function DropFrame(links: seq<Link>, m: nat): seq<Link>
    requires m < |links| && links[m].toClient != []
  {
    links[m := links[m].(toClient := links[m].toClient[1..])]
  }

  /** The dispatch loop of the agent. */
  function AgentReadStep(s: System, c: nat, x: Client): Option<System> {
    if x.agent.None? || !(x.agent.value < |s.links|) || s.links[x.agent.value].toClient == [] then None
    else
      var f := s.links[x.agent.value].toClient[0];
      var s' := s.(links := DropFrame(s.links, x.agent.value));
      match f
      case LoginOk(_) => Some(s')
      case Note(PipeRequest(t)) => Some(s'.(place := s.place[t := AtClient(c)]))
      case Note(ProxyOk(n, _)) =>
        if n in x.proxies then Some(WithClient(s', c, x.(proxies := x.proxies[n := x.proxies[n].(started := true)])))
        else Some(s')
      case Note(_) => Some(s')
  }

  function ClientStep(s: System, c: nat, a: ClientAction): Option<System> {
    if c !in s.clients then None
    else
      var x := s.clients[c];
      match a
      case Login(id, requested) => LoginStep(s, c, x, id, requested)
      case LoginRead => LoginReadStep(s, c, x)
      case LoginAbort => if x.pending.None? then None else Some(WithClient(s, c, x.(pending := None)))
      case AgentSend(msg) =>
        if x.agent.None? || !(x.agent.value < |s.links|) then None
        else
          var link := s.links[x.agent.value];
          Some(s.(links := s.links[x.agent.value := link.(toServer := link.toServer + [msg])]))
      case AgentRead => AgentReadStep(s, c, x)
      case AgentStop => if x.agent.None? then None else Some(WithClient(s, c, x.(agent := None)))
  }

  // ---- Steps of awaitWork, from the pipe request to the local connection ----

  datatype WorkAction = WorkOpen | WorkFail | StreamDrop | WorkLookup | WorkCheck | WorkDial(ok: bool)

  function WithFar(s: System, t: Token, far: FarEnd): System
    requires t in s.pipes
  {
    s.(pipes := s.pipes[t := s.pipes[t].(far := far)])
  }

  function WorkStep(s: System, t: Token, a: WorkAction): Option<System> {
    if t !in s.place then None
    else
      match a
      case WorkOpen => // NewPipeConn sends the id that the client process holds at this moment
        if !s.place[t].AtClient? || s.place[t].c !in s.clients || s.clients[s.place[t].c].id.None? then None
        else
          var c := s.place[t].c;
          Some(s.(pipes := s.pipes[t := Pipe(c, s.clients[c].id.value, None, Awaiting)],
                  place := s.place[t := InTransit]))
      case WorkFail => if !s.place[t].AtClient? then None else Some(s.(place := s.place[t := Failed]))
      case StreamDrop => if !s.place[t].InTransit? then None else Some(s.(place := s.place[t := Rejected]))
      case WorkLookup =>
        if t !in s.pipes || !s.pipes[t].far.Awaiting? || s.pipes[t].request.None? then None
        else if s.pipes[t].client !in s.clients then None
        else
          var n := s.pipes[t].request.value;
          Some(WithFar(s, t, if n in s.clients[s.pipes[t].client].proxies then Found(n) else FarClosed))
      case WorkCheck =>
        if t !in s.pipes || !s.pipes[t].far.Found? || s.pipes[t].client !in s.clients then None
        else
          var n, ps := s.pipes[t].far.name, s.clients[s.pipes[t].client].proxies;
          Some(WithFar(s, t, if n in ps && ps[n].started then Ready(n) else FarClosed))
      case WorkDial(ok) =>
        if t !in s.pipes || !s.pipes[t].far.Ready? || s.pipes[t].client !in s.clients then None
        else
          var n, ps := s.pipes[t].far.name, s.clients[s.pipes[t].client].proxies;
          Some(WithFar(s, t, if n in ps && ok then JoinedTo(n, ps[n].addr) else FarClosed))
  }

  datatype SystemAction =
    | ManagerDo(m: nat, act: Action)
    | LoginInsert(m: nat)
    | LoginAnswer(m: nat)
    | ClientDo(c: nat, client: ClientAction)
    | WorkDo(t: Token, work: WorkAction)

  /** The manager enters the table, in place of any other under the same id. */
  function InsertStep(s: System, m: nat): Option<System> {
    if !(m < |s.links|) || !s.links[m].login.Created? then None
    else Some(s.(links := s.links[m := s.links[m].(login := Listed)], table := s.table[s.links[m].id := m]))
  }

  function AnswerStep(s: System, m: nat): Option<System> {
    if !(m < |s.links|) || !s.links[m].login.Listed? then None
    else
      var link := s.links[m];
      Some(s.(links := s.links[m := link.(login := Answered, toClient := link.toClient + [LoginOk(link.id)])]))
  }

  function SystemStep(s: System, a: SystemAction): Option<System> {
    match a
    case ManagerDo(m, b) => ManagerStep(s, m, b)
    case LoginInsert(m) => InsertStep(s, m)
    case LoginAnswer(m) => AnswerStep(s, m)
    case ClientDo(c, b) => ClientStep(s, c, b)
    case WorkDo(t, b) => WorkStep(s, t, b)
  }

  function SystemExec(s: System, run: seq<SystemAction>): Option<System>
    decreases |run|
  {
    if run == [] then Some(s)
    else
      match SystemStep(s, run[0])
      case None => None
      case Some(s') => SystemExec(s', run[1..])
  }
}
