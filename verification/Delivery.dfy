/**
 The whole of what the proxy is for, once: a client logs in and registers a proxy, a user connects to its
 port, and the connection is carried over a pipe to the client's local service.
 */
module Delivery {
  import opened Channels
  import opened Options
  import opened ManagerMachine
  import opened ProxySystem
  import opened IdReuse

  /** Steps of the only manager. */
  lemma Manages(s0: System, run: seq<SystemAction>, s: System, a: Action) returns (run': seq<SystemAction>, s': System)
    requires SystemExec(s0, run) == Some(s) && |s.mgrs| == |s.links| == 1
    requires Offered(s, 0, a) && Step(s.mgrs[0], a).Some?
    ensures SystemExec(s0, run') == Some(s') && |s'.mgrs| == |s'.links| == 1
    ensures s'.mgrs[0] == Step(s.mgrs[0], a).value && s'.links[0] == LinkAfter(s.mgrs[0], s.links[0], a)
    ensures s'.table == TableAfter(s.table, s.links[0], a) && s'.clients == s.clients
    ensures s'.pipes == PipesAfter(s.mgrs[0], s.pipes, a) && s'.place == Relocate(s.place, Moved(s.mgrs[0], a))
  {
    run', s' := Do(s0, run, s, ManagerDo(0, a));
  }

  const FIRST: Token := Token(0, 0)

  /** The manager's fields when it has sent its one initial request and answered a registration. */
  function Serving(n: Name, p: Port): Fields {
    Init(0, 1).mgr.(sendChan := Chan([PipeRequest(FIRST), ProxyOk(n, p)], CHANNEL_CAPACITY, 0),
                    proxies := map[n := p], listened := {n}, announced := {n})
  }

  /** The dispatch loop sends its one initial request. */
  lemma AsksForPipe(s0: System, run: seq<SystemAction>, s: System, x: State)
    returns (run': seq<SystemAction>, s': System)
    requires SystemExec(s0, run) == Some(s) && s.mgrs == [x] && |s.links| == 1
    requires x.me == 0 && x.poolSize == 1 && x.run == InitSend(0) && x.Issued() == 0
    requires x.mgr.sendChan == Chan([], CHANNEL_CAPACITY, 0)
    ensures SystemExec(s0, run') == Some(s') && |s'.mgrs| == 1
    ensures s' == s.(mgrs := s'.mgrs, place := s.place[FIRST := InQueue(0)])
    ensures var y := s'.mgrs[0];
            && y == x.(run := Loop, ledger := x.ledger.(initSent := x.ledger.initSent + 1),
                       mgr := x.mgr.(sendChan := Chan([PipeRequest(FIRST)], CHANNEL_CAPACITY, 0)))
  {
    run', s' := Manages(s0, run, s, RunDo(RunReqSend));
    assert s'.links == s.links;
  }

  /** The dispatch loop takes the registration and listens. */
  lemma Listens(s0: System, run: seq<SystemAction>, s: System, x: State, n: Name, p: Port)
    returns (run': seq<SystemAction>, s': System)
    requires SystemExec(s0, run) == Some(s) && s.mgrs == [x] && |s.links| == 1
    requires x.run == Loop && x.mgr.recvChan == Chan([EnableProxy(n)], CHANNEL_CAPACITY, 0)
    ensures SystemExec(s0, run') == Some(s') && |s'.mgrs| == 1 && s' == s.(mgrs := s'.mgrs)
    ensures s'.mgrs[0] == x.(run := Inserting(n, p),
                             mgr := x.mgr.(recvChan := Chan([], CHANNEL_CAPACITY, 0), listened := x.mgr.listened + {n}))
  {
    run', s' := DoQuiet(s0, run, s, 0, RunDo(RunTake));
    run', s' := DoQuiet(s0, run', s', 0, RunDo(RunListen(Some(p))));
  }

  /** It inserts the proxy and answers. */
  lemma Answers(s0: System, run: seq<SystemAction>, s: System, x: State, n: Name, p: Port)
    returns (run': seq<SystemAction>, s': System)
    requires SystemExec(s0, run) == Some(s) && s.mgrs == [x] && |s.links| == 1
    requires x.run == Inserting(n, p) && !x.mgr.closed && x.mgr.sendChan.IsOpen() && !x.mgr.sendChan.IsFull()
    ensures SystemExec(s0, run') == Some(s') && |s'.mgrs| == 1 && s' == s.(mgrs := s'.mgrs)
    ensures var m := InsertProxy(x.mgr, n, p);
            s'.mgrs[0] == x.(run := Loop, mgr := m.(sendChan := m.sendChan.Sent(ProxyOk(n, p))))
  {
    run', s' := DoQuiet(s0, run, s, 0, RunDo(RunInsert));
    run', s' := DoQuiet(s0, run', s', 0, RunDo(RunReplyTest));
    run', s' := DoQuiet(s0, run', s', 0, RunDo(RunReplySend));
  }

  lemma Registers(s0: System, run: seq<SystemAction>, s: System, n: Name, p: Port)
    returns (run': seq<SystemAction>, s': System)
    requires SystemExec(s0, run) == Some(s) && |s.mgrs| == |s.links| == 1
    requires s.mgrs[0] == WithRequest(Init(0, 1), EnableProxy(n))
    ensures SystemExec(s0, run') == Some(s') && |s'.mgrs| == 1
    ensures s' == s.(mgrs := s'.mgrs, place := s.place[FIRST := InQueue(0)])
    ensures s'.mgrs[0] == Init(0, 1).(recv := Reading, run := Loop, mgr := Serving(n, p), ledger := ONE_SENT)
  {
    run', s' := DoQuiet(s0, run, s, 0, RunDo(RunReqTest));
    run', s' := AsksForPipe(s0, run', s', s'.mgrs[0]);
    run', s' := Listens(s0, run', s', s'.mgrs[0], n, p);
    run', s' := Answers(s0, run', s', s'.mgrs[0], n, p);
    assert {} + {n} == {n};
  }

  const ONE_SENT: Ledger := Ledger(1, 0, 0, 0, 0, 0, 0)

  /** awaitSend writes the oldest notice. */
  lemma Writes(s0: System, run: seq<SystemAction>, s: System) returns (run': seq<SystemAction>, s': System)
    requires SystemExec(s0, run) == Some(s) && |s.mgrs| == |s.links| == 1
    requires s.mgrs[0].send == Waiting && s.mgrs[0].mgr.sendChan.buf != []
    ensures SystemExec(s0, run') == Some(s') && |s'.mgrs| == |s'.links| == 1
    ensures s'.table == s.table && s'.clients == s.clients && s'.pipes == s.pipes
    ensures var x, msg := s.mgrs[0], s.mgrs[0].mgr.sendChan.buf[0];
            && s'.mgrs[0] == x.(mgr := x.mgr.(sendChan := x.mgr.sendChan.Taken()))
            && s'.links[0] == s.links[0].(toClient := s.links[0].toClient + [Note(msg)])
            && s'.place == if msg.PipeRequest? then s.place[msg.token := OnWire(x.me)] else s.place
  {
    run', s' := Manages(s0, run, s, SendDo(SendTake));
    var mid := s'.place;
    run', s' := Manages(s0, run', s', SendDo(SendWrite(true)));
    var msg := s.mgrs[0].mgr.sendChan.buf[0];
    if msg.PipeRequest? {
      assert s.place[msg.token := BeingWritten(s.mgrs[0].me)][msg.token := OnWire(s.mgrs[0].me)]
          == s.place[msg.token := OnWire(s.mgrs[0].me)];
    }
  }

  /** The agent reads the request and the "ok", and marks the proxy started. */
  lemma Hears(s0: System, run: seq<SystemAction>, s: System, c: nat, n: Name, p: Port)
    returns (run': seq<SystemAction>, s': System)
    requires SystemExec(s0, run) == Some(s) && |s.mgrs| == |s.links| == 1
    requires c in s.clients && s.clients[c].agent == Some(0)
    requires n in s.clients[c].proxies && s.links[0].toClient == [Note(PipeRequest(FIRST)), Note(ProxyOk(n, p))]
    ensures SystemExec(s0, run') == Some(s') && s'.mgrs == s.mgrs && |s'.links| == 1 && SameLogins(s.links, s'.links)
    ensures s'.table == s.table && s'.pipes == s.pipes && s'.place == s.place[FIRST := AtClient(c)]
    ensures var x := s.clients[c];
            s'.clients == s.clients[c := x.(proxies := x.proxies[n := x.proxies[n].(started := true)])]
  {
    run', s' := Do(s0, run, s, ClientDo(c, AgentRead));
    run', s' := Do(s0, run', s', ClientDo(c, AgentRead));
  }

  /** A user connects to the proxy's port, and its handler asks for a pipe and waits. */
  lemma UserConnects(s0: System, run: seq<SystemAction>, s: System, x: State, n: Name)
    returns (run': seq<SystemAction>, s': System)
    requires SystemExec(s0, run) == Some(s) && s.mgrs == [x] && |s.links| == 1 && x.me == 0
    requires n in x.mgr.listened && !x.mgr.closed && x.mgr.sendChan == Chan([], CHANNEL_CAPACITY, 0)
    requires x.crowd == Crowd(map[], map[], 0)
    ensures SystemExec(s0, run') == Some(s') && |s'.mgrs| == |s'.links| == 1 && s'.links == s.links
    ensures s'.table == s.table && s'.clients == s.clients && s'.pipes == s.pipes
    ensures s'.place == s.place[Token(0, x.Issued()) := InQueue(0)]
    ensures var y := s'.mgrs[0];
            && y.crowd == Crowd(map[0 := Handler(n, 0, Popping)], map[], 0)
            && y.mgr.pool == x.mgr.pool && !y.mgr.closed && y.me == 0
  {
    run', s' := HandlerStarts(s0, run, s, x, n);
    run', s' := HandlerAsks(s0, run', s', s'.mgrs[0], n);
  }

  lemma HandlerStarts(s0: System, run: seq<SystemAction>, s: System, x: State, n: Name)
    returns (run': seq<SystemAction>, s': System)
    requires SystemExec(s0, run) == Some(s) && s.mgrs == [x] && |s.links| == 1
    requires n in x.mgr.listened && !x.mgr.closed && x.crowd == Crowd(map[], map[], 0)
    ensures SystemExec(s0, run') == Some(s') && |s'.mgrs| == 1 && s' == s.(mgrs := s'.mgrs)
    ensures s'.mgrs[0] == x.(crowd := Crowd(map[0 := Handler(n, 0, RequestSend)], map[], 0))
  {
    run', s' := DoQuiet(s0, run, s, 0, HandlerDo(0, Accept(n)));
    run', s' := DoQuiet(s0, run', s', 0, HandlerDo(0, HandlerTest));
  }

  lemma HandlerAsks(s0: System, run: seq<SystemAction>, s: System, x: State, n: Name)
    returns (run': seq<SystemAction>, s': System)
    requires SystemExec(s0, run) == Some(s) && s.mgrs == [x] && |s.links| == 1 && x.me == 0
    requires x.mgr.sendChan == Chan([], CHANNEL_CAPACITY, 0)
    requires x.crowd == Crowd(map[0 := Handler(n, 0, RequestSend)], map[], 0)
    ensures SystemExec(s0, run') == Some(s') && |s'.mgrs| == |s'.links| == 1 && s'.links == s.links
    ensures s'.table == s.table && s'.clients == s.clients && s'.pipes == s.pipes
    ensures s'.place == s.place[Token(0, x.Issued()) := InQueue(0)]
    ensures var y := s'.mgrs[0];
            && y.crowd == Crowd(map[0 := Handler(n, 0, Popping)], map[], 0)
            && y.mgr == x.mgr.(sendChan := y.mgr.sendChan) && y.me == 0
  {
    run', s' := Manages(s0, run, s, HandlerDo(0, HandlerSend));
    assert s'.links == s.links;
  }

  /** The stream that the client opens is put in the pool. */
  lemma PipeArrives(s0: System, run: seq<SystemAction>, s: System, c: nat)
    returns (run': seq<SystemAction>, s': System)
    requires SystemExec(s0, run) == Some(s) && |s.mgrs| == |s.links| == 1 && s.mgrs[0].me == 0
    requires FIRST in s.place && s.place[FIRST] == AtClient(c) && c in s.clients && s.clients[c].id.Some?
    requires s.clients[c].id.value in s.table && s.table[s.clients[c].id.value] == 0
    requires s.mgrs[0].crowd.pushers == map[] && !s.mgrs[0].mgr.closed && s.mgrs[0].mgr.pool == Chan([], 2, 0)
    ensures SystemExec(s0, run') == Some(s') && |s'.mgrs| == |s'.links| == 1 && SameLogins(s.links, s'.links)
    ensures s'.clients == s.clients && s'.mgrs[0].crowd.handlers == s.mgrs[0].crowd.handlers
    ensures s'.mgrs[0].mgr.pool.buf == [FIRST]
    ensures FIRST in s'.pipes && s'.pipes[FIRST] == Pipe(c, s.clients[c].id.value, None, Awaiting)
  {
    run', s' := OpensStream(s0, run, s, FIRST, c);
    run', s' := BeginsPush(s0, run', s', FIRST, 0);
    run', s' := DoQuiet(s0, run', s', 0, PushDo(FIRST, PushCheck));
    run', s' := EndsPush(s0, run', s', FIRST);
  }

  lemma EndsPush(s0: System, run: seq<SystemAction>, s: System, t: Token) returns (run': seq<SystemAction>, s': System)
    requires SystemExec(s0, run) == Some(s) && |s.mgrs| == |s.links| == 1
    requires s.mgrs[0].crowd.pushers == map[t := PushSend] && PoolAccepts(s.mgrs[0].mgr)
    ensures SystemExec(s0, run') == Some(s') && |s'.mgrs| == |s'.links| == 1 && SameLogins(s.links, s'.links)
    ensures s'.clients == s.clients && s'.pipes == s.pipes
    ensures s'.mgrs[0].crowd.handlers == s.mgrs[0].crowd.handlers
    ensures s'.mgrs[0].mgr.pool == s.mgrs[0].mgr.pool.Sent(t)
  {
    run', s' := Manages(s0, run, s, PushDo(t, PushPut));
  }

  /** The handler takes the pipe from the pool. */
  lemma HandlerPops(s0: System, run: seq<SystemAction>, s: System, n: Name, t: Token)
    returns (run': seq<SystemAction>, s': System)
    requires SystemExec(s0, run) == Some(s) && |s.mgrs| == |s.links| == 1
    requires s.mgrs[0].crowd.handlers == map[0 := Handler(n, 0, Popping)] && s.mgrs[0].mgr.pool.buf == [t]
    ensures SystemExec(s0, run') == Some(s') && |s'.mgrs| == |s'.links| == 1 && s'.links == s.links
    ensures s'.clients == s.clients && s'.pipes == s.pipes && t in s'.place
    ensures s'.mgrs[0].crowd.handlers == map[0 := Handler(n, 0, WritingRequest(t))]
  {
    run', s' := Manages(s0, run, s, HandlerDo(0, Pop));
    assert s'.links == s.links;
  }

  /** It writes its request on the pipe. */
  lemma HandlerWrites(s0: System, run: seq<SystemAction>, s: System, n: Name, t: Token)
    returns (run': seq<SystemAction>, s': System)
    requires SystemExec(s0, run) == Some(s) && |s.mgrs| == |s.links| == 1 && t in s.place && t in s.pipes
    requires s.mgrs[0].crowd.handlers == map[0 := Handler(n, 0, WritingRequest(t))]
    ensures SystemExec(s0, run') == Some(s') && |s'.mgrs| == |s'.links| == 1 && s'.links == s.links
    ensures s'.clients == s.clients && s'.pipes == s.pipes[t := s.pipes[t].(request := Some(n))] && t in s'.place
    ensures s'.mgrs[0].crowd.handlers == map[0 := Handler(n, 0, Joined(t))]
  {
    run', s' := Manages(s0, run, s, HandlerDo(0, RequestWritten(true)));
    assert s'.links == s.links;
  }

  /** The client finds the proxy, sees that it is started, and dials the local service. */
  lemma ClientDials(s0: System, run: seq<SystemAction>, s: System, t: Token, c: nat, n: Name)
    returns (run': seq<SystemAction>, s': System)
    requires SystemExec(s0, run) == Some(s) && t in s.pipes && t in s.place
    requires c in s.clients && n in s.clients[c].proxies && s.clients[c].proxies[n].started
    requires s.pipes[t].client == c && s.pipes[t].request == Some(n) && s.pipes[t].far == Awaiting
    ensures SystemExec(s0, run') == Some(s') && s'.mgrs == s.mgrs && s'.links == s.links
    ensures t in s'.pipes && s'.pipes[t] == s.pipes[t].(far := JoinedTo(n, s.clients[c].proxies[n].addr))
  {
    run', s' := FarMoves(s0, run, s, t, WorkLookup, Found(n));
    run', s' := FarMoves(s0, run', s', t, WorkCheck, Ready(n));
    run', s' := FarMoves(s0, run', s', t, WorkDial(true), JoinedTo(n, s.clients[c].proxies[n].addr));
  }

  lemma FarMoves(s0: System, run: seq<SystemAction>, s: System, t: Token, a: WorkAction, far: FarEnd)
    returns (run': seq<SystemAction>, s': System)
    requires SystemExec(s0, run) == Some(s) && t in s.pipes && WorkStep(s, t, a) == Some(WithFar(s, t, far))
    ensures SystemExec(s0, run') == Some(s') && s' == WithFar(s, t, far)
  {
    run', s' := Do(s0, run, s, WorkDo(t, a));
  }

  /** Both notices reach the client. */
  lemma Notifies(s0: System, run: seq<SystemAction>, s: System, c: nat, n: Name, p: Port)
    returns (run': seq<SystemAction>, s': System)
    requires SystemExec(s0, run) == Some(s) && |s.mgrs| == |s.links| == 1 && s.mgrs[0].me == 0
    requires s.mgrs[0].send == Waiting && s.links[0].toClient == []
    requires s.mgrs[0].mgr.sendChan == Chan([PipeRequest(FIRST), ProxyOk(n, p)], CHANNEL_CAPACITY, 0)
    requires c in s.clients && s.clients[c].agent == Some(0) && n in s.clients[c].proxies
    ensures SystemExec(s0, run') == Some(s') && |s'.mgrs| == |s'.links| == 1 && SameLogins(s.links, s'.links)
    ensures s'.table == s.table && s'.pipes == s.pipes && s'.place == s.place[FIRST := AtClient(c)]
    ensures var x := s.mgrs[0];
            s'.mgrs[0] == x.(mgr := x.mgr.(sendChan := Chan([], CHANNEL_CAPACITY, 0)))
    ensures var x := s.clients[c];
            s'.clients == s.clients[c := x.(proxies := x.proxies[n := x.proxies[n].(started := true)])]
  {
    run', s' := WritesBoth(s0, run, s, n, p);
    run', s' := Hears(s0, run', s', c, n, p);
    assert s.place[FIRST := OnWire(0)][FIRST := AtClient(c)] == s.place[FIRST := AtClient(c)];
  }

  lemma WritesBoth(s0: System, run: seq<SystemAction>, s: System, n: Name, p: Port)
    returns (run': seq<SystemAction>, s': System)
    requires SystemExec(s0, run) == Some(s) && |s.mgrs| == |s.links| == 1 && s.mgrs[0].me == 0
    requires s.mgrs[0].send == Waiting && s.links[0].toClient == []
    requires s.mgrs[0].mgr.sendChan == Chan([PipeRequest(FIRST), ProxyOk(n, p)], CHANNEL_CAPACITY, 0)
    ensures SystemExec(s0, run') == Some(s') && |s'.mgrs| == |s'.links| == 1 && SameLogins(s.links, s'.links)
    ensures s'.table == s.table && s'.pipes == s.pipes && s'.place == s.place[FIRST := OnWire(0)]
    ensures s'.clients == s.clients
    ensures var x := s.mgrs[0];
            s'.mgrs[0] == x.(mgr := x.mgr.(sendChan := Chan([], CHANNEL_CAPACITY, 0)))
    ensures s'.links[0].toClient == [Note(PipeRequest(FIRST)), Note(ProxyOk(n, p))]
  {
    run', s' := Writes(s0, run, s);
    run', s' := Writes(s0, run', s');
  }

  /** From login to the "ok" for the proxy. */
  lemma ProxyStarts(config: map<nat, map<Name, Address>>, c: nat, n: Name, id: Id, p: Port)
    returns (run: seq<SystemAction>, s: System)
    requires c in config && n in config[c]
    ensures SystemExec(Start(config), run) == Some(s) && |s.mgrs| == |s.links| == 1
    ensures s.links[0].owner == c && s.links[0].id == id && s.table == map[id := 0]
    ensures s.place == map[FIRST := AtClient(c)] && s.pipes == map[]
    ensures c in s.clients && s.clients[c].id == Some(id)
    ensures n in s.clients[c].proxies && s.clients[c].proxies[n] == LocalProxy(config[c][n], true)
    ensures var x := s.mgrs[0];
            && x.me == 0 && x.crowd == Crowd(map[], map[], 0) && x.Issued() == 1
            && x.mgr == Serving(n, p).(sendChan := Chan([], CHANNEL_CAPACITY, 0))
  {
    var s0 := Start(config);
    run, s := LogsIn(s0, [], s0, c, id);
    run, s := EnableArrives(s0, run, s, c, 0, n);
    run, s := Registers(s0, run, s, n, p);
    run, s := Notifies(s0, run, s, c, n, p);
  }

  /**
   For every client, every proxy it is configured with, every id and every port there is a run in which
   the client logs in, registers the proxy and gets its "ok", a user connection is accepted on the proxy,
   and it is joined with a pipe whose client end is joined with the configured address.
   */
  lemma ConnectionsCanBeDelivered(config: map<nat, map<Name, Address>>, c: nat, n: Name, id: Id, p: Port)
    returns (run: seq<SystemAction>, s: System)
    requires c in config && n in config[c]
    ensures SystemExec(Start(config), run) == Some(s) && |s.mgrs| == |s.links| == 1
    ensures s.links[0].owner == c && s.links[0].id == id
    ensures s.mgrs[0].crowd.handlers == map[0 := Handler(n, 0, Joined(FIRST))]
    ensures FIRST in s.pipes && s.pipes[FIRST] == Pipe(c, id, Some(n), JoinedTo(n, config[c][n]))
  {
    var s0 := Start(config);
    run, s := ProxyStarts(config, c, n, id, p);
    run, s := UserConnects(s0, run, s, s.mgrs[0], n);
    run, s := PipeArrives(s0, run, s, c);
    run, s := HandlerPops(s0, run, s, n, FIRST);
    run, s := HandlerWrites(s0, run, s, n, FIRST);
    run, s := ClientDials(s0, run, s, FIRST, c, n);
  }
}
