/**
 When routing holds: the users of a manager are joined only with pipes of its own client in every run if
 and only if at most one client may be given the manager's id.
 */
module IdReuse {
  import opened Channels
  import opened Options
  import opened ManagerMachine
  import opened ProxySystem
  import opened PlaceProofs
  import opened SystemProofs
  import opened IdProofs
  import opened Routing

  predicate IsLogin(a: SystemAction) { a.ClientDo? && a.client.Login? }

  /** The same logins, with the same owners and ids. */
  predicate SameLogins(links: seq<Link>, links': seq<Link>) {
    && |links'| == |links|
    && forall k: nat :: k < |links| ==> links'[k].id == links[k].id && links'[k].owner == links[k].owner
  }

  lemma LoginsStay(s: System, a: SystemAction)
    requires SystemStep(s, a).Some? && !IsLogin(a)
    ensures SameLogins(s.links, SystemStep(s, a).value.links)
  {
    match a
    case ClientDo(c, b) => ClientKeepsLogins(s, c, b);
    case WorkDo(t, b) => WorkKeepsSize(s, t, b);
    case _ =>
  }

  lemma ClientKeepsLogins(s: System, c: nat, a: ClientAction)
    requires ClientStep(s, c, a).Some? && !a.Login?
    ensures SameLogins(s.links, ClientStep(s, c, a).value.links)
  {
  }

  lemma {:induction false} ExecAppend(s: System, a: seq<SystemAction>, b: seq<SystemAction>)
    requires SystemExec(s, a).Some?
    ensures SystemExec(s, a + b) == SystemExec(SystemExec(s, a).value, b)
    decreases |a|
  {
    if a == [] {
      assert a + b == b;
    } else {
      assert (a + b)[0] == a[0] && (a + b)[1..] == a[1..] + b;
      ExecAppend(SystemStep(s, a[0]).value, a[1..], b);
    }
  }

  /** Extends a run by one enabled step. */
  lemma Do(s0: System, run: seq<SystemAction>, s: System, a: SystemAction) returns (run': seq<SystemAction>, s': System)
    requires SystemExec(s0, run) == Some(s) && SystemStep(s, a).Some?
    ensures s' == SystemStep(s, a).value && SystemExec(s0, run') == Some(s')
    ensures !IsLogin(a) ==> SameLogins(s.links, s'.links)
  {
    s' := SystemStep(s, a).value;
    if !IsLogin(a) { LoginsStay(s, a); }
    run' := run + [a];
    ExecAppend(s0, run, [a]);
    assert SystemExec(s, [a]) == SystemExec(s', [a][1..]);
  }

  /** Manager `m` can take a pipe and has a user connection waiting for one. */
  predicate Receptive(x: State, t: Token, h: nat) {
    && !x.mgr.closed && x.mgr.pool.IsOpen() && x.mgr.pool.buf == [] && x.mgr.pool.cap > 0
    && t !in x.crowd.pushers && HandlerAt(x, h, Popping)
  }

  /** A client waits to open a stream under an id that the table gives to manager `m`. */
  predicate Conflict(s: System, t: Token, c: nat, m: nat) {
    && t in s.place && s.place[t] == AtClient(c) && c in s.clients
    && s.clients[c].id.Some? && s.clients[c].id.value in s.table && s.table[s.clients[c].id.value] == m
    && m < |s.mgrs| == |s.links|
  }

  lemma OpensStream(s0: System, run: seq<SystemAction>, s: System, t: Token, c: nat)
    returns (run': seq<SystemAction>, s': System)
    requires SystemExec(s0, run) == Some(s) && t in s.place && s.place[t] == AtClient(c)
    requires c in s.clients && s.clients[c].id.Some?
    ensures SystemExec(s0, run') == Some(s')
    ensures s' == s.(pipes := s.pipes[t := Pipe(c, s.clients[c].id.value, None, Awaiting)],
                     place := s.place[t := InTransit])
  {
    run', s' := Do(s0, run, s, WorkDo(t, WorkOpen));
  }

  lemma BeginsPush(s0: System, run: seq<SystemAction>, s: System, t: Token, m: nat)
    returns (run': seq<SystemAction>, s': System)
    requires SystemExec(s0, run) == Some(s) && t in s.place && s.place[t] == InTransit && t in s.pipes
    requires s.pipes[t].id in s.table && s.table[s.pipes[t].id] == m < |s.mgrs| == |s.links|
    requires t !in s.mgrs[m].crowd.pushers
    ensures SystemExec(s0, run') == Some(s')
    ensures var x := s.mgrs[m];
            s' == s.(mgrs := s.mgrs[m := WithPushers(x, x.crowd.pushers[t := PushTest])],
                     place := s.place[t := Pushing(x.me)])
  {
    run', s' := Do(s0, run, s, ManagerDo(m, PushDo(t, PushBegin)));
    assert s.links[m := s.links[m]] == s.links;
  }

  lemma StreamToManager(s0: System, run: seq<SystemAction>, s: System, t: Token, c: nat, m: nat, h: nat)
    returns (run': seq<SystemAction>, s': System)
    requires SystemExec(s0, run) == Some(s) && Conflict(s, t, c, m) && Receptive(s.mgrs[m], t, h)
    ensures SystemExec(s0, run') == Some(s') && m < |s'.mgrs| == |s'.links| && SameLogins(s.links, s'.links)
    ensures t in s'.pipes && s'.pipes[t].client == c
    ensures s'.mgrs[m].mgr == s.mgrs[m].mgr && HandlerAt(s'.mgrs[m], h, Popping)
    ensures t in s'.mgrs[m].crowd.pushers && s'.mgrs[m].crowd.pushers[t] == PushSend
  {
    run', s' := OpensStream(s0, run, s, t, c);
    run', s' := BeginsPush(s0, run', s', t, m);
    run', s' := DoQuiet(s0, run', s', m, PushDo(t, PushCheck));
  }

  lemma PoolToHandler(s0: System, run: seq<SystemAction>, s: System, t: Token, m: nat, h: nat)
    returns (run': seq<SystemAction>, s': System)
    requires SystemExec(s0, run) == Some(s) && t in s.pipes && m < |s.mgrs| == |s.links|
    requires PoolAccepts(s.mgrs[m].mgr) && s.mgrs[m].mgr.pool.buf == [] && HandlerAt(s.mgrs[m], h, Popping)
    requires t in s.mgrs[m].crowd.pushers && s.mgrs[m].crowd.pushers[t] == PushSend
    ensures SystemExec(s0, run') == Some(s') && m < |s'.mgrs| == |s'.links| && SameLogins(s.links, s'.links)
    ensures HandlerAt(s'.mgrs[m], h, Joined(t)) && t in s'.pipes && s'.pipes[t].client == s.pipes[t].client
  {
    run', s' := Do(s0, run, s, ManagerDo(m, PushDo(t, PushPut)));
    run', s' := PooledToHandler(s0, run', s', t, m, h);
  }

  lemma PooledToHandler(s0: System, run: seq<SystemAction>, s: System, t: Token, m: nat, h: nat)
    returns (run': seq<SystemAction>, s': System)
    requires SystemExec(s0, run) == Some(s) && t in s.pipes && m < |s.mgrs| == |s.links|
    requires s.mgrs[m].mgr.pool.buf == [t] && HandlerAt(s.mgrs[m], h, Popping)
    ensures SystemExec(s0, run') == Some(s') && m < |s'.mgrs| == |s'.links| && SameLogins(s.links, s'.links)
    ensures HandlerAt(s'.mgrs[m], h, Joined(t)) && t in s'.pipes && s'.pipes[t].client == s.pipes[t].client
  {
    run', s' := Do(s0, run, s, ManagerDo(m, HandlerDo(h, Pop)));
    run', s' := Do(s0, run', s', ManagerDo(m, HandlerDo(h, RequestWritten(true))));
  }

  /**
   From any state in which a client waits to open a stream under an id that stands for another
   client's manager, a pipe of the wrong client can be joined with a user connection of that manager.
   */
  lemma ConflictMisroutes(s0: System, run: seq<SystemAction>, s: System, t: Token, c: nat, m: nat, h: nat)
    returns (run': seq<SystemAction>, s': System)
    requires SystemExec(s0, run) == Some(s) && Conflict(s, t, c, m) && Receptive(s.mgrs[m], t, h)
    requires s.links[m].owner != c
    ensures SystemExec(s0, run') == Some(s') && m < |s'.mgrs| == |s'.links| && SameLogins(s.links, s'.links)
    ensures HandlerAt(s'.mgrs[m], h, Joined(t))
    ensures t in s'.pipes && s'.pipes[t].client == c != s'.links[m].owner
  {
    run', s' := StreamToManager(s0, run, s, t, c, m, h);
    run', s' := PoolToHandler(s0, run', s', t, m, h);
  }

  // ---- A conflict is reachable ----

  /** Actions of a manager that involve nothing outside it. */
  predicate Quiet(a: Action) {
    match a
    case RunDo(b) => !b.RunReqSend?
    case RecvDo(b) => !b.RecvGet?
    case ServerDo(b) => b.ServerClose?
    case HandlerDo(_, b) => b.Accept? || b.HandlerTest?
    case PushDo(_, b) => b.PushCheck?
    case _ => false
  }

  lemma DoQuiet(s0: System, run: seq<SystemAction>, s: System, m: nat, a: Action)
    returns (run': seq<SystemAction>, s': System)
    requires SystemExec(s0, run) == Some(s) && m < |s.mgrs| == |s.links| && Quiet(a) && Step(s.mgrs[m], a).Some?
    requires a.PushDo? ==> !s.mgrs[m].mgr.closed
    ensures SystemExec(s0, run') == Some(s') && s' == s.(mgrs := s.mgrs[m := Step(s.mgrs[m], a).value])
  {
    run', s' := Do(s0, run, s, ManagerDo(m, a));
  }

  lemma CloseBegins(s0: System, run: seq<SystemAction>, s: System) returns (run': seq<SystemAction>, s': System)
    requires SystemExec(s0, run) == Some(s) && 0 < |s.mgrs| == |s.links|
    requires s.mgrs[0].recv == RecvStart && !s.mgrs[0].mgr.closed
    ensures SystemExec(s0, run') == Some(s') && 0 < |s'.mgrs| && s' == s.(mgrs := s.mgrs[0 := s'.mgrs[0]])
    ensures var x, y := s.mgrs[0], s'.mgrs[0];
            && y.recv == RecvClosing(CloseRecv) && y.mgr.closed
            && y.run == x.run && y.mgr.recvChan == x.mgr.recvChan
  {
    run', s' := DoQuiet(s0, run, s, 0, RecvDo(RecvBegin));
    run', s' := DoQuiet(s0, run', s', 0, RecvDo(RecvError));
    run', s' := DoQuiet(s0, run', s', 0, RecvDo(RecvClose));
    run', s' := DoQuiet(s0, run', s', 0, RecvDo(RecvClose));
    run', s' := DoQuiet(s0, run', s', 0, RecvDo(RecvClose));
    run', s' := DoQuiet(s0, run', s', 0, RecvDo(RecvClose));
  }

  /** Once its channel is closed and empty, the dispatch loop of the first manager ends. */
  lemma RunEnds(s0: System, run: seq<SystemAction>, s: System) returns (run': seq<SystemAction>, s': System)
    requires SystemExec(s0, run) == Some(s) && 0 < |s.mgrs| == |s.links|
    requires s.mgrs[0].recv == RecvClosing(CloseRecv) && s.mgrs[0].run == Loop && s.mgrs[0].mgr.recvChan.buf == []
    ensures SystemExec(s0, run') == Some(s') && 0 < |s'.mgrs| && s' == s.(mgrs := s.mgrs[0 := s'.mgrs[0]])
    ensures var x, y := s.mgrs[0], s'.mgrs[0];
            y.server == Queued && y.run == DoneSent && y.mgr.closed == x.mgr.closed
  {
    run', s' := DoQuiet(s0, run, s, 0, RecvDo(RecvClose));
    run', s' := DoQuiet(s0, run', s', 0, RunDo(RunTake));
    run', s' := DoQuiet(s0, run', s', 0, RunDo(RunDone));
  }

  /** The server forgets the first manager once its connection has failed. */
  lemma Forgotten(s0: System, run: seq<SystemAction>, s: System) returns (run': seq<SystemAction>, s': System)
    requires SystemExec(s0, run) == Some(s) && 0 < |s.mgrs| == |s.links|
    requires s.mgrs[0].recv == RecvStart && s.mgrs[0].run == Loop
    requires !s.mgrs[0].mgr.closed && s.mgrs[0].mgr.recvChan.buf == []
    ensures SystemExec(s0, run') == Some(s') && |s'.mgrs| == |s'.links| == |s.mgrs|
    ensures s'.links == s.links && s'.clients == s.clients && s'.place == s.place
    ensures s'.table == s.table - {s.links[0].id}
    ensures var x := s'.mgrs[0]; x.mgr.closed && x.server.ServerClosing? && x.run == DoneSent
  {
    run', s' := CloseBegins(s0, run, s);
    run', s' := RunEnds(s0, run', s');
    run', s' := Forgets(s0, run', s');
  }

  lemma Forgets(s0: System, run: seq<SystemAction>, s: System) returns (run': seq<SystemAction>, s': System)
    requires SystemExec(s0, run) == Some(s) && 0 < |s.mgrs| == |s.links| && s.mgrs[0].server == Queued
    ensures SystemExec(s0, run') == Some(s')
    ensures s' == s.(mgrs := s.mgrs[0 := s.mgrs[0].(server := ServerClosing(Test))], table := s.table - {s.links[0].id})
  {
    run', s' := Do(s0, run, s, ManagerDo(0, ServerDo(ServerForget)));
    assert s.links[0 := s.links[0]] == s.links;
  }

  /** A client logs in and becomes the agent of a new manager. */
  lemma LogsIn(s0: System, run: seq<SystemAction>, s: System, c: nat, id: Id)
    returns (run': seq<SystemAction>, s': System)
    requires SystemExec(s0, run) == Some(s) && |s.mgrs| == |s.links| && id !in s.table
    requires c in s.clients && s.clients[c].pending == None && s.clients[c].agent == None
    ensures SystemExec(s0, run') == Some(s') && |s'.mgrs| == |s'.links| == |s.mgrs| + 1
    ensures var m := |s.mgrs|;
            && s'.mgrs == s.mgrs + [Init(m, 1)] && s'.table == s.table[id := m]
            && s'.place == s.place && s'.pipes == s.pipes
            && SameLogins(s.links + [Link(c, id, Created, [], [])], s'.links)
            && s'.links[m].toClient == [] && s'.links[m].toServer == []
            && s'.clients == s.clients[c := s.clients[c].(id := Some(id), agent := Some(m))]
  {
    run', s' := Do(s0, run, s, ClientDo(c, Login(id, 1)));
    run', s' := Do(s0, run', s', LoginInsert(|s.mgrs|));
    run', s' := Do(s0, run', s', LoginAnswer(|s.mgrs|));
    run', s' := Do(s0, run', s', ClientDo(c, LoginRead));
  }

  /** The first manager's first pipe request reaches the control connection. */
  lemma NoticeWritten(s0: System, run: seq<SystemAction>, s: System) returns (run': seq<SystemAction>, s': System)
    requires SystemExec(s0, run) == Some(s) && |s.mgrs| == |s.links| == 1 && s.mgrs[0] == Init(0, 1)
    requires s.links[0].toClient == []
    ensures SystemExec(s0, run') == Some(s') && |s'.mgrs| == |s'.links| == 1
    ensures s'.table == s.table && s'.clients == s.clients
    ensures s'.links[0].toClient == [Note(PipeRequest(Token(0, 0)))] && SameLogins(s.links, s'.links)
    ensures s'.place == s.place[Token(0, 0) := OnWire(0)]
    ensures var x := s'.mgrs[0]; x.recv == RecvStart && !x.mgr.closed && x.run == Loop && x.mgr.recvChan.buf == []
  {
    run', s' := DoQuiet(s0, run, s, 0, RunDo(RunReqTest));
    run', s' := Do(s0, run', s', ManagerDo(0, RunDo(RunReqSend)));
    run', s' := Do(s0, run', s', ManagerDo(0, SendDo(SendTake)));
    run', s' := Do(s0, run', s', ManagerDo(0, SendDo(SendWrite(true))));
  }

  /** The agent of manager `m` registers a proxy, whose listener then accepts a user connection. */
  lemma UserArrives(s0: System, run: seq<SystemAction>, s: System, c: nat, m: nat, n: Name)
    returns (run': seq<SystemAction>, s': System)
    requires SystemExec(s0, run) == Some(s) && m < |s.mgrs| == |s.links| && s.mgrs[m] == Init(m, 1)
    requires c in s.clients && s.clients[c].agent == Some(m) && s.links[m].toServer == []
    ensures SystemExec(s0, run') == Some(s') && |s'.mgrs| == |s'.links| && m < |s'.mgrs|
    ensures s'.table == s.table && s'.clients == s.clients && SameLogins(s.links, s'.links)
    ensures forall u :: u in s.place && u.mgr != m ==> u in s'.place && s'.place[u] == s.place[u]
    ensures forall t :: Receptive(s'.mgrs[m], t, 0)
  {
    run', s' := EnableArrives(s0, run, s, c, m, n);
    run', s' := UserWaits(s0, run', s', m, n);
  }

  /** The state with this request received and nothing else in the channel. */
  function WithRequest(x: State, msg: Request): State {
    x.(recv := Reading, mgr := x.mgr.(recvChan := Chan([msg], CHANNEL_CAPACITY, 0)))
  }

  lemma EnableArrives(s0: System, run: seq<SystemAction>, s: System, c: nat, m: nat, n: Name)
    returns (run': seq<SystemAction>, s': System)
    requires SystemExec(s0, run) == Some(s) && m < |s.mgrs| == |s.links| && s.mgrs[m] == Init(m, 1)
    requires c in s.clients && s.clients[c].agent == Some(m) && s.links[m].toServer == []
    ensures SystemExec(s0, run') == Some(s') && |s'.mgrs| == |s'.links| && m < |s'.mgrs|
    ensures s'.table == s.table && s'.clients == s.clients && SameLogins(s.links, s'.links) && s'.place == s.place
    ensures s'.pipes == s.pipes && s'.links[m].toClient == s.links[m].toClient
    ensures s'.mgrs[m] == WithRequest(Init(m, 1), EnableProxy(n))
  {
    run', s' := Do(s0, run, s, ClientDo(c, AgentSend(EnableProxy(n))));
    run', s' := DoQuiet(s0, run', s', m, RecvDo(RecvBegin));
    run', s' := Do(s0, run', s', ManagerDo(m, RecvDo(RecvGet(EnableProxy(n)))));
    run', s' := DoQuiet(s0, run', s', m, RecvDo(RecvCheck));
    run', s' := DoQuiet(s0, run', s', m, RecvDo(RecvPut));
  }

  lemma UserWaits(s0: System, run: seq<SystemAction>, s: System, m: nat, n: Name)
    returns (run': seq<SystemAction>, s': System)
    requires SystemExec(s0, run) == Some(s) && m < |s.mgrs| == |s.links|
    requires s.mgrs[m] == WithRequest(Init(m, 1), EnableProxy(n))
    ensures SystemExec(s0, run') == Some(s') && |s'.mgrs| == |s'.links| && m < |s'.mgrs|
    ensures s'.table == s.table && s'.clients == s.clients && s'.links == s.links
    ensures forall u :: u in s.place && u.mgr != m ==> u in s'.place && s'.place[u] == s.place[u]
    ensures forall t :: Receptive(s'.mgrs[m], t, 0)
  {
    run', s' := DoQuiet(s0, run, s, m, RunDo(RunReqTest));
    run', s' := Do(s0, run', s', ManagerDo(m, RunDo(RunReqSend)));
    run', s' := DoQuiet(s0, run', s', m, RunDo(RunTake));
    run', s' := UserAccepted(s0, run', s', m, n);
  }

  lemma UserAccepted(s0: System, run: seq<SystemAction>, s: System, m: nat, n: Name)
    returns (run': seq<SystemAction>, s': System)
    requires SystemExec(s0, run) == Some(s) && m < |s.mgrs| == |s.links|
    requires s.mgrs[m].me == m && s.mgrs[m].run == Registering(n)
    requires var x := s.mgrs[m].mgr;
             && !x.closed && x.sendChan.IsOpen() && !x.sendChan.IsFull()
             && x.pool.IsOpen() && x.pool.buf == [] && x.pool.cap > 0
    requires s.mgrs[m].crowd == Crowd(map[], map[], 0)
    ensures SystemExec(s0, run') == Some(s') && |s'.mgrs| == |s'.links| && m < |s'.mgrs|
    ensures s'.table == s.table && s'.clients == s.clients && s'.links == s.links
    ensures forall u :: u in s.place && u.mgr != m ==> u in s'.place && s'.place[u] == s.place[u]
    ensures forall t :: Receptive(s'.mgrs[m], t, 0)
  {
    run', s' := DoQuiet(s0, run, s, m, RunDo(RunListen(Some("80"))));
    run', s' := DoQuiet(s0, run', s', m, HandlerDo(0, Accept(n)));
    run', s' := DoQuiet(s0, run', s', m, HandlerDo(0, HandlerTest));
    run', s' := Do(s0, run', s', ManagerDo(m, HandlerDo(0, HandlerSend)));
  }

  /** There were two logins: client `c` was given `i`, then client `d` was given `j`. */
  predicate TwoLogins(s: System, c: nat, i: Id, d: nat, j: Id) {
    && |s.mgrs| == |s.links| == 2
    && s.links[0].owner == c && s.links[0].id == i
    && s.links[1].owner == d && s.links[1].id == j
  }

  /**
   The code's own check, that a new id is not in the table, is not enough: for any two clients and any
   id there is a run in which the server gives `d` the id it gave `c` before, and a user connection
   accepted for `d` is joined with a pipe of `c`.
   */
  lemma ReusedIdMisroutes(config: map<nat, map<Name, Address>>, c: nat, d: nat, id: Id)
    returns (run: seq<SystemAction>, s: System)
    requires c in config && d in config && c != d
    ensures SystemExec(Start(config), run) == Some(s) && TwoLogins(s, c, id, d, id)
    ensures HandlerAt(s.mgrs[1], 0, Joined(Token(0, 0)))
    ensures Token(0, 0) in s.pipes && s.pipes[Token(0, 0)].client == c
  {
    var s0, t := Start(config), Token(0, 0);
    run, s := LogsIn(s0, [], s0, c, id);
    run, s := NoticeWritten(s0, run, s);
    run, s := Do(s0, run, s, ClientDo(c, AgentRead));
    run, s := Forgotten(s0, run, s);
    run, s := LogsIn(s0, run, s, d, id);
    run, s := UserArrives(s0, run, s, d, 1, "web");
    run, s := ConflictMisroutes(s0, run, s, t, c, 1, 0);
  }

  // ---- The exact condition ----

  /** All logins so far were permitted. */
  ghost predicate Permitted(allowed: (nat, Id) -> bool, s: System) {
    forall k: nat :: k < |s.links| ==> allowed(s.links[k].owner, s.links[k].id)
  }

  /** In this state every user connection of a manager with this id has a pipe of the manager's own client. */
  ghost predicate RoutesOwn(s: System, id: Id) {
    forall m: nat, h: nat, t ::
      m < |s.mgrs| && m < |s.links| && s.links[m].id == id && HandlerAt(s.mgrs[m], h, Joined(t)) ==>
        t in s.pipes && s.pipes[t].client == s.links[m].owner
  }

  /** Whatever else is permitted, at most one configured client may be given this id. */
  ghost predicate OneClient(config: map<nat, map<Name, Address>>, allowed: (nat, Id) -> bool, id: Id) {
    forall c, d :: c in config && d in config && allowed(c, id) && allowed(d, id) ==> c == d
  }

  lemma OneClientRoutesOwn(
    config: map<nat, map<Name, Address>>, allowed: (nat, Id) -> bool, id: Id, run: seq<SystemAction>, s: System)
    requires OneClient(config, allowed, id) && SystemExec(Start(config), run) == Some(s) && Permitted(allowed, s)
    ensures RoutesOwn(s, id)
  {
    OwnersAreConfigured(config, run, s);
    forall m: nat, h: nat, t
      | m < |s.mgrs| && m < |s.links| && s.links[m].id == id && HandlerAt(s.mgrs[m], h, Joined(t))
      ensures t in s.pipes && s.pipes[t].client == s.links[m].owner
    {
      assert OwnsId(s, m);
      ConnectionsAreRouted(config, run, s, m, h, t);
    }
  }

  /**
   Every run with permitted logins routes the users of managers with this id to the managers' own
   client if and only if at most one client may be given the id.
   */
  lemma RoutesOwnIff(config: map<nat, map<Name, Address>>, allowed: (nat, Id) -> bool, id: Id)
    ensures (forall run, s :: SystemExec(Start(config), run) == Some(s) && Permitted(allowed, s) ==> RoutesOwn(s, id))
            <==> OneClient(config, allowed, id)
  {
    if OneClient(config, allowed, id) {
      forall run, s | SystemExec(Start(config), run) == Some(s) && Permitted(allowed, s) ensures RoutesOwn(s, id) {
        OneClientRoutesOwn(config, allowed, id, run, s);
      }
    } else {
      var c, d :| c in config && d in config && allowed(c, id) && allowed(d, id) && c != d;
      var run, s := ReusedIdMisroutes(config, c, d, id);
      assert Permitted(allowed, s);
      assert HandlerAt(s.mgrs[1], 0, Joined(Token(0, 0)));
      assert !RoutesOwn(s, id);
    }
  }
}
