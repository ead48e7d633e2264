/**
 How well a manager is supplied with pipes: the exact balance of pipes pooled and coming against the pool
 size and the waiting handlers, whatever is lost, timed out or exchanged between managers.
 */
module Supply {
  import opened Basics
  import opened Options
  import opened ManagerMachine
  import opened ProxySystem
  import opened PlaceProofs
  import opened SystemProofs
  import opened Conservation
  import opened IdProofs
  import opened Routing
  import opened IdReuse
  import opened Lifecycle
  import MP = ManagerProofs

  // ---- The balance ----

  /** Pooled at a manager or popped by one of its handlers. */
  predicate Arrived(p: Place) { p.Pooled? || p.Held? || p.Carrying? || p.Discarded? }

  /** The requests of manager `m` whose pipes were pooled, at whichever manager. */
  function Sent(place: map<Token, Place>, m: nat): set<Token> { set t | t in place && Arrived(place[t]) && t.mgr == m }

  /** The requests, of whichever manager, whose pipes were pooled at manager `m`. */
  function Received(place: map<Token, Place>, m: nat): set<Token> {
    set t | t in place && Arrived(place[t]) && place[t].m == m
  }

  /** Pipes of `m` that were pooled at another manager, and pipes of other managers pooled at `m`. */
  function Exported(s: System, m: nat): set<Token> { Sent(s.place, m) - Received(s.place, m) }

  function Imported(s: System, m: nat): set<Token> { Received(s.place, m) - Sent(s.place, m) }

  lemma {:induction false} DistinctSize(b: seq<Token>)
    requires Distinct(b)
    ensures |set t | t in b| == |b|
  {
    if b != [] {
      DistinctSize(b[1..]);
      assert b == [b[0]] + b[1..];
      assert (set t | t in b) == (set t | t in b[1..]) + {b[0]};
    }
  }

  function PooledAt(place: map<Token, Place>, m: nat): set<Token> { set t | t in place && place[t] == Pooled(m) }

  lemma PooledSize(x: State, place: map<Token, Place>)
    requires PoolAgrees(x, place)
    ensures |PooledAt(place, x.me)| == |x.mgr.pool.buf|
  {
    var b := x.mgr.pool.buf;
    DistinctSize(b);
    forall t ensures t in b <==> t in PooledAt(place, x.me) {
      assert InPool(x, t) <==> At(place, t, Pooled(x.me));
    }
    assert PooledAt(place, x.me) == set t | t in b;
  }

  lemma ReceivedSplits(place: map<Token, Place>, m: nat)
    ensures |Received(place, m)| == |PooledAt(place, m)| + |TakenAt(place, m)|
  {
    assert PooledAt(place, m) !! TakenAt(place, m);
    assert Received(place, m) == PooledAt(place, m) + TakenAt(place, m);
  }

  lemma ReceivedSize(s: System, m: nat)
    requires PlaceInv(s) && m < |s.mgrs|
    ensures |Received(s.place, m)| == |s.mgrs[m].mgr.pool.buf| + s.mgrs[m].ledger.popped
  {
    assert Site(s.mgrs[m], s.links[m], m, s.place);
    PooledSize(s.mgrs[m], s.place);
    ReceivedSplits(s.place, m);
  }

  lemma SentSize(s: System, m: nat)
    ensures |Sent(s.place, m)| == |Own(s, m, AtHand)| + |Own(s, m, Used)|
  {
    assert Own(s, m, AtHand) !! Own(s, m, Used);
    assert Sent(s.place, m) == Own(s, m, AtHand) + Own(s, m, Used);
  }

  lemma Difference(a: set<Token>, b: set<Token>)
    ensures |a| + |b - a| == |b| + |a - b|
  {
    assert a == (a * b) + (a - b);
    assert b == (a * b) + (b - a);
  }

  /**
   For an open manager past its initial requests: the pipes pooled, coming, lost and exported are as many
   as the pool size, the waiting handlers, the timeouts and the imported pipes.
   */
  lemma SupplyBalance(config: map<nat, map<Name, Address>>, run: seq<SystemAction>, s: System, m: nat)
    requires SystemExec(Start(config), run) == Some(s) && m < |s.mgrs| && PastInit(s.mgrs[m])
    ensures var x := s.mgrs[m];
            |x.mgr.pool.buf| + |Own(s, m, Coming)| + |Own(s, m, Lost)| + |Exported(s, m)|
            == x.poolSize + |MP.WaitingHandlers(x)| + x.ledger.timeouts + |Imported(s, m)|
  {
    ReachableInv(config, run, s);
    RequestsConserved(config, run, s, m);
    ReceivedSize(s, m);
    SentSize(s, m);
    Difference(Sent(s.place, m), Received(s.place, m));
  }

  /** Open, with all initial requests sent. */
  predicate PastInit(x: State) { !x.mgr.closed && !x.run.InitTest? && !x.run.InitSend? }

  /** An open manager past its initial requests that lost nothing and saw no timeout. */
  predicate Untroubled(s: System, m: nat)
    requires m < |s.mgrs|
  {
    PastInit(s.mgrs[m]) && Own(s, m, Lost) == {} && s.mgrs[m].ledger.timeouts == 0
  }

  /** Every pipe pooled or coming is meant for a place in the pool or a waiting handler, and the other way round. */
  predicate Supplied(s: System, m: nat)
    requires m < |s.mgrs|
  {
    |s.mgrs[m].mgr.pool.buf| + |Own(s, m, Coming)| == s.mgrs[m].poolSize + |MP.WaitingHandlers(s.mgrs[m])|
  }

  /** A manager is exactly supplied if and only if what was lost or exported makes up for timeouts and imports. */
  lemma SuppliedIff(config: map<nat, map<Name, Address>>, run: seq<SystemAction>, s: System, m: nat)
    requires SystemExec(Start(config), run) == Some(s) && m < |s.mgrs| && PastInit(s.mgrs[m])
    ensures Supplied(s, m) <==>
            |Own(s, m, Lost)| + |Exported(s, m)| == s.mgrs[m].ledger.timeouts + |Imported(s, m)|
  {
    SupplyBalance(config, run, s, m);
  }

  // ---- Logins that share a client or an id supply the wrong manager ----

  lemma SecondRequest(s0: System, run: seq<SystemAction>, s: System) returns (run': seq<SystemAction>, s': System)
    requires SystemExec(s0, run) == Some(s) && |s.mgrs| == |s.links| == 2 && s.mgrs[1] == Init(1, 1)
    ensures SystemExec(s0, run') == Some(s') && |s'.mgrs| == |s'.links| == 2 && SameLogins(s.links, s'.links)
    ensures s'.place == s.place[Token(1, 0) := InQueue(1)] && s'.clients == s.clients && s'.table == s.table
    ensures var x, y := s.mgrs[1], s'.mgrs[1];
            && y == x.(run := Loop, ledger := y.ledger, mgr := x.mgr.(sendChan := y.mgr.sendChan))
            && y.ledger.timeouts == 0
  {
    run', s' := DoQuiet(s0, run, s, 1, RunDo(RunReqTest));
    run', s' := Do(s0, run', s', ManagerDo(1, RunDo(RunReqSend)));
  }

  lemma PushedElsewhere(s0: System, run: seq<SystemAction>, s: System, t: Token, c: nat, id: Id)
    returns (run': seq<SystemAction>, s': System)
    requires SystemExec(s0, run) == Some(s) && |s.mgrs| == |s.links| == 2
    requires t in s.place && s.place[t] == AtClient(c) && c in s.clients && s.clients[c].id == Some(id)
    requires id in s.table && s.table[id] == 1 && s.mgrs[1].me == 1 && s.mgrs[1].crowd.pushers == map[]
    ensures SystemExec(s0, run') == Some(s') && |s'.mgrs| == |s'.links| == 2 && SameLogins(s.links, s'.links)
    ensures s'.place == s.place[t := Pushing(1)]
    ensures s'.mgrs[1] == s.mgrs[1].(crowd := s.mgrs[1].crowd.(pushers := map[t := PushTest]))
  {
    run', s' := OpensStream(s0, run, s, t, c);
    run', s' := BeginsPush(s0, run', s', t, 1);
    assert s.place[t := InTransit][t := Pushing(1)] == s.place[t := Pushing(1)];
  }

  lemma PooledElsewhere(s0: System, run: seq<SystemAction>, s: System, t: Token)
    returns (run': seq<SystemAction>, s': System)
    requires SystemExec(s0, run) == Some(s) && |s.mgrs| == |s.links| == 2 && s.mgrs[1].me == 1
    requires PoolAccepts(s.mgrs[1].mgr) && !s.mgrs[1].mgr.closed && s.mgrs[1].crowd.pushers == map[t := PushTest]
    ensures SystemExec(s0, run') == Some(s') && |s'.mgrs| == 2 && SameLogins(s.links, s'.links)
    ensures s'.place == s.place[t := Pooled(1)]
    ensures var x, y := s.mgrs[1], s'.mgrs[1];
            && y == x.(mgr := x.mgr.(pool := x.mgr.pool.Sent(t)), crowd := y.crowd)
            && y.crowd.handlers == x.crowd.handlers
  {
    run', s' := DoQuiet(s0, run, s, 1, PushDo(t, PushCheck));
    run', s' := Do(s0, run', s', ManagerDo(1, PushDo(t, PushPut)));
  }

  /** The places of the run below. */
  lemma OneTooMany(place: map<Token, Place>)
    requires place == map[Token(0, 0) := Pooled(1), Token(1, 0) := InQueue(1)]
    ensures OwnIn(place, 1, Coming) == {Token(1, 0)} && OwnIn(place, 1, Lost) == {}
    ensures Received(place, 1) == {Token(0, 0)} && Sent(place, 1) == {}
  {
  }

  /** The second manager asked for one pipe and has two, although nothing was lost and nobody timed out. */
  ghost predicate Oversupplied(s: System) {
    && |s.mgrs| == 2
    && Untroubled(s, 1)
    && Imported(s, 1) == {Token(0, 0)}
    && Exported(s, 1) == {}
    && |s.mgrs[1].mgr.pool.buf| + |Own(s, 1, Coming)| == 2
    && s.mgrs[1].poolSize + |MP.WaitingHandlers(s.mgrs[1])| == 1
  }

  /** A client with a request of the first manager opens the pipe under the id of the second. */
  lemma OpensElsewhere(s0: System, run: seq<SystemAction>, s: System, c: nat, id: Id)
    returns (run': seq<SystemAction>, s': System)
    requires SystemExec(s0, run) == Some(s) && |s.mgrs| == |s.links| == 2 && s.mgrs[1] == Init(1, 1)
    requires s.place == map[Token(0, 0) := AtClient(c)] && c in s.clients && s.clients[c].id == Some(id)
    requires id in s.table && s.table[id] == 1
    ensures SystemExec(s0, run') == Some(s') && SameLogins(s.links, s'.links) && Oversupplied(s')
  {
    var t := Token(0, 0);
    run', s' := SecondRequest(s0, run, s);
    run', s' := PushedElsewhere(s0, run', s', t, c, id);
    run', s' := PooledElsewhere(s0, run', s', t);
    assert MP.WaitingHandlers(s'.mgrs[1]) == {};
    assert s'.place == map[t := Pooled(1), Token(1, 0) := InQueue(1)];
    OneTooMany(s'.place);
  }

  /** Client `c` logs in, and has the first manager's request when its agent stops. */
  lemma HoldsRequest(config: map<nat, map<Name, Address>>, c: nat, id: Id) returns (run: seq<SystemAction>, s: System)
    requires c in config
    ensures SystemExec(Start(config), run) == Some(s) && |s.mgrs| == |s.links| == 1
    ensures s.links[0].owner == c && s.links[0].id == id && s.table == map[id := 0]
    ensures s.place == map[Token(0, 0) := AtClient(c)]
    ensures s.clients == Start(config).clients[c := Start(config).clients[c].(id := Some(id))]
    ensures var x := s.mgrs[0]; x.recv == RecvStart && !x.mgr.closed && x.run == Loop && x.mgr.recvChan.buf == []
  {
    var s0 := Start(config);
    run, s := LogsIn(s0, [], s0, c, id);
    run, s := NoticeWritten(s0, run, s);
    run, s := Do(s0, run, s, ClientDo(c, AgentRead));
    run, s := Do(s0, run, s, ClientDo(c, AgentStop));
  }

  /**
   Nothing lost and no timeout is not enough: for any client and any two ids there is a run in which the
   client logs in twice, opens a pipe requested over its first login under its second id, and the
   second manager then has more pipes than it asked for.
   */
  lemma LoginAgainOversupplies(config: map<nat, map<Name, Address>>, c: nat, id: Id, id': Id)
    returns (run: seq<SystemAction>, s: System)
    requires c in config && id != id'
    ensures SystemExec(Start(config), run) == Some(s) && TwoLogins(s, c, id, c, id')
    ensures Oversupplied(s) && !Supplied(s, 1)
  {
    var s0 := Start(config);
    run, s := HoldsRequest(config, c, id);
    run, s := LogsIn(s0, run, s, c, id');
    run, s := OpensElsewhere(s0, run, s, c, id');
  }

  /**
   Nor does it help that each client logs in once: for any two clients, or one client twice, and any id,
   there is a run in which the id is given first to `c` and then to `d`, and a pipe that `c` opens
   late goes to the manager of `d`.
   */
  lemma SharedIdOversupplies(config: map<nat, map<Name, Address>>, c: nat, d: nat, id: Id)
    returns (run: seq<SystemAction>, s: System)
    requires c in config && d in config
    ensures SystemExec(Start(config), run) == Some(s) && TwoLogins(s, c, id, d, id)
    ensures Oversupplied(s) && !Supplied(s, 1)
  {
    var s0 := Start(config);
    run, s := HoldsRequest(config, c, id);
    run, s := Forgotten(s0, run, s);
    run, s := LogsIn(s0, run, s, d, id);
    run, s := OpensElsewhere(s0, run, s, c, id);
  }

  // ---- A manager whose client logs in once keeps its own pipes ----

  /** No other login has the owner or the id of this one. */
  predicate Alone(s: System, m: nat)
    requires m < |s.links|
  {
    forall k: nat :: k < |s.links| && k != m ==> s.links[k].owner != s.links[m].owner && s.links[k].id != s.links[m].id
  }

  /** A request stays with its manager until the manager's client has it, and that client opens its pipe. */
  predicate Owned(links: seq<Link>, place: map<Token, Place>, pipes: map<Token, Pipe>, t: Token) {
    && (t in place ==>
          match place[t]
          case InQueue(m) => m == t.mgr
          case BeingWritten(m) => m == t.mgr
          case OnWire(m) => m == t.mgr
          case AtClient(c) => t.mgr < |links| && c == links[t.mgr].owner
          case _ => true)
    && (t in pipes ==> t.mgr < |links| && pipes[t].client == links[t.mgr].owner)
  }

  ghost predicate OwnedInv(s: System) { forall t :: Owned(s.links, s.place, s.pipes, t) }

  lemma StepKeepsLinks(s: System, a: SystemAction)
    requires SystemStep(s, a).Some?
    ensures LinksStay(s.links, SystemStep(s, a).value.links)
  {
    if !IsLogin(a) { LoginsStay(s, a); }
  }

  lemma OwnedStays(links: seq<Link>, links': seq<Link>, place: map<Token, Place>, pipes: map<Token, Pipe>, t: Token)
    requires Owned(links, place, pipes, t) && LinksStay(links, links')
    ensures Owned(links', place, pipes, t)
  {
  }

  lemma ManagerKeepsOwned(s: System, m: nat, a: Action, t: Token)
    requires PlaceInv(s) && ManagerStep(s, m, a).Some? && Owned(s.links, s.place, s.pipes, t)
    ensures Owned(s.links, ManagerStep(s, m, a).value.place, ManagerStep(s, m, a).value.pipes, t)
  {
    var x := s.mgrs[m];
    CleanHere(s, m, a);
    PipesKeepIds(x, s.pipes, a, t);
    if Moved(x, a).Some? && Moved(x, a).value.token == t {
      MovedFromOrigin(x, s.place, a);
      MovedOwned(x, a, s.links, s.place, s.pipes, t);
    }
  }

  lemma MovedOwned(x: State, a: Action, links: seq<Link>, place: map<Token, Place>, pipes: map<Token, Pipe>, t: Token)
    requires Step(x, a).Some? && Moved(x, a).Some? && Moved(x, a).value.token == t && Owned(links, place, pipes, t)
    requires if Origin(x, a).Some? then At(place, t, Origin(x, a).value) else t !in place
    ensures Owned(links, Relocate(place, Moved(x, a)), pipes, t)
  {
  }

  lemma ClientKeepsOwned(s: System, c: nat, a: ClientAction, t: Token)
    requires PlaceInv(s) && IdInv(s) && ClientStep(s, c, a).Some? && Owned(s.links, s.place, s.pipes, t)
    ensures Owned(s.links, ClientStep(s, c, a).value.place, ClientStep(s, c, a).value.pipes, t)
  {
    if a.AgentRead? {
      var x := s.clients[c];
      assert ClientIds(s.links, c, x);
      if HasRequest(s, x, t) { HeadIsOnWire(s, x.agent.value, t); }
      ReadKeepsOwned(s, c, x, t);
    }
  }

  lemma ReadKeepsOwned(s: System, c: nat, x: Client, t: Token)
    requires AgentReadStep(s, c, x).Some? && Owned(s.links, s.place, s.pipes, t)
    requires HasRequest(s, x, t) ==> At(s.place, t, OnWire(x.agent.value)) && s.links[x.agent.value].owner == c
    ensures Owned(s.links, AgentReadStep(s, c, x).value.place, AgentReadStep(s, c, x).value.pipes, t)
  {
  }

  lemma WorkKeepsOwned(s: System, u: Token, a: WorkAction, t: Token)
    requires WorkStep(s, u, a).Some? && Owned(s.links, s.place, s.pipes, t)
    ensures Owned(s.links, WorkStep(s, u, a).value.place, WorkStep(s, u, a).value.pipes, t)
  {
  }

  lemma StepKeepsOwned(s: System, a: SystemAction)
    requires PlaceInv(s) && IdInv(s) && OwnedInv(s) && SystemStep(s, a).Some?
    ensures OwnedInv(SystemStep(s, a).value)
  {
    var s' := SystemStep(s, a).value;
    StepKeepsLinks(s, a);
    forall t ensures Owned(s'.links, s'.place, s'.pipes, t) {
      assert Owned(s.links, s.place, s.pipes, t);
      match a {
        case ManagerDo(m, b) => ManagerKeepsOwned(s, m, b, t);
        case LoginInsert(_) =>
        case LoginAnswer(_) =>
        case ClientDo(c, b) => ClientKeepsOwned(s, c, b, t);
        case WorkDo(u, b) => WorkKeepsOwned(s, u, b, t);
      }
      OwnedStays(s.links, s'.links, s'.place, s'.pipes, t);
    }
  }

  lemma {:induction false} RunKeepsOwned(s: System, run: seq<SystemAction>)
    requires RouteInv(s) && OwnedInv(s) && SystemExec(s, run).Some?
    ensures RouteInv(SystemExec(s, run).value) && OwnedInv(SystemExec(s, run).value)
    decreases |run|
  {
    if run != [] {
      StepKeepsRoutes(s, run[0]);
      StepKeepsOwned(s, run[0]);
      RunKeepsOwned(SystemStep(s, run[0]).value, run[1..]);
    }
  }

  /** Where the manager or the issuer of a pooled pipe is alone, they are the same. */
  lemma AloneIsHome(s: System, t: Token, m: nat)
    requires RouteInv(s) && OwnedInv(s) && t in s.place && Arrived(s.place[t]) && m < |s.links| && Alone(s, m)
    ensures t.mgr == m <==> s.place[t].m == m
  {
    assert PipeAt(s.mgrs, s.links, s.pipes, t, s.place[t]);
    assert Owned(s.links, s.place, s.pipes, t);
    assert PipeIds(s, s.pipes[t]);
    AloneIsOnlyOne(s.links, m, t.mgr, s.place[t].m);
  }

  /** Client of `j` given the id of `k`: if `m` shares neither, `j` and `k` are both `m` or neither is. */
  lemma AloneIsOnlyOne(links: seq<Link>, m: nat, j: nat, k: nat)
    requires m < |links| && j < |links| && k < |links| && GivenTo(links, links[k].id, links[j].owner)
    requires forall i: nat :: i < |links| && i != m ==> links[i].owner != links[m].owner && links[i].id != links[m].id
    ensures j == m <==> k == m
  {
    var i: nat :| i < |links| && links[i].id == links[k].id && links[i].owner == links[j].owner;
  }

  /** A manager whose login shares neither client nor id with another one exchanges no pipes. */
  lemma AloneExchangesNothing(config: map<nat, map<Name, Address>>, run: seq<SystemAction>, s: System, m: nat)
    requires SystemExec(Start(config), run) == Some(s) && m < |s.mgrs| == |s.links| && Alone(s, m)
    ensures Exported(s, m) == {} && Imported(s, m) == {}
  {
    StartRoutes(config);
    RunKeepsOwned(Start(config), run);
    forall t | t in s.place && Arrived(s.place[t]) ensures t.mgr == m <==> s.place[t].m == m { AloneIsHome(s, t, m); }
  }

  /**
   For an open manager past its initial requests that is alone with its client and id: with nothing lost
   and no timeout, the pipes pooled or coming are the pool size plus one per waiting handler; and in
   general exactly when as many were lost as handlers timed out.
   */
  lemma PoolStaysSupplied(config: map<nat, map<Name, Address>>, run: seq<SystemAction>, s: System, m: nat)
    requires SystemExec(Start(config), run) == Some(s) && m < |s.mgrs| == |s.links|
    requires PastInit(s.mgrs[m]) && Alone(s, m)
    ensures Supplied(s, m) <==> |Own(s, m, Lost)| == s.mgrs[m].ledger.timeouts
    ensures Own(s, m, Lost) == {} && s.mgrs[m].ledger.timeouts == 0 ==> Supplied(s, m)
  {
    AloneExchangesNothing(config, run, s, m);
    SuppliedIff(config, run, s, m);
  }

  // ---- Which logins keep every manager supplied ----

  /** Every untroubled manager is supplied exactly. */
  ghost predicate SuppliesAll(s: System) {
    forall m: nat :: m < |s.mgrs| && Untroubled(s, m) ==> Supplied(s, m)
  }

  /** Any login and any later one may occur in the same run. */
  ghost predicate Obeys(together: (nat, Id, nat, Id) -> bool, s: System) {
    forall j: nat, k: nat ::
      j < k < |s.links| ==> together(s.links[j].owner, s.links[j].id, s.links[k].owner, s.links[k].id)
  }

  /** Two logins of configured clients that may occur together never share a client or an id. */
  ghost predicate NothingShared(config: map<nat, map<Name, Address>>, together: (nat, Id, nat, Id) -> bool) {
    forall c, i, d, j :: c in config && d in config && together(c, i, d, j) ==> c != d && i != j
  }

  lemma NothingSharedSupplies(
    config: map<nat, map<Name, Address>>, together: (nat, Id, nat, Id) -> bool, run: seq<SystemAction>, s: System)
    requires NothingShared(config, together) && SystemExec(Start(config), run) == Some(s) && Obeys(together, s)
    ensures SuppliesAll(s)
  {
    ReachableInv(config, run, s);
    OwnersAreConfigured(config, run, s);
    forall m: nat | m < |s.mgrs| && Untroubled(s, m) ensures Supplied(s, m) {
      forall k: nat | k < |s.links| && k != m
        ensures s.links[k].owner != s.links[m].owner && s.links[k].id != s.links[m].id
      {
        var a, b := if k < m then k else m, if k < m then m else k;
        assert together(s.links[a].owner, s.links[a].id, s.links[b].owner, s.links[b].id);
      }
      PoolStaysSupplied(config, run, s, m);
    }
  }

  /**
   For any rule of which logins may occur together: every run that obeys it keeps all managers supplied
   if and only if no two logins that it lets occur together share a client or an id.
   */
  lemma SuppliesAllIff(config: map<nat, map<Name, Address>>, together: (nat, Id, nat, Id) -> bool)
    ensures (forall run, s :: SystemExec(Start(config), run) == Some(s) && Obeys(together, s) ==> SuppliesAll(s))
            <==> NothingShared(config, together)
  {
    if NothingShared(config, together) {
      forall run, s | SystemExec(Start(config), run) == Some(s) && Obeys(together, s) ensures SuppliesAll(s) {
        NothingSharedSupplies(config, together, run, s);
      }
    } else {
      var c, i, d, j :| c in config && d in config && together(c, i, d, j) && (c == d || i == j);
      var run, s := SharingOversupplies(config, c, i, d, j);
      assert Obeys(together, s);
      assert !SuppliesAll(s);
    }
  }

  /** Any two logins that share a client or an id can be the only ones of a run that oversupplies the second. */
  lemma SharingOversupplies(config: map<nat, map<Name, Address>>, c: nat, i: Id, d: nat, j: Id)
    returns (run: seq<SystemAction>, s: System)
    requires c in config && d in config && (c == d || i == j)
    ensures SystemExec(Start(config), run) == Some(s) && TwoLogins(s, c, i, d, j)
    ensures Oversupplied(s) && !Supplied(s, 1)
  {
    if i == j {
      run, s := SharedIdOversupplies(config, c, d, i);
    } else {
      run, s := LoginAgainOversupplies(config, c, i, j);
    }
  }

  // ---- One id, if each client logs in once ----

  predicate OneLoginEach(s: System) {
    forall j: nat, k: nat :: j < k < |s.links| ==> s.links[j].owner != s.links[k].owner
  }

  /** The same for the managers with this id alone. */
  ghost predicate SuppliesOwn(s: System, id: Id) {
    forall m: nat ::
      m < |s.mgrs| && m < |s.links| && s.links[m].id == id && Untroubled(s, m) ==> Supplied(s, m)
  }

  lemma OneClientSuppliesOwn(
    config: map<nat, map<Name, Address>>, allowed: (nat, Id) -> bool, id: Id, run: seq<SystemAction>, s: System)
    requires OneClient(config, allowed, id) && SystemExec(Start(config), run) == Some(s)
    requires Permitted(allowed, s) && OneLoginEach(s)
    ensures SuppliesOwn(s, id)
  {
    ReachableInv(config, run, s);
    OwnersAreConfigured(config, run, s);
    forall m: nat | m < |s.mgrs| && m < |s.links| && s.links[m].id == id && Untroubled(s, m)
      ensures Supplied(s, m)
    {
      assert allowed(s.links[m].owner, id);
      PoolStaysSupplied(config, run, s, m);
    }
  }

  /**
   If each client logs in once: the managers with this id are supplied in every run with permitted logins
   if and only if at most one configured client may be given the id.
   */
  lemma SuppliesOwnIff(config: map<nat, map<Name, Address>>, allowed: (nat, Id) -> bool, id: Id)
    ensures (forall run, s ::
               SystemExec(Start(config), run) == Some(s) && Permitted(allowed, s) && OneLoginEach(s) ==>
                 SuppliesOwn(s, id))
            <==> OneClient(config, allowed, id)
  {
    if OneClient(config, allowed, id) {
      forall run, s | SystemExec(Start(config), run) == Some(s) && Permitted(allowed, s) && OneLoginEach(s)
        ensures SuppliesOwn(s, id)
      {
        OneClientSuppliesOwn(config, allowed, id, run, s);
      }
    } else {
      var c, d :| c in config && d in config && allowed(c, id) && allowed(d, id) && c != d;
      var run, s := SharedIdOversupplies(config, c, d, id);
      assert Permitted(allowed, s) && OneLoginEach(s);
      assert !SuppliesOwn(s, id);
    }
  }
}
