/**
 End-to-end routing: a user connection accepted on a proxy of a manager reaches only an address that a
 client given that manager's id configured under the proxy's name. If no other client was given that
 id, it is the client behind that manager.
 */
module Routing {
  import opened Options
  import opened ManagerMachine
  import opened ProxySystem
  import opened PlaceProofs
  import opened SystemProofs
  import opened Conservation
  import opened IdProofs
  import opened FarEndProofs

  // ---- Whole runs ----

  ghost predicate RouteInv(s: System) {
    PlaceInv(s) && ManagersInv(s) && IdInv(s) && PipeInv(s) && FarInv(s) && StartedInv(s)
  }

  lemma StepKeepsRoutes(s: System, a: SystemAction)
    requires RouteInv(s) && SystemStep(s, a).Some?
    ensures RouteInv(SystemStep(s, a).value)
  {
    StepKeepsPlaces(s, a);
    StepKeepsManagers(s, a);
    StepKeepsIds(s, a);
    StepKeepsPipes(s, a);
    StepKeepsFar(s, a);
    StepKeepsStarted(s, a);
  }

  lemma SameTablesCompose(s: System, s1: System, s2: System)
    requires SameTables(s, s1) && SameTables(s1, s2)
    ensures SameTables(s, s2)
  {
    forall c | c in s.clients ensures SameTable(s.clients[c], s2.clients[c]) {
      assert SameTable(s.clients[c], s1.clients[c]) && SameTable(s1.clients[c], s2.clients[c]);
    }
  }

  lemma {:induction false} RunKeepsRoutes(s: System, run: seq<SystemAction>)
    requires RouteInv(s) && SystemExec(s, run).Some?
    ensures RouteInv(SystemExec(s, run).value)
    decreases |run|
  {
    if run != [] {
      StepKeepsRoutes(s, run[0]);
      RunKeepsRoutes(SystemStep(s, run[0]).value, run[1..]);
    }
  }

  lemma {:induction false} RunKeepsTables(s: System, run: seq<SystemAction>)
    requires SystemExec(s, run).Some?
    ensures SameTables(s, SystemExec(s, run).value)
    decreases |run|
  {
    if run != [] {
      StepKeepsTables(s, run[0]);
      RunKeepsTables(SystemStep(s, run[0]).value, run[1..]);
      SameTablesCompose(s, SystemStep(s, run[0]).value, SystemExec(s, run).value);
    }
  }

  lemma StartRoutes(config: map<nat, map<Name, Address>>)
    ensures RouteInv(Start(config))
  {
    StartInv(config);
  }

  /**
   What a pipe joined with a user connection of handler `h` of manager `m` may lead to: its client `c`
   was given the manager's id, and the client end reaches only what `c` configured and started.
   */
  ghost predicate WellRouted(config: map<nat, map<Name, Address>>, s: System, m: nat, h: nat, t: Token)
    requires m < |s.mgrs| == |s.links| && h in s.mgrs[m].crowd.handlers && t in s.pipes
  {
    var c, n := s.pipes[t].client, s.mgrs[m].crowd.handlers[h].name;
    && s.pipes[t].id == s.links[m].id
    && GivenTo(s.links, s.links[m].id, c)
    && s.pipes[t].request == Some(n)
    && (s.pipes[t].far.JoinedTo? ==>
          && s.pipes[t].far.name == n
          && c in config && n in config[c] && s.pipes[t].far.addr == config[c][n]
          && c in s.clients && n in s.clients[c].proxies && s.clients[c].proxies[n].started
          && Confirmed(s, c, n))
  }

  /** No login of another client was given the id of manager `m`. */
  predicate OwnsId(s: System, m: nat)
    requires m < |s.links|
  {
    forall k: nat :: k < |s.links| && s.links[k].id == s.links[m].id ==> s.links[k].owner == s.links[m].owner
  }

  lemma JoinedPipe(s: System, m: nat, h: nat, t: Token)
    requires PlaceInv(s) && IdInv(s) && PipeInv(s) && m < |s.mgrs| && HandlerAt(s.mgrs[m], h, Joined(t))
    ensures t in s.pipes && s.pipes[t].id == s.links[m].id && GivenTo(s.links, s.pipes[t].id, s.pipes[t].client)
    ensures s.pipes[t].request == Some(s.mgrs[m].crowd.handlers[h].name)
  {
    LocatesAgrees(s, t, Carrying(m, h));
    assert PipeAt(s.mgrs, s.links, s.pipes, t, s.place[t]);
    assert PipeIds(s, s.pipes[t]);
  }

  lemma JoinedIsWellRouted(config: map<nat, map<Name, Address>>, s: System, m: nat, h: nat, t: Token)
    requires RouteInv(s) && SameTables(Start(config), s)
    requires m < |s.mgrs| && HandlerAt(s.mgrs[m], h, Joined(t))
    ensures t in s.pipes && WellRouted(config, s, m, h, t)
  {
    JoinedPipe(s, m, h, t);
    if s.pipes[t].far.JoinedTo? { DialledAsConfigured(config, s, t); }
  }

  lemma DialledAsConfigured(config: map<nat, map<Name, Address>>, s: System, t: Token)
    requires FarInv(s) && StartedInv(s) && SameTables(Start(config), s) && t in s.pipes && s.pipes[t].far.JoinedTo?
    ensures var c, n := s.pipes[t].client, s.pipes[t].far.name;
            && s.pipes[t].request == Some(n)
            && c in config && n in config[c] && s.pipes[t].far.addr == config[c][n]
            && c in s.clients && n in s.clients[c].proxies && s.clients[c].proxies[n].started
            && Confirmed(s, c, n)
  {
    assert FarOk(s.clients, s.pipes[t]);
    assert SameTable(Start(config).clients[s.pipes[t].client], s.clients[s.pipes[t].client]);
  }

  /**
   In every state of every run, whatever ids were given to whom, a pipe that handler `h` of manager
   `m` joined with its user connection was opened under the id of `m` by a client that was given that
   id, and carries the name of the handler's proxy; if the client end is joined to a local address, it
   is the one this client configured under that name, the client has marked the name started, and a
   manager of this client had put a proxy of that name in its map before.
   */
  lemma ConnectionsFollowIds(
    config: map<nat, map<Name, Address>>, run: seq<SystemAction>, s: System, m: nat, h: nat, t: Token)
    requires SystemExec(Start(config), run) == Some(s)
    requires m < |s.mgrs| && HandlerAt(s.mgrs[m], h, Joined(t))
    ensures |s.links| == |s.mgrs| && t in s.pipes && WellRouted(config, s, m, h, t)
  {
    StartRoutes(config);
    RunKeepsRoutes(Start(config), run);
    RunKeepsTables(Start(config), run);
    JoinedIsWellRouted(config, s, m, h, t);
  }

  /**
   End-to-end routing. If no other client was given the id of manager `m`, whatever happened to other
   ids, its user connections are joined only with pipes of the client that logged in to `m`; so they
   reach only the addresses which that client configured under the proxy's name and started.
   */
  lemma ConnectionsAreRouted(
    config: map<nat, map<Name, Address>>, run: seq<SystemAction>, s: System, m: nat, h: nat, t: Token)
    requires SystemExec(Start(config), run) == Some(s)
    requires m < |s.mgrs| && m < |s.links| && OwnsId(s, m) && HandlerAt(s.mgrs[m], h, Joined(t))
    ensures |s.links| == |s.mgrs| && t in s.pipes && WellRouted(config, s, m, h, t)
    ensures s.pipes[t].client == s.links[m].owner
  {
    ConnectionsFollowIds(config, run, s, m, h, t);
    var k: nat :| k < |s.links| && s.links[k].id == s.links[m].id && s.links[k].owner == s.pipes[t].client;
  }

  lemma OwnersAreConfigured(config: map<nat, map<Name, Address>>, run: seq<SystemAction>, s: System)
    requires SystemExec(Start(config), run) == Some(s)
    ensures forall m: nat :: m < |s.links| ==> s.links[m].owner in config
  {
    StartRoutes(config);
    RunKeepsRoutes(Start(config), run);
    RunKeepsTables(Start(config), run);
    forall m: nat | m < |s.links| ensures s.links[m].owner in config {
      assert LinkIds(s.clients, s.links[m]);
    }
  }

  /** Conversely, a client dials a local address only for a pipe that some handler has joined. */
  lemma DialedPipesAreJoined(config: map<nat, map<Name, Address>>, run: seq<SystemAction>, s: System, t: Token)
    requires SystemExec(Start(config), run) == Some(s)
    requires t in s.pipes && s.pipes[t].far.JoinedTo?
    ensures exists m: nat, h :: m < |s.mgrs| && HandlerAt(s.mgrs[m], h, Joined(t))
  {
    StartRoutes(config);
    RunKeepsRoutes(Start(config), run);
    assert FarOk(s.clients, s.pipes[t]);
    assert PipeAt(s.mgrs, s.links, s.pipes, t, s.place[t]);
    LocatesAgrees(s, t, s.place[t]);
    var p := s.place[t];
    assert p.m < |s.mgrs| && HandlerAt(s.mgrs[p.m], p.h, Joined(t));
  }
}
