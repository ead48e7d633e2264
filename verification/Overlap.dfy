/**
 What can happen because a manager enters the table only after its id was checked and it has started to
 run: two live managers under one id, and an entry that outlives its manager.
 */
module Overlap {
  import opened Options
  import opened ManagerMachine
  import opened ProxySystem
  import opened IdReuse

  /** For any two clients and any id: both can log in and be given the id, and only the second can then be found. */
  lemma OverlappingLoginsShareAnId(config: map<nat, map<Name, Address>>, c: nat, d: nat, id: Id)
    returns (run: seq<SystemAction>, s: System)
    requires c in config && d in config && c != d
    ensures SystemExec(Start(config), run) == Some(s) && TwoLogins(s, c, id, d, id)
    ensures !s.mgrs[0].mgr.closed && !s.mgrs[1].mgr.closed && s.table == map[id := 1]
  {
    var s0 := Start(config);
    run, s := Do(s0, [], s0, ClientDo(c, Login(id, 1)));
    run, s := Do(s0, run, s, ClientDo(d, Login(id, 1)));
    run, s := Do(s0, run, s, LoginInsert(0));
    run, s := Do(s0, run, s, LoginInsert(1));
  }

  /** The table gives the id to a closed manager that the server is already done with, and nobody else has the id. */
  ghost predicate Stale(s: System, id: Id, m: nat) {
    && m < |s.mgrs| == |s.links|
    && id in s.table && s.table[id] == m
    && s.mgrs[m].mgr.closed && s.mgrs[m].server.ServerClosing? && s.mgrs[m].run == DoneSent
    && (forall k: nat :: k < |s.links| && s.links[k].id == id ==> k == m)
    && !s.links[m].login.Created?
  }

  /** A manager whose connection fails at once can be forgotten before it is listed. */
  lemma ForgottenBeforeListed(config: map<nat, map<Name, Address>>, c: nat, id: Id)
    returns (run: seq<SystemAction>, s: System)
    requires c in config
    ensures SystemExec(Start(config), run) == Some(s) && Stale(s, id, 0)
  {
    var s0 := Start(config);
    run, s := Do(s0, [], s0, ClientDo(c, Login(id, 1)));
    run, s := DoQuiet(s0, run, s, 0, RunDo(RunReqTest));
    run, s := Do(s0, run, s, ManagerDo(0, RunDo(RunReqSend)));
    run, s := Forgotten(s0, run, s);
    run, s := Do(s0, run, s, LoginInsert(0));
  }

  lemma DoneStays(x: State, a: Action)
    requires Step(x, a).Some? && x.mgr.closed && x.server.ServerClosing? && x.run == DoneSent
    ensures var y := Step(x, a).value; y.mgr.closed && y.server.ServerClosing? && y.run == DoneSent
    ensures a != ServerDo(ServerForget)
  {
  }

  lemma ManagerKeepsStale(s: System, k: nat, a: Action, id: Id, m: nat)
    requires Stale(s, id, m) && ManagerStep(s, k, a).Some?
    ensures Stale(ManagerStep(s, k, a).value, id, m)
  {
    if k == m { DoneStays(s.mgrs[m], a); }
    LinkAfterKeepsLogin(s.mgrs[k], s.links[k], a);
  }

  lemma LinkAfterKeepsLogin(x: State, link: Link, a: Action)
    ensures LinkAfter(x, link, a).id == link.id && LinkAfter(x, link, a).login == link.login
  {
  }

  lemma ClientKeepsStale(s: System, c: nat, a: ClientAction, id: Id, m: nat)
    requires Stale(s, id, m) && ClientStep(s, c, a).Some?
    ensures Stale(ClientStep(s, c, a).value, id, m)
  {
  }

  lemma StepKeepsStale(s: System, a: SystemAction, id: Id, m: nat)
    requires Stale(s, id, m) && SystemStep(s, a).Some?
    ensures Stale(SystemStep(s, a).value, id, m)
  {
    match a
    case ManagerDo(k, b) => ManagerKeepsStale(s, k, b, id, m);
    case ClientDo(c, b) => ClientKeepsStale(s, c, b, id, m);
    case WorkDo(t, b) => WorkKeepsTable(s, t, b);
    case _ =>
  }

  lemma WorkKeepsTable(s: System, t: Token, a: WorkAction)
    requires WorkStep(s, t, a).Some?
    ensures var s' := WorkStep(s, t, a).value; s'.mgrs == s.mgrs && s'.links == s.links && s'.table == s.table
  {
  }

  /** Such an entry is never removed: its manager stays closed, and no later login is given the id. */
  lemma {:induction false} StaleForever(s: System, run: seq<SystemAction>, id: Id, m: nat)
    requires Stale(s, id, m) && SystemExec(s, run).Some?
    ensures Stale(SystemExec(s, run).value, id, m)
    decreases |run|
  {
    if run != [] {
      StepKeepsStale(s, run[0], id, m);
      StaleForever(SystemStep(s, run[0]).value, run[1..], id, m);
    }
  }
}
