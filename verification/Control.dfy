/** The control connections over a whole run: each side reads what the other wrote, in order. */
module Control {
  import opened Options
  import opened ManagerMachine
  import opened ProxySystem

  /** What a step writes on, or reads from, the control connection of manager `m`, in either direction. */
  datatype Traffic = Traffic(
    toServer: seq<Request>, fromClient: seq<Request>, toClient: seq<Frame>, fromServer: seq<Frame>)
  {
    function Then(t: Traffic): Traffic {
      Traffic(toServer + t.toServer, fromClient + t.fromClient, toClient + t.toClient, fromServer + t.fromServer)
    }
  }

  const QUIET: Traffic := Traffic([], [], [], [])

  function OldestFrame(s: System, m: nat): seq<Frame> {
    if m < |s.links| && s.links[m].toClient != [] then [s.links[m].toClient[0]] else []
  }

  function ClientTraffic(s: System, m: nat, c: nat, a: ClientAction): Traffic {
    if c !in s.clients then QUIET
    else
      match a
      case AgentSend(msg) => if s.clients[c].agent == Some(m) then QUIET.(toServer := [msg]) else QUIET
      case AgentRead => if s.clients[c].agent == Some(m) then QUIET.(fromServer := OldestFrame(s, m)) else QUIET
      case LoginRead =>
        // a frame that is not the response fails the login and is not taken
        if s.clients[c].pending == Some(m) && OldestFrame(s, m) != [] && OldestFrame(s, m)[0].LoginOk? then
          QUIET.(fromServer := OldestFrame(s, m))
        else QUIET
      case _ => QUIET
  }

  function StepTraffic(s: System, m: nat, a: SystemAction): Traffic {
    match a
    case ManagerDo(k, RecvDo(RecvGet(msg))) => if k == m then QUIET.(fromClient := [msg]) else QUIET
    case ManagerDo(k, SendDo(SendWrite(true))) =>
      if k == m && m < |s.mgrs| && s.mgrs[m].send.WritingNotice? then QUIET.(toClient := [Note(s.mgrs[m].send.msg)])
      else QUIET
    case LoginAnswer(k) => if k == m && m < |s.links| then QUIET.(toClient := [LoginOk(s.links[m].id)]) else QUIET
    case ClientDo(c, b) => ClientTraffic(s, m, c, b)
    case _ => QUIET
  }

  function RunTraffic(s: System, m: nat, run: seq<SystemAction>): Traffic
    requires SystemExec(s, run).Some?
    decreases |run|
  {
    if run == [] then QUIET
    else StepTraffic(s, m, run[0]).Then(RunTraffic(SystemStep(s, run[0]).value, m, run[1..]))
  }

  function ServerSide(s: System, m: nat): seq<Request> { if m < |s.links| then s.links[m].toServer else [] }

  function ClientSide(s: System, m: nat): seq<Frame> { if m < |s.links| then s.links[m].toClient else [] }

  /** What was under way before and what is written is what is read and what is under way after, in order. */
  predicate Flows(s: System, m: nat, t: Traffic, s': System) {
    && ServerSide(s, m) + t.toServer == t.fromClient + ServerSide(s', m)
    && ClientSide(s, m) + t.toClient == t.fromServer + ClientSide(s', m)
  }

  lemma ManagerFlows(s: System, k: nat, a: Action, m: nat)
    requires ManagerStep(s, k, a).Some?
    ensures Flows(s, m, StepTraffic(s, m, ManagerDo(k, a)), ManagerStep(s, k, a).value)
  {
    if k == m && a.RecvDo? && a.recv.RecvGet? {
      assert s.links[m].toServer == [s.links[m].toServer[0]] + s.links[m].toServer[1..];
    }
  }

  /** Taking the oldest frame of one connection. */
  lemma DropFlows(s: System, k: nat, s': System, m: nat)
    requires k < |s.links| && s.links[k].toClient != [] && s'.links == DropFrame(s.links, k)
    ensures Flows(s, m, if k == m then QUIET.(fromServer := OldestFrame(s, m)) else QUIET, s')
  {
    if k == m { assert s.links[m].toClient == [s.links[m].toClient[0]] + s.links[m].toClient[1..]; }
  }

  lemma SameFlows(s: System, s': System, m: nat)
    requires s'.links == s.links
    ensures Flows(s, m, QUIET, s')
  {
  }

  /** Which frame a client's read takes, if any. */
  lemma ReadDrops(s: System, c: nat, a: ClientAction)
    requires (a.AgentRead? || a.LoginRead?) && ClientStep(s, c, a).Some?
    ensures var s', x := ClientStep(s, c, a).value, s.clients[c];
            if a.AgentRead? then
              && x.agent.Some? && x.agent.value < |s.links| && s.links[x.agent.value].toClient != []
              && s'.links == DropFrame(s.links, x.agent.value)
            else
              && x.pending.Some? && x.pending.value < |s.links| && s.links[x.pending.value].toClient != []
              && s'.links == (if s.links[x.pending.value].toClient[0].LoginOk? then DropFrame(s.links, x.pending.value)
                              else s.links)
  {
  }

  lemma ReadFlows(s: System, c: nat, a: ClientAction, m: nat)
    requires (a.AgentRead? || a.LoginRead?) && ClientStep(s, c, a).Some?
    ensures Flows(s, m, ClientTraffic(s, m, c, a), ClientStep(s, c, a).value)
  {
    ReadDrops(s, c, a);
    var s', x := ClientStep(s, c, a).value, s.clients[c];
    var k := if a.AgentRead? then x.agent.value else x.pending.value;
    if s'.links == s.links {
      SameFlows(s, s', m);
    } else {
      DropFlows(s, k, s', m);
    }
  }

  lemma ClientFlows(s: System, c: nat, a: ClientAction, m: nat)
    requires ClientStep(s, c, a).Some?
    ensures Flows(s, m, ClientTraffic(s, m, c, a), ClientStep(s, c, a).value)
  {
    if a.AgentRead? || a.LoginRead? { ReadFlows(s, c, a, m); }
  }

  lemma WorkFlows(s: System, t: Token, a: WorkAction, m: nat)
    requires WorkStep(s, t, a).Some?
    ensures Flows(s, m, QUIET, WorkStep(s, t, a).value)
  {
  }

  lemma StepFlows(s: System, a: SystemAction, m: nat)
    requires SystemStep(s, a).Some?
    ensures Flows(s, m, StepTraffic(s, m, a), SystemStep(s, a).value)
  {
    match a
    case ManagerDo(k, b) => ManagerFlows(s, k, b, m);
    case LoginInsert(_) =>
    case LoginAnswer(_) =>
    case ClientDo(c, b) => ClientFlows(s, c, b, m);
    case WorkDo(t, b) => WorkFlows(s, t, b, m);
  }

  /** First one step's traffic, then the rest. */
  lemma Compose<T>(
    before: seq<T>, sent: seq<T>, got: seq<T>, mid: seq<T>, moreSent: seq<T>, moreGot: seq<T>, after: seq<T>)
    requires before + sent == got + mid && mid + moreSent == moreGot + after
    ensures before + (sent + moreSent) == (got + moreGot) + after
  {
    calc {
      before + (sent + moreSent);
      (before + sent) + moreSent;
      got + (mid + moreSent);
      got + (moreGot + after);
      (got + moreGot) + after;
    }
  }

  lemma FlowsThen(s: System, m: nat, t: Traffic, s1: System, more: Traffic, s2: System)
    requires Flows(s, m, t, s1) && Flows(s1, m, more, s2)
    ensures Flows(s, m, t.Then(more), s2)
  {
    Compose(ServerSide(s, m), t.toServer, t.fromClient, ServerSide(s1, m),
            more.toServer, more.fromClient, ServerSide(s2, m));
    Compose(ClientSide(s, m), t.toClient, t.fromServer, ClientSide(s1, m),
            more.toClient, more.fromServer, ClientSide(s2, m));
  }

  lemma {:induction false} RunFlows(s: System, run: seq<SystemAction>, m: nat)
    requires SystemExec(s, run).Some?
    ensures Flows(s, m, RunTraffic(s, m, run), SystemExec(s, run).value)
    decreases |run|
  {
    if run == [] {
      assert ServerSide(s, m) + [] == [] + ServerSide(s, m) && ClientSide(s, m) + [] == [] + ClientSide(s, m);
    } else {
      var s1 := SystemStep(s, run[0]).value;
      StepFlows(s, run[0], m);
      RunFlows(s1, run[1..], m);
      FlowsThen(s, m, StepTraffic(s, m, run[0]), s1, RunTraffic(s1, m, run[1..]), SystemExec(s, run).value);
    }
  }

  /**
   Over every run, what a manager's control connection delivered in either direction, followed by what is
   under way on it, is exactly what the other side wrote, in order.
   */
  lemma ControlIsInOrder(config: map<nat, map<Name, Address>>, run: seq<SystemAction>, s: System, m: nat)
    requires SystemExec(Start(config), run) == Some(s) && m < |s.links|
    ensures var t := RunTraffic(Start(config), m, run);
            && t.toServer == t.fromClient + s.links[m].toServer
            && t.toClient == t.fromServer + s.links[m].toClient
  {
    RunFlows(Start(config), run, m);
    var t := RunTraffic(Start(config), m, run);
    assert [] + t.toServer == t.toServer && [] + t.toClient == t.toClient;
  }
}
