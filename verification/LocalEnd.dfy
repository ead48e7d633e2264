/**
 The client end of a pipe over a whole run: looked up, checked and dialled, once each and in this order,
 and joined with the local service exactly if all three succeeded.
 */
module LocalEnd {
  import opened Basics
  import opened Options
  import opened ManagerMachine
  import opened ProxySystem
  import opened IdProofs
  import opened FarEndProofs
  import opened Routing

  /** What awaitWork finds out: whether the name is configured, whether it is started, whether the dial succeeds. */
  datatype Event = LookedUp(known: bool) | Checked(started: bool) | Dialed(ok: bool)

  function EventOf(s: System, a: SystemAction, t: Token): seq<Event> {
    if !a.WorkDo? || a.t != t || t !in s.pipes || s.pipes[t].client !in s.clients then []
    else
      var p, ps := s.pipes[t], s.clients[s.pipes[t].client].proxies;
      match a.work
      case WorkLookup => if p.request.Some? then [LookedUp(p.request.value in ps)] else []
      case WorkCheck => if p.far.Found? then [Checked(p.far.name in ps && ps[p.far.name].started)] else []
      case WorkDial(ok) => if p.far.Ready? then [Dialed(ok)] else []
      case _ => []
  }

  function Events(s: System, run: seq<SystemAction>, t: Token): seq<Event>
    requires SystemExec(s, run).Some?
    decreases |run|
  {
    if run == [] then [] else EventOf(s, run[0], t) + Events(SystemStep(s, run[0]).value, run[1..], t)
  }

  /** The far end is as the events leave it. */
  predicate Told(far: FarEnd, es: seq<Event>) {
    match far
    case Awaiting => es == []
    case Found(_) => es == [LookedUp(true)]
    case Ready(_) => es == [LookedUp(true), Checked(true)]
    case JoinedTo(_, _) => es == [LookedUp(true), Checked(true), Dialed(true)]
    case FarClosed =>
      || es == [LookedUp(false)]
      || es == [LookedUp(true), Checked(false)]
      || es == [LookedUp(true), Checked(true), Dialed(false)]
  }

  predicate ToldIn(pipes: map<Token, Pipe>, t: Token, es: seq<Event>) {
    if t in pipes then Told(pipes[t].far, es) else es == []
  }

  lemma ManagerTold(s: System, m: nat, a: Action, t: Token, es: seq<Event>)
    requires ManagerStep(s, m, a).Some? && ToldIn(s.pipes, t, es)
    ensures ToldIn(ManagerStep(s, m, a).value.pipes, t, es)
  {
    FarStays(s.mgrs[m], s.pipes, a, t);
  }

  lemma FarStays(x: State, pipes: map<Token, Pipe>, a: Action, t: Token)
    ensures t in PipesAfter(x, pipes, a) <==> t in pipes
    ensures t in pipes ==> PipesAfter(x, pipes, a)[t].far == pipes[t].far
  {
  }

  lemma ClientTold(s: System, c: nat, a: ClientAction)
    requires ClientStep(s, c, a).Some?
    ensures ClientStep(s, c, a).value.pipes == s.pipes
  {
    OwnTableKept(s, c, a);
  }

  lemma WorkTold(s: System, u: Token, a: WorkAction, t: Token, es: seq<Event>)
    requires PipeInv(s) && FarInv(s) && WorkStep(s, u, a).Some? && ToldIn(s.pipes, t, es)
    ensures ToldIn(WorkStep(s, u, a).value.pipes, t, es + EventOf(s, WorkDo(u, a), t))
  {
    if u == t {
      OwnWorkTold(s, t, a, es);
    } else {
      assert es + [] == es;
    }
  }

  lemma OwnWorkTold(s: System, t: Token, a: WorkAction, es: seq<Event>)
    requires PipeInv(s) && FarInv(s) && WorkStep(s, t, a).Some? && ToldIn(s.pipes, t, es)
    ensures ToldIn(WorkStep(s, t, a).value.pipes, t, es + EventOf(s, WorkDo(t, a), t))
  {
    assert es + [] == es;
    assert PipeAt(s.mgrs, s.links, s.pipes, t, s.place[t]);
    if t in s.pipes { assert FarOk(s.clients, s.pipes[t]); }
  }

  lemma StepTold(s: System, a: SystemAction, t: Token, es: seq<Event>)
    requires PipeInv(s) && FarInv(s) && SystemStep(s, a).Some? && ToldIn(s.pipes, t, es)
    ensures ToldIn(SystemStep(s, a).value.pipes, t, es + EventOf(s, a, t))
  {
    assert es + [] == es;
    match a
    case ManagerDo(m, b) => ManagerTold(s, m, b, t, es);
    case LoginInsert(_) =>
    case LoginAnswer(_) =>
    case ClientDo(c, b) => ClientTold(s, c, b);
    case WorkDo(u, b) => WorkTold(s, u, b, t, es);
  }

  lemma StepKeepsTold(s: System, a: SystemAction, t: Token, es: seq<Event>)
    requires RouteInv(s) && SystemStep(s, a).Some? && ToldIn(s.pipes, t, es)
    ensures RouteInv(SystemStep(s, a).value)
    ensures ToldIn(SystemStep(s, a).value.pipes, t, es + EventOf(s, a, t))
  {
    StepTold(s, a, t, es);
    StepKeepsRoutes(s, a);
  }

  lemma {:induction false} RunTold(s: System, run: seq<SystemAction>, t: Token, es: seq<Event>)
    requires RouteInv(s) && SystemExec(s, run).Some? && ToldIn(s.pipes, t, es)
    ensures ToldIn(SystemExec(s, run).value.pipes, t, es + Events(s, run, t))
    decreases |run|
  {
    if run == [] {
      assert es + [] == es;
    } else {
      StepKeepsTold(s, run[0], t, es);
      var s1, e := SystemStep(s, run[0]).value, EventOf(s, run[0], t);
      RunTold(s1, run[1..], t, es + e);
      Associate(es, e, Events(s1, run[1..], t));
    }
  }

  lemma {:induction false} EventInRun(s: System, run: seq<SystemAction>, t: Token, e: Event)
    requires SystemExec(s, run).Some? && e in Events(s, run, t) && e.Dialed?
    ensures WorkDo(t, WorkDial(e.ok)) in run
    decreases |run|
  {
    if e !in EventOf(s, run[0], t) { EventInRun(SystemStep(s, run[0]).value, run[1..], t, e); }
  }

  /**
   In every state of every run the far end of a pipe is what its client found out: joined exactly after a
   known name, a started proxy and a dial that succeeded; closed exactly after the first of these that
   did not hold; and otherwise still on the way.
   */
  lemma FarEndFollowsEvents(config: map<nat, map<Name, Address>>, run: seq<SystemAction>, s: System, t: Token)
    requires SystemExec(Start(config), run) == Some(s) && t in s.pipes
    ensures Told(s.pipes[t].far, Events(Start(config), run, t))
    ensures s.pipes[t].far.JoinedTo? ==> WorkDo(t, WorkDial(true)) in run
  {
    StartRoutes(config);
    RunTold(Start(config), run, t, []);
    var es := Events(Start(config), run, t);
    assert [] + es == es;
    if s.pipes[t].far.JoinedTo? {
      assert es[2] == Dialed(true);
      EventInRun(Start(config), run, t, Dialed(true));
    }
  }
}
