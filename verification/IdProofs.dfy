/** Ids and pipes: who was given which id, and under which id a pipe at a manager was opened. */
module IdProofs {
  import opened Options
  import opened ManagerMachine
  import opened ProxySystem
  import opened PlaceProofs
  import opened SystemProofs

  // ---- Who was given which id ----

  /** Some login of client `c` was given this id. */
  ghost predicate GivenTo(links: seq<Link>, id: Id, c: nat) {
    exists k: nat :: k < |links| && links[k].id == id && links[k].owner == c
  }

  ghost predicate ClientIds(links: seq<Link>, c: nat, x: Client) {
    && (x.id.Some? ==> GivenTo(links, x.id.value, c))
    && (x.pending.Some? ==> x.pending.value < |links| && links[x.pending.value].owner == c)
    && (x.agent.Some? ==> x.agent.value < |links| && links[x.agent.value].owner == c)
  }

  ghost predicate LoginFrames(link: Link) {
    forall i :: 0 <= i < |link.toClient| && link.toClient[i].LoginOk? ==> link.toClient[i].id == link.id
  }

  ghost predicate LinkIds(clients: map<nat, Client>, link: Link) { link.owner in clients && LoginFrames(link) }

  ghost predicate PipeIds(s: System, p: Pipe) { GivenTo(s.links, p.id, p.client) && p.client in s.clients }

  ghost predicate IdInv(s: System) {
    && |s.links| == |s.mgrs|
    && (forall c :: c in s.clients ==> ClientIds(s.links, c, s.clients[c]))
    && (forall m: nat :: m < |s.links| ==> LinkIds(s.clients, s.links[m]))
    && (forall i :: i in s.table ==> s.table[i] < |s.links| && s.links[s.table[i]].id == i)
    && (forall t :: t in s.pipes ==> PipeIds(s, s.pipes[t]))
  }

  lemma ClientSwapKeepsIds(s: System, c: nat, x: Client)
    requires IdInv(s) && ClientIds(s.links, c, x)
    ensures IdInv(WithClient(s, c, x))
  {
  }

  /** Links are added, and keep their owners and ids. */
  predicate LinksStay(links: seq<Link>, links': seq<Link>) {
    && |links| <= |links'|
    && forall k: nat :: k < |links| ==> links'[k].id == links[k].id && links'[k].owner == links[k].owner
  }

  lemma GivenStays(links: seq<Link>, links': seq<Link>, id: Id, c: nat)
    requires LinksStay(links, links') && GivenTo(links, id, c)
    ensures GivenTo(links', id, c)
  {
    var k: nat :| k < |links| && links[k].id == id && links[k].owner == c;
    assert links'[k].id == id && links'[k].owner == c;
  }

  lemma ClientIdsStay(links: seq<Link>, links': seq<Link>, c: nat, x: Client)
    requires LinksStay(links, links') && ClientIds(links, c, x)
    ensures ClientIds(links', c, x)
  {
    if x.id.Some? { GivenStays(links, links', x.id.value, c); }
  }

  /** A link may change anything but its owner and id, as long as login frames carry that id. */
  lemma LinkSwapKeepsIds(s: System, m: nat, link: Link)
    requires IdInv(s) && m < |s.links| && LoginFrames(link)
    requires link.id == s.links[m].id && link.owner == s.links[m].owner
    ensures IdInv(s.(links := s.links[m := link]))
  {
    var links' := s.links[m := link];
    forall d | d in s.clients ensures ClientIds(links', d, s.clients[d]) {
      ClientIdsStay(s.links, links', d, s.clients[d]);
    }
    forall t | t in s.pipes ensures GivenTo(links', s.pipes[t].id, s.pipes[t].client) {
      assert PipeIds(s, s.pipes[t]);
      GivenStays(s.links, links', s.pipes[t].id, s.pipes[t].client);
    }
  }

  lemma ManagerKeepsIds(s: System, m: nat, a: Action)
    requires IdInv(s) && ManagerStep(s, m, a).Some?
    ensures IdInv(ManagerStep(s, m, a).value)
  {
    var x, link := s.mgrs[m], LinkAfter(s.mgrs[m], s.links[m], a);
    assert LinkIds(s.clients, s.links[m]);
    LinkAfterKeepsIds(x, s.links[m], a);
    LinkSwapKeepsIds(s, m, link);
    var s1 := s.(links := s.links[m := link]);
    forall t | t in PipesAfter(x, s.pipes, a) ensures PipeIds(s1, PipesAfter(x, s.pipes, a)[t]) {
      PipesKeepIds(x, s.pipes, a, t);
      assert PipeIds(s1, s.pipes[t]);
    }
    IdsCarry(s1, ManagerStep(s, m, a).value);
  }

  /** Apart from new managers' states, only the table and the pipes changed, and they still respect ids. */
  lemma IdsCarry(s: System, s': System)
    requires IdInv(s) && s'.links == s.links && s'.clients == s.clients && |s'.mgrs| == |s.mgrs|
    requires forall i :: i in s'.table ==> i in s.table && s'.table[i] == s.table[i]
    requires forall t :: t in s'.pipes ==> PipeIds(s, s'.pipes[t])
    ensures IdInv(s')
  {
    forall t | t in s'.pipes ensures PipeIds(s', s'.pipes[t]) { assert PipeIds(s, s'.pipes[t]); }
  }

  lemma LinkAfterKeepsIds(x: State, link: Link, a: Action)
    requires LoginFrames(link)
    ensures var link' := LinkAfter(x, link, a);
            link'.id == link.id && link'.owner == link.owner && LoginFrames(link')
  {
  }

  lemma PipesKeepIds(x: State, pipes: map<Token, Pipe>, a: Action, t: Token)
    ensures t in PipesAfter(x, pipes, a) <==> t in pipes
    ensures t in pipes ==>
              PipesAfter(x, pipes, a)[t].client == pipes[t].client && PipesAfter(x, pipes, a)[t].id == pipes[t].id
  {
  }

  lemma LoginKeepsIds(s: System, c: nat, x: Client, id: Id, requested: int)
    requires IdInv(s) && c in s.clients && s.clients[c] == x && LoginStep(s, c, x, id, requested).Some?
    ensures IdInv(LoginStep(s, c, x, id, requested).value)
  {
    var s' := LoginStep(s, c, x, id, requested).value;
    forall k: nat | k < |s'.links| ensures LinkIds(s'.clients, s'.links[k]) {
      if k < |s.links| { assert LinkIds(s.clients, s.links[k]); }
    }
    forall d | d in s'.clients ensures ClientIds(s'.links, d, s'.clients[d]) {
      assert ClientIds(s.links, d, s.clients[d]);
      ClientIdsStay(s.links, s'.links, d, s.clients[d]);
    }
    forall t | t in s.pipes ensures PipeIds(s', s.pipes[t]) {
      assert PipeIds(s, s.pipes[t]);
      GivenStays(s.links, s'.links, s.pipes[t].id, s.pipes[t].client);
    }
  }

  lemma DropKeepsIds(s: System, m: nat)
    requires IdInv(s) && m < |s.links| && s.links[m].toClient != []
    ensures IdInv(s.(links := DropFrame(s.links, m)))
    ensures DropFrame(s.links, m)[m].owner == s.links[m].owner
    ensures s.links[m].toClient[0].LoginOk? ==> GivenTo(s.links, s.links[m].toClient[0].id, s.links[m].owner)
  {
    assert LinkIds(s.clients, s.links[m]);
    LinkSwapKeepsIds(s, m, DropFrame(s.links, m)[m]);
  }

  lemma LoginReadKeepsIds(s: System, c: nat, x: Client)
    requires IdInv(s) && c in s.clients && s.clients[c] == x && LoginReadStep(s, c, x).Some?
    ensures IdInv(LoginReadStep(s, c, x).value)
  {
    var m := x.pending.value;
    assert ClientIds(s.links, c, x);
    DropKeepsIds(s, m);
    var f := s.links[m].toClient[0];
    if f.LoginOk? {
      var x' := x.(id := Some(f.id), agent := x.pending, pending := None);
      ClientSwapKeepsIds(s.(links := DropFrame(s.links, m)), c, x');
    } else {
      ClientSwapKeepsIds(s, c, x.(pending := None));
    }
  }

  lemma AgentReadKeepsIds(s: System, c: nat, x: Client)
    requires IdInv(s) && c in s.clients && s.clients[c] == x && AgentReadStep(s, c, x).Some?
    ensures IdInv(AgentReadStep(s, c, x).value)
  {
    var m := x.agent.value;
    DropKeepsIds(s, m);
    var s1, f := s.(links := DropFrame(s.links, m)), s.links[m].toClient[0];
    if f.Note? && f.msg.ProxyOk? && f.msg.name in x.proxies {
      assert ClientIds(s1.links, c, x);
      ClientSwapKeepsIds(s1, c, x.(proxies := x.proxies[f.msg.name := x.proxies[f.msg.name].(started := true)]));
    }
  }

  lemma ClientKeepsIds(s: System, c: nat, a: ClientAction)
    requires IdInv(s) && ClientStep(s, c, a).Some?
    ensures IdInv(ClientStep(s, c, a).value)
  {
    var x := s.clients[c];
    assert ClientIds(s.links, c, x);
    match a
    case Login(id, requested) => LoginKeepsIds(s, c, x, id, requested);
    case LoginAbort => ClientSwapKeepsIds(s, c, x.(pending := None));
    case AgentStop => ClientSwapKeepsIds(s, c, x.(agent := None));
    case AgentSend(msg) =>
      assert LinkIds(s.clients, s.links[x.agent.value]);
      LinkSwapKeepsIds(s, x.agent.value, ClientStep(s, c, a).value.links[x.agent.value]);
    case LoginRead => LoginReadKeepsIds(s, c, x);
    case AgentRead => AgentReadKeepsIds(s, c, x);
  }

  lemma InsertKeepsIds(s: System, m: nat)
    requires IdInv(s) && InsertStep(s, m).Some?
    ensures IdInv(InsertStep(s, m).value)
  {
    var link := s.links[m].(login := Listed);
    assert LinkIds(s.clients, s.links[m]);
    LinkSwapKeepsIds(s, m, link);
    TableKeepsIds(s.(links := s.links[m := link]), link.id, m);
  }

  lemma TableKeepsIds(s: System, id: Id, m: nat)
    requires IdInv(s) && m < |s.links| && s.links[m].id == id
    ensures IdInv(s.(table := s.table[id := m]))
  {
    forall t | t in s.pipes ensures GivenTo(s.links, s.pipes[t].id, s.pipes[t].client) {
      assert PipeIds(s, s.pipes[t]);
    }
  }

  lemma AnswerKeepsIds(s: System, m: nat)
    requires IdInv(s) && AnswerStep(s, m).Some?
    ensures IdInv(AnswerStep(s, m).value)
  {
    assert LinkIds(s.clients, s.links[m]);
    LinkSwapKeepsIds(s, m, AnswerStep(s, m).value.links[m]);
  }

  lemma WorkKeepsIds(s: System, t: Token, a: WorkAction)
    requires IdInv(s) && WorkStep(s, t, a).Some?
    ensures IdInv(WorkStep(s, t, a).value)
  {
    if a.WorkOpen? { OpenKeepsIds(s, t); }
  }

  lemma OpenKeepsIds(s: System, t: Token)
    requires IdInv(s) && WorkStep(s, t, WorkOpen).Some?
    ensures IdInv(WorkStep(s, t, WorkOpen).value)
  {
    assert ClientIds(s.links, s.place[t].c, s.clients[s.place[t].c]);
  }

  lemma StepKeepsIds(s: System, a: SystemAction)
    requires IdInv(s) && SystemStep(s, a).Some?
    ensures IdInv(SystemStep(s, a).value)
  {
    match a
    case ManagerDo(m, b) => ManagerKeepsIds(s, m, b);
    case LoginInsert(m) => InsertKeepsIds(s, m);
    case LoginAnswer(m) => AnswerKeepsIds(s, m);
    case ClientDo(c, b) => ClientKeepsIds(s, c, b);
    case WorkDo(t, b) => WorkKeepsIds(s, t, b);
  }

  // ---- Pipes and the managers they are at ----

  /** The stream of this token has been opened. */
  predicate Opened(p: Place) { !(p.InQueue? || p.BeingWritten? || p.OnWire? || p.AtClient? || p.Failed?) }

  /** A pipe at a manager was opened under that manager's id; a joined one carries the handler's proxy name. */
  ghost predicate PipeAt(mgrs: seq<State>, links: seq<Link>, pipes: map<Token, Pipe>, t: Token, p: Place)
    requires |links| == |mgrs|
  {
    && (Opened(p) <==> t in pipes)
    && ((Inside(p).Some? || p.Discarded?) && Opened(p) ==> p.m < |links| && pipes[t].id == links[p.m].id)
    && (p.Carrying? ==> p.h in mgrs[p.m].crowd.handlers && pipes[t].request == Some(mgrs[p.m].crowd.handlers[p.h].name))
    && (Opened(p) && !p.Carrying? ==> pipes[t].request == None)
  }

  ghost predicate PipeInv(s: System) {
    && |s.links| == |s.mgrs|
    && (forall t :: t in s.place ==> PipeAt(s.mgrs, s.links, s.pipes, t, s.place[t]))
    && (forall t :: t in s.pipes ==> t in s.place)
  }

  lemma NamesStay(x: State, a: Action, h: nat)
    requires Step(x, a).Some? && h in x.crowd.handlers
    ensures h in Step(x, a).value.crowd.handlers && Step(x, a).value.crowd.handlers[h].name == x.crowd.handlers[h].name
  {
  }

  lemma UnmovedPipe(s: System, m: nat, a: Action, t: Token)
    requires PipeInv(s) && ManagerStep(s, m, a).Some? && t in s.place
    requires Moved(s.mgrs[m], a).Some? ==> Moved(s.mgrs[m], a).value.token != t
    ensures var s' := ManagerStep(s, m, a).value;
            PipeAt(s'.mgrs, s'.links, s'.pipes, t, s.place[t])
  {
    assert PipeAt(s.mgrs, s.links, s.pipes, t, s.place[t]);
    var p := s.place[t];
    if p.Carrying? && p.m == m { NamesStay(s.mgrs[m], a, p.h); }
  }

  /** The token a manager's step moves, given where it was and under which id it was opened. */
  lemma MovedPipeFrom(s: System, m: nat, a: Action)
    requires ManagerStep(s, m, a).Some? && s.mgrs[m].me == m && Moved(s.mgrs[m], a).Some?
    requires var t := Moved(s.mgrs[m], a).value.token;
             match Origin(s.mgrs[m], a)
             case None => t !in s.pipes
             case Some(p) => At(s.place, t, p) && PipeAt(s.mgrs, s.links, s.pipes, t, p)
    requires a.PushDo? && a.push.PushBegin? ==> a.pipe in s.pipes && s.pipes[a.pipe].id == s.links[m].id
    ensures var s' := ManagerStep(s, m, a).value;
            PipeAt(s'.mgrs, s'.links, s'.pipes, Moved(s.mgrs[m], a).value.token, Moved(s.mgrs[m], a).value.place)
  {
  }

  lemma MovedPipe(s: System, m: nat, a: Action)
    requires PlaceInv(s) && IdInv(s) && PipeInv(s) && ManagerStep(s, m, a).Some? && Moved(s.mgrs[m], a).Some?
    ensures var s' := ManagerStep(s, m, a).value;
            PipeAt(s'.mgrs, s'.links, s'.pipes, Moved(s.mgrs[m], a).value.token, Moved(s.mgrs[m], a).value.place)
  {
    CleanHere(s, m, a);
    MovedFromOrigin(s.mgrs[m], s.place, a);
    MovedPipeFrom(s, m, a);
  }

  lemma ManagerKeepsPipes(s: System, m: nat, a: Action)
    requires PlaceInv(s) && IdInv(s) && PipeInv(s) && ManagerStep(s, m, a).Some?
    ensures PipeInv(ManagerStep(s, m, a).value)
  {
    var s' := ManagerStep(s, m, a).value;
    if Moved(s.mgrs[m], a).Some? { MovedPipe(s, m, a); }
    forall t | t in s'.place ensures PipeAt(s'.mgrs, s'.links, s'.pipes, t, s'.place[t]) {
      if !(Moved(s.mgrs[m], a).Some? && Moved(s.mgrs[m], a).value.token == t) { UnmovedPipe(s, m, a, t); }
    }
  }

  lemma LoginKeepsPipes(s: System, c: nat, x: Client, id: Id, requested: int)
    requires PlaceInv(s) && PipeInv(s) && LoginStep(s, c, x, id, requested).Some?
    ensures PipeInv(LoginStep(s, c, x, id, requested).value)
  {
    var s' := LoginStep(s, c, x, id, requested).value;
    forall t | t in s'.place ensures PipeAt(s'.mgrs, s'.links, s'.pipes, t, s'.place[t]) {
      assert PipeAt(s.mgrs, s.links, s.pipes, t, s.place[t]);
    }
  }

  lemma LinkSwapKeepsPipes(s: System, m: nat, link: Link)
    requires PipeInv(s) && m < |s.links| && link.id == s.links[m].id
    ensures PipeInv(s.(links := s.links[m := link]))
  {
    forall t | t in s.place ensures PipeAt(s.mgrs, s.links[m := link], s.pipes, t, s.place[t]) {
      assert PipeAt(s.mgrs, s.links, s.pipes, t, s.place[t]);
    }
  }

  lemma OutsideKeepsPipes(s: System, t: Token, p: Place)
    requires PipeInv(s) && t in s.place && Opened(p) == Opened(s.place[t])
    requires Inside(p).None? && !p.Discarded? && !s.place[t].Carrying?
    ensures PipeInv(s.(place := s.place[t := p]))
  {
    assert PipeAt(s.mgrs, s.links, s.pipes, t, s.place[t]);
  }

  lemma ClientKeepsPipes(s: System, c: nat, a: ClientAction)
    requires PlaceInv(s) && PipeInv(s) && ClientStep(s, c, a).Some?
    ensures PipeInv(ClientStep(s, c, a).value)
  {
    var x := s.clients[c];
    match a
    case Login(id, requested) => LoginKeepsPipes(s, c, x, id, requested);
    case LoginRead => LinkSwapKeepsPipes(s, x.pending.value, DropFrame(s.links, x.pending.value)[x.pending.value]);
    case AgentSend(_) => LinkSwapKeepsPipes(s, x.agent.value, ClientStep(s, c, a).value.links[x.agent.value]);
    case AgentRead =>
      var m := x.agent.value;
      var f := s.links[m].toClient[0];
      LinkSwapKeepsPipes(s, m, DropFrame(s.links, m)[m]);
      if f.Note? && f.msg.PipeRequest? { RequestReadKeepsPipes(s, m, f.msg.token, c); }
    case _ =>
  }

  lemma RequestReadKeepsPipes(s: System, m: nat, t: Token, c: nat)
    requires PlaceInv(s) && PipeInv(s)
    requires m < |s.links| && s.links[m].toClient != [] && s.links[m].toClient[0] == Note(PipeRequest(t))
    ensures PipeInv(s.(links := DropFrame(s.links, m), place := s.place[t := AtClient(c)]))
  {
    assert Site(s.mgrs[m], s.links[m], m, s.place);
    LinkRequestRead(s.links[m], DropFrame(s.links, m)[m], m, s.place, t, AtClient(c));
    LinkSwapKeepsPipes(s, m, DropFrame(s.links, m)[m]);
    OutsideKeepsPipes(s.(links := DropFrame(s.links, m)), t, AtClient(c));
  }

  lemma FarKeepsPipes(s: System, t: Token, far: FarEnd)
    requires PipeInv(s) && t in s.pipes
    ensures PipeInv(WithFar(s, t, far))
  {
    var pipes' := WithFar(s, t, far).pipes;
    forall u | u in s.place ensures PipeAt(s.mgrs, s.links, pipes', u, s.place[u]) {
      assert PipeAt(s.mgrs, s.links, s.pipes, u, s.place[u]);
    }
  }

  lemma OpenKeepsPipes(s: System, t: Token)
    requires PipeInv(s) && WorkStep(s, t, WorkOpen).Some?
    ensures PipeInv(WorkStep(s, t, WorkOpen).value)
  {
    var s' := WorkStep(s, t, WorkOpen).value;
    forall u | u in s'.place ensures PipeAt(s.mgrs, s.links, s'.pipes, u, s'.place[u]) {
      assert PipeAt(s.mgrs, s.links, s.pipes, u, s.place[u]);
    }
  }

  lemma WorkKeepsPipes(s: System, t: Token, a: WorkAction)
    requires PipeInv(s) && WorkStep(s, t, a).Some?
    ensures PipeInv(WorkStep(s, t, a).value)
  {
    match a
    case WorkOpen => OpenKeepsPipes(s, t);
    case WorkFail => OutsideKeepsPipes(s, t, Failed);
    case StreamDrop => OutsideKeepsPipes(s, t, Rejected);
    case _ => FarKeepsPipes(s, t, WorkStep(s, t, a).value.pipes[t].far);
  }

  lemma StepKeepsPipes(s: System, a: SystemAction)
    requires PlaceInv(s) && IdInv(s) && PipeInv(s) && SystemStep(s, a).Some?
    ensures PipeInv(SystemStep(s, a).value)
  {
    match a
    case ManagerDo(m, b) => ManagerKeepsPipes(s, m, b);
    case LoginInsert(m) => LinkSwapKeepsPipes(s, m, s.links[m].(login := Listed));
    case LoginAnswer(m) => LinkSwapKeepsPipes(s, m, AnswerStep(s, m).value.links[m]);
    case ClientDo(c, b) => ClientKeepsPipes(s, c, b);
    case WorkDo(t, b) => WorkKeepsPipes(s, t, b);
  }
}
