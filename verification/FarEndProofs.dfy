/** The clients' ends of pipes, and the proxies that clients have marked started. */
module FarEndProofs {
  import opened Options
  import opened ManagerMachine
  import opened ProxySystem
  import opened PlaceProofs
  import opened SystemProofs
  import opened IdProofs
  import MP = ManagerProofs

  // ---- The client end of a pipe ----

  ghost predicate FarOk(clients: map<nat, Client>, p: Pipe) {
    match p.far
    case Awaiting => true
    case FarClosed => true
    case Found(n) => p.request == Some(n) && p.client in clients && n in clients[p.client].proxies
    case Ready(n) =>
      && p.request == Some(n) && p.client in clients && n in clients[p.client].proxies
      && clients[p.client].proxies[n].started
    case JoinedTo(n, addr) =>
      && p.request == Some(n) && p.client in clients && n in clients[p.client].proxies
      && clients[p.client].proxies[n].started && clients[p.client].proxies[n].addr == addr
  }

  ghost predicate FarInv(s: System) { forall t :: t in s.pipes ==> FarOk(s.clients, s.pipes[t]) }

  /** Every step keeps the clients' tables, except that a proxy may become started. */
  predicate SameTable(x: Client, y: Client) {
    && x.proxies.Keys == y.proxies.Keys
    && forall n :: n in x.proxies ==>
                     && x.proxies[n].addr == y.proxies[n].addr
                     && (x.proxies[n].started ==> y.proxies[n].started)
  }

  predicate SameTables(s: System, s': System) {
    s.clients.Keys == s'.clients.Keys && forall c :: c in s.clients ==> SameTable(s.clients[c], s'.clients[c])
  }

  /** A client's step touches only its own entry, and there only the flags. */
  lemma OwnTableKept(s: System, c: nat, a: ClientAction)
    requires ClientStep(s, c, a).Some?
    ensures var s' := ClientStep(s, c, a).value;
            && c in s'.clients && s'.clients == s.clients[c := s'.clients[c]]
            && SameTable(s.clients[c], s'.clients[c]) && s'.pipes == s.pipes
  {
    if a.AgentRead? { ReadKeepsTable(s, c, s.clients[c]); }
  }

  lemma ReadKeepsTable(s: System, c: nat, x: Client)
    requires c in s.clients && x == s.clients[c] && AgentReadStep(s, c, x).Some?
    ensures var s' := AgentReadStep(s, c, x).value;
            && c in s'.clients && s'.clients == s.clients[c := s'.clients[c]]
            && SameTable(x, s'.clients[c]) && s'.pipes == s.pipes
  {
  }

  lemma ClientKeepsTables(s: System, c: nat, a: ClientAction)
    requires ClientStep(s, c, a).Some?
    ensures SameTables(s, ClientStep(s, c, a).value)
    ensures ClientStep(s, c, a).value.pipes == s.pipes
  {
    OwnTableKept(s, c, a);
    var s' := ClientStep(s, c, a).value;
    forall d | d in s.clients ensures SameTable(s.clients[d], s'.clients[d]) {
      assert s'.clients[d] == s.clients[c := s'.clients[c]][d];
    }
  }

  lemma StepKeepsTables(s: System, a: SystemAction)
    requires SystemStep(s, a).Some?
    ensures SameTables(s, SystemStep(s, a).value)
  {
    if a.ClientDo? { ClientKeepsTables(s, a.c, a.client); }
  }

  lemma FarSurvives(s: System, s': System, p: Pipe)
    requires FarOk(s.clients, p) && SameTables(s, s')
    ensures FarOk(s'.clients, p)
  {
  }

  lemma StepKeepsFar(s: System, a: SystemAction)
    requires PlaceInv(s) && IdInv(s) && PipeInv(s) && FarInv(s) && SystemStep(s, a).Some?
    ensures FarInv(SystemStep(s, a).value)
  {
    var s' := SystemStep(s, a).value;
    match a
    case ClientDo(c, b) =>
      ClientKeepsTables(s, c, b);
      forall t | t in s'.pipes ensures FarOk(s'.clients, s'.pipes[t]) { FarSurvives(s, s', s.pipes[t]); }
    case ManagerDo(m, b) => ManagerKeepsFar(s, m, b);
    case WorkDo(t, b) => WorkKeepsFar(s, t, b);
    case _ =>
  }

  /** A manager's step leaves the pipes alone, unless a handler writes its request on the pipe it holds. */
  lemma PipesEffect(s: System, m: nat, a: Action)
    requires ManagerStep(s, m, a).Some?
    ensures ManagerStep(s, m, a).value.clients == s.clients
    ensures !(a.HandlerDo? && a.handler == RequestWritten(true)) ==> ManagerStep(s, m, a).value.pipes == s.pipes
  {
  }

  lemma ManagerKeepsFar(s: System, m: nat, a: Action)
    requires PlaceInv(s) && PipeInv(s) && FarInv(s) && ManagerStep(s, m, a).Some?
    ensures FarInv(ManagerStep(s, m, a).value)
  {
    PipesEffect(s, m, a);
    if a.HandlerDo? && a.handler == RequestWritten(true) { RequestKeepsFar(s, m, a.h); }
  }

  lemma RequestKeepsFar(s: System, m: nat, h: nat)
    requires PlaceInv(s) && PipeInv(s) && FarInv(s) && ManagerStep(s, m, HandlerDo(h, RequestWritten(true))).Some?
    ensures FarInv(ManagerStep(s, m, HandlerDo(h, RequestWritten(true))).value)
  {
    var a := HandlerDo(h, RequestWritten(true));
    var t := Moved(s.mgrs[m], a).value.token;
    CleanHere(s, m, a);
    MovedFromOrigin(s.mgrs[m], s.place, a);
    assert PipeAt(s.mgrs, s.links, s.pipes, t, s.place[t]);
    assert FarOk(s.clients, s.pipes[t]);
  }

  lemma WorkKeepsFar(s: System, t: Token, a: WorkAction)
    requires FarInv(s) && WorkStep(s, t, a).Some?
    ensures FarInv(WorkStep(s, t, a).value)
  {
    if t in s.pipes { assert FarOk(s.clients, s.pipes[t]); }
  }

  // ---- Started proxies were confirmed by the server ----

  /** Some manager of this client has put a proxy of this name in its map. */
  ghost predicate Confirmed(s: System, c: nat, n: Name) {
    exists m: nat :: m < |s.links| == |s.mgrs| && s.links[m].owner == c && n in s.mgrs[m].mgr.announced
  }

  ghost predicate FramesConfirmed(x: State, link: Link) {
    forall i :: 0 <= i < |link.toClient| && link.toClient[i].Note? && link.toClient[i].msg.ProxyOk? ==>
                  link.toClient[i].msg.name in x.mgr.announced
  }

  ghost predicate StartedInv(s: System) {
    && |s.links| == |s.mgrs|
    && (forall m: nat :: m < |s.mgrs| ==> FramesConfirmed(s.mgrs[m], s.links[m]))
    && (forall c, n :: c in s.clients && n in s.clients[c].proxies && s.clients[c].proxies[n].started ==>
                         Confirmed(s, c, n))
  }

  /** Managers keep what they announced and links keep their owners. */
  ghost predicate NoneRetracted(s: System, s': System) {
    && |s.links| == |s.mgrs| <= |s'.links| == |s'.mgrs|
    && forall m: nat :: m < |s.mgrs| ==>
                          && s.links[m].owner == s'.links[m].owner
                          && s.mgrs[m].mgr.announced <= s'.mgrs[m].mgr.announced
  }

  lemma ConfirmedStays(s: System, s': System, c: nat, n: Name)
    requires Confirmed(s, c, n) && NoneRetracted(s, s')
    ensures Confirmed(s', c, n)
  {
    var m: nat :| m < |s.links| == |s.mgrs| && s.links[m].owner == c && n in s.mgrs[m].mgr.announced;
    assert s'.links[m].owner == c && n in s'.mgrs[m].mgr.announced;
  }

  lemma AnnouncedGrows(x: State, a: Action)
    requires Step(x, a).Some?
    ensures x.mgr.announced <= Step(x, a).value.mgr.announced
  {
  }

  /** What a step leaves of manager `m` and its link: the manager moves only by its own actions. */
  ghost predicate SiteEffect(x: State, link: Link, x': State, link': Link) {
    && link'.owner == link.owner
    && x.mgr.announced <= x'.mgr.announced
    && (FramesConfirmed(x, link) && MP.AnnounceInv(x) ==> FramesConfirmed(x', link'))
  }

  lemma ClientSiteEffect(s: System, c: nat, a: ClientAction, m: nat)
    requires |s.links| == |s.mgrs| && ClientStep(s, c, a).Some? && m < |s.mgrs|
    ensures var s' := ClientStep(s, c, a).value;
            && |s.mgrs| <= |s'.links| == |s'.mgrs|
            && SiteEffect(s.mgrs[m], s.links[m], s'.mgrs[m], s'.links[m])
  {
  }

  lemma ManagerSiteEffect(s: System, k: nat, a: Action, m: nat)
    requires |s.links| == |s.mgrs| && ManagerStep(s, k, a).Some? && m < |s.mgrs|
    ensures var s' := ManagerStep(s, k, a).value;
            && |s.mgrs| == |s'.links| == |s'.mgrs|
            && SiteEffect(s.mgrs[m], s.links[m], s'.mgrs[m], s'.links[m])
  {
    AnnouncedGrows(s.mgrs[k], a);
    if m == k && FramesConfirmed(s.mgrs[k], s.links[k]) && MP.AnnounceInv(s.mgrs[k]) {
      ManagerFramesConfirmed(s.mgrs[k], s.links[k], a);
    }
  }

  lemma StepSiteEffect(s: System, a: SystemAction, m: nat)
    requires |s.links| == |s.mgrs| && SystemStep(s, a).Some? && m < |s.mgrs|
    ensures |s.mgrs| <= |SystemStep(s, a).value.links| == |SystemStep(s, a).value.mgrs|
    ensures SiteEffect(s.mgrs[m], s.links[m], SystemStep(s, a).value.mgrs[m], SystemStep(s, a).value.links[m])
  {
    match a
    case ManagerDo(k, b) => ManagerSiteEffect(s, k, b, m);
    case ClientDo(c, b) => ClientSiteEffect(s, c, b, m);
    case _ =>
  }

  lemma ManagerFramesConfirmed(x: State, link: Link, a: Action)
    requires MP.AnnounceInv(x) && FramesConfirmed(x, link) && Step(x, a).Some?
    ensures FramesConfirmed(Step(x, a).value, LinkAfter(x, link, a))
  {
    AnnouncedGrows(x, a);
  }

  lemma FreshFrames(s: System, a: SystemAction, m: nat)
    requires |s.links| == |s.mgrs| && SystemStep(s, a).Some? && |s.mgrs| <= m < |SystemStep(s, a).value.mgrs|
    ensures m < |SystemStep(s, a).value.links| && SystemStep(s, a).value.links[m].toClient == []
  {
  }

  /** The only step that starts a proxy is the agent's reading of an "ok" for it. */
  lemma NewlyStarted(s: System, a: ClientAction, c: nat, d: nat, n: Name)
    requires ClientStep(s, d, a).Some?
    requires c in s.clients && n in s.clients[c].proxies && !s.clients[c].proxies[n].started
    requires var s' := ClientStep(s, d, a).value;
             c in s'.clients && n in s'.clients[c].proxies && s'.clients[c].proxies[n].started
    ensures c == d && s.clients[c].agent.Some?
    ensures var m := s.clients[c].agent.value;
            m < |s.links| && s.links[m].toClient != [] && s.links[m].toClient[0].Note?
            && s.links[m].toClient[0].msg.ProxyOk? && s.links[m].toClient[0].msg.name == n
  {
  }

  lemma OkIsConfirmed(s: System, c: nat, m: nat, n: Name)
    requires StartedInv(s) && IdInv(s) && c in s.clients && s.clients[c].agent == Some(m)
    requires m < |s.links| && s.links[m].toClient != [] && s.links[m].toClient[0].Note?
    requires s.links[m].toClient[0].msg.ProxyOk? && s.links[m].toClient[0].msg.name == n
    ensures Confirmed(s, c, n)
  {
    assert ClientIds(s.links, c, s.clients[c]);
    assert FramesConfirmed(s.mgrs[m], s.links[m]);
    assert s.links[m].owner == c && n in s.mgrs[m].mgr.announced;
  }

  lemma OthersKeepClients(s: System, a: SystemAction)
    requires SystemStep(s, a).Some? && !a.ClientDo?
    ensures SystemStep(s, a).value.clients == s.clients
  {
  }

  lemma StartedByClient(s: System, a: ClientAction, c: nat, d: nat, n: Name)
    requires StartedInv(s) && IdInv(s) && ClientStep(s, d, a).Some?
    requires c in s.clients && n in s.clients[c].proxies && !s.clients[c].proxies[n].started
    requires var s' := ClientStep(s, d, a).value;
             c in s'.clients && n in s'.clients[c].proxies && s'.clients[c].proxies[n].started
    ensures Confirmed(s, c, n)
  {
    NewlyStarted(s, a, c, d, n);
    OkIsConfirmed(s, c, s.clients[c].agent.value, n);
  }

  lemma StartedConfirmed(s: System, a: SystemAction, c: nat, n: Name)
    requires StartedInv(s) && IdInv(s) && SystemStep(s, a).Some? && NoneRetracted(s, SystemStep(s, a).value)
    requires var s' := SystemStep(s, a).value;
             c in s'.clients && n in s'.clients[c].proxies && s'.clients[c].proxies[n].started
    ensures Confirmed(SystemStep(s, a).value, c, n)
  {
    StepKeepsTables(s, a);
    assert SameTable(s.clients[c], SystemStep(s, a).value.clients[c]);
    if !s.clients[c].proxies[n].started {
      if !a.ClientDo? { OthersKeepClients(s, a); }
      StartedByClient(s, a.client, c, a.c, n);
    }
    ConfirmedStays(s, SystemStep(s, a).value, c, n);
  }

  lemma StepKeepsStarted(s: System, a: SystemAction)
    requires StartedInv(s) && IdInv(s) && ManagersInv(s) && SystemStep(s, a).Some?
    ensures StartedInv(SystemStep(s, a).value)
  {
    var s' := SystemStep(s, a).value;
    SitesEffect(s, a);
    forall m: nat | m < |s'.mgrs| ensures FramesConfirmed(s'.mgrs[m], s'.links[m]) {
      if m < |s.mgrs| {
        assert MP.Inv(s.mgrs[m]) && FramesConfirmed(s.mgrs[m], s.links[m]);
        StepSiteEffect(s, a, m);
      } else {
        FreshFrames(s, a, m);
      }
    }
    forall c, n | c in s'.clients && n in s'.clients[c].proxies && s'.clients[c].proxies[n].started
      ensures Confirmed(s', c, n)
    {
      StartedConfirmed(s, a, c, n);
    }
  }

  lemma SitesEffect(s: System, a: SystemAction)
    requires |s.links| == |s.mgrs| && SystemStep(s, a).Some?
    ensures NoneRetracted(s, SystemStep(s, a).value)
  {
    LengthsAgree(s, a);
    forall m: nat | m < |s.mgrs|
      ensures s.links[m].owner == SystemStep(s, a).value.links[m].owner
      ensures s.mgrs[m].mgr.announced <= SystemStep(s, a).value.mgrs[m].mgr.announced
    {
      StepSiteEffect(s, a, m);
    }
  }

  lemma LengthsAgree(s: System, a: SystemAction)
    requires |s.links| == |s.mgrs| && SystemStep(s, a).Some?
    ensures |s.mgrs| <= |SystemStep(s, a).value.links| == |SystemStep(s, a).value.mgrs|
  {
    match a
    case ClientDo(c, b) => ClientKeepsSize(s, c, b);
    case WorkDo(t, b) => WorkKeepsSize(s, t, b);
    case _ =>
  }
}
