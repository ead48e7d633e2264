/**
 The life of a pipe over a whole run: its request only ever moves forward, and the pipe is stored in at
 most one pool, once, popped by at most one handler, once, and then joined or closed by that handler.
 */
module Lifecycle {
  import opened Options
  import opened ManagerMachine
  import opened ProxySystem
  import opened PlaceProofs
  import opened SystemProofs
  import opened Conservation

  // ---- Places only move forward ----

  function Rank(p: Place): nat {
    match p
    case InQueue(_) => 0
    case BeingWritten(_) => 1
    case OnWire(_) => 2
    case AtClient(_) => 3
    case InTransit => 4
    case Pushing(_) => 5
    case Pooled(_) => 6
    case Held(_, _) => 7
    case _ => 8
  }

  /** Places at manager `m` that follow its pool. */
  predicate AfterPool(p: Place, m: nat) { (p.Held? || p.Carrying? || p.Discarded?) && p.m == m }

  /** A request at `p` may later be at `q`. */
  predicate Leads(p: Place, q: Place) {
    p == q ||
    (Rank(p) < Rank(q) &&
     match p
     case InQueue(m) => q.BeingWritten? || q.OnWire? ==> q.m == m
     case BeingWritten(m) => q.OnWire? ==> q.m == m
     case Pushing(m) => q == Pooled(m) || AfterPool(q, m) || q.Rejected? || q.Abandoned?
     case Pooled(m) => AfterPool(q, m)
     case Held(m, h) => q == Carrying(m, h) || q == Discarded(m)
     case _ => true)
  }

  lemma LeadsOn(p: Place, q: Place, r: Place)
    requires Leads(p, q) && Leads(q, r)
    ensures Leads(p, r)
  {
  }

  lemma OriginLeads(x: State, a: Action)
    requires Step(x, a).Some? && Moved(x, a).Some? && Origin(x, a).Some?
    ensures Leads(Origin(x, a).value, Moved(x, a).value.place)
  {
  }

  lemma ManagerStepLeads(s: System, m: nat, a: Action, t: Token)
    requires PlaceInv(s) && ManagerStep(s, m, a).Some? && t in s.place
    ensures var s' := ManagerStep(s, m, a).value; t in s'.place && Leads(s.place[t], s'.place[t])
  {
    if Moved(s.mgrs[m], a).Some? && Moved(s.mgrs[m], a).value.token == t {
      CleanHere(s, m, a);
      MovedFromOrigin(s.mgrs[m], s.place, a);
      OriginLeads(s.mgrs[m], a);
    }
  }

  lemma ClientStepLeads(s: System, c: nat, a: ClientAction, t: Token)
    requires PlaceInv(s) && ClientStep(s, c, a).Some? && t in s.place
    ensures var s' := ClientStep(s, c, a).value; t in s'.place && Leads(s.place[t], s'.place[t])
  {
    if a.AgentRead? {
      var x := s.clients[c];
      if HasRequest(s, x, t) { HeadIsOnWire(s, x.agent.value, t); }
      ReadStepLeads(s, c, x, t);
    }
  }

  /** The next frame that this client's agent reads is the request `t`. */
  predicate HasRequest(s: System, x: Client, t: Token) {
    && x.agent.Some? && x.agent.value < |s.links| && s.links[x.agent.value].toClient != []
    && s.links[x.agent.value].toClient[0] == Note(PipeRequest(t))
  }

  lemma ReadStepLeads(s: System, c: nat, x: Client, t: Token)
    requires AgentReadStep(s, c, x).Some? && t in s.place
    requires HasRequest(s, x, t) ==> At(s.place, t, OnWire(x.agent.value))
    ensures var s' := AgentReadStep(s, c, x).value; t in s'.place && Leads(s.place[t], s'.place[t])
  {
  }

  lemma WorkStepLeads(s: System, u: Token, a: WorkAction, t: Token)
    requires WorkStep(s, u, a).Some? && t in s.place
    ensures var s' := WorkStep(s, u, a).value; t in s'.place && Leads(s.place[t], s'.place[t])
  {
  }

  lemma StepLeads(s: System, a: SystemAction, t: Token)
    requires PlaceInv(s) && SystemStep(s, a).Some? && t in s.place
    ensures var s' := SystemStep(s, a).value; t in s'.place && Leads(s.place[t], s'.place[t])
  {
    match a
    case ManagerDo(m, b) => ManagerStepLeads(s, m, b, t);
    case LoginInsert(_) =>
    case LoginAnswer(_) =>
    case ClientDo(c, b) => ClientStepLeads(s, c, b, t);
    case WorkDo(u, b) => WorkStepLeads(s, u, b, t);
  }

  lemma {:induction false} RunLeads(s: System, run: seq<SystemAction>, t: Token)
    requires PlaceInv(s) && SystemExec(s, run).Some? && t in s.place
    ensures var s' := SystemExec(s, run).value; t in s'.place && Leads(s.place[t], s'.place[t])
    decreases |run|
  {
    if run != [] {
      var s1 := SystemStep(s, run[0]).value;
      StepLeads(s, run[0], t);
      StepKeepsPlaces(s, run[0]);
      RunLeads(s1, run[1..], t);
      LeadsOn(s.place[t], s1.place[t], SystemExec(s, run).value.place[t]);
    }
  }

  /**
   Between any two states of a run a request stays where it is or moves strictly forward; from a pool
   it goes only to a handler of the same manager, and from a handler only into its join or away.
   */
  lemma PlacesMoveForward(
    config: map<nat, map<Name, Address>>, run: seq<SystemAction>, s: System,
    more: seq<SystemAction>, s': System, t: Token)
    requires SystemExec(Start(config), run) == Some(s) && SystemExec(s, more) == Some(s') && t in s.place
    ensures t in s'.place && Leads(s.place[t], s'.place[t])
  {
    ReachableInv(config, run, s);
    RunLeads(s, more, t);
  }

  // ---- What is done with a pipe ----

  datatype Deed = Stored(m: nat) | Popped(m: nat, h: nat) | Ended(m: nat, h: nat, joined: bool)

  /** What a manager's step does with the pipe: its pool stores it, a handler pops it, or joins or closes it. */
  function DeedIn(x: State, a: Action, t: Token): seq<Deed> {
    match a
    case PushDo(p, PushPut) => if p == t && PoolAccepts(x.mgr) then [Stored(x.me)] else []
    case HandlerDo(h, Pop) => if x.mgr.pool.buf != [] && x.mgr.pool.buf[0] == t then [Popped(x.me, h)] else []
    case HandlerDo(h, RequestWritten(ok)) => if HandlerAt(x, h, WritingRequest(t)) then [Ended(x.me, h, ok)] else []
    case _ => []
  }

  function DeedOf(s: System, a: SystemAction, t: Token): seq<Deed> {
    if a.ManagerDo? && a.m < |s.mgrs| then DeedIn(s.mgrs[a.m], a.act, t) else []
  }

  function Deeds(s: System, run: seq<SystemAction>, t: Token): seq<Deed>
    requires SystemExec(s, run).Some?
    decreases |run|
  {
    if run == [] then [] else DeedOf(s, run[0], t) + Deeds(SystemStep(s, run[0]).value, run[1..], t)
  }

  datatype Phase = Early | In(m: nat) | With(m: nat, h: nat) | Over

  function PhaseOf(place: map<Token, Place>, t: Token): Phase {
    if t !in place || Rank(place[t]) < 6 then Early
    else
      match place[t]
      case Pooled(m) => In(m)
      case Held(m, h) => With(m, h)
      case _ => Over
  }

  /** The phase after a deed that is possible in this phase. */
  function AfterDeed(p: Phase, d: Deed): Option<Phase> {
    match d
    case Stored(m) => if p == Early then Some(In(m)) else None
    case Popped(m, h) => if p == In(m) then Some(With(m, h)) else None
    case Ended(m, h, _) => if p == With(m, h) then Some(Over) else None
  }

  /** The deeds can follow one another, starting in this phase. */
  predicate Possible(p: Phase, ds: seq<Deed>)
    decreases |ds|
  {
    ds == [] || (AfterDeed(p, ds[0]).Some? && Possible(AfterDeed(p, ds[0]).value, ds[1..]))
  }

  /** What a step with these deeds may do to the phase. */
  predicate PhaseChanges(p: Phase, ds: seq<Deed>, p': Phase) {
    if ds == [] then p' == p || (p == Early && p' == Over) else |ds| == 1 && AfterDeed(p, ds[0]) == Some(p')
  }

  lemma DeedMoves(x: State, a: Action, t: Token)
    requires Step(x, a).Some? && DeedIn(x, a, t) != []
    ensures Moved(x, a).Some? && Moved(x, a).value.token == t
  {
  }

  /** A step that moves the pipe does the deed that fits where it was. */
  lemma MovedPhase(x: State, a: Action, place: map<Token, Place>, t: Token)
    requires Step(x, a).Some? && Moved(x, a).Some? && Moved(x, a).value.token == t
    requires if Origin(x, a).Some? then At(place, t, Origin(x, a).value) else t !in place
    ensures PhaseChanges(PhaseOf(place, t), DeedIn(x, a, t), PhaseOf(Relocate(place, Moved(x, a)), t))
  {
  }

  lemma ManagerPhase(s: System, m: nat, a: Action, t: Token)
    requires PlaceInv(s) && ManagerStep(s, m, a).Some?
    ensures var place' := ManagerStep(s, m, a).value.place;
            PhaseChanges(PhaseOf(s.place, t), DeedOf(s, ManagerDo(m, a), t), PhaseOf(place', t))
  {
    var x := s.mgrs[m];
    CleanHere(s, m, a);
    if Moved(x, a).Some? && Moved(x, a).value.token == t {
      MovedFromOrigin(x, s.place, a);
      MovedPhase(x, a, s.place, t);
    } else if DeedIn(x, a, t) != [] {
      DeedMoves(x, a, t);
    }
  }

  lemma WorkPhase(s: System, u: Token, a: WorkAction, t: Token)
    requires WorkStep(s, u, a).Some?
    ensures PhaseChanges(PhaseOf(s.place, t), [], PhaseOf(WorkStep(s, u, a).value.place, t))
  {
  }

  lemma StepPhase(s: System, a: SystemAction, t: Token)
    requires PlaceInv(s) && SystemStep(s, a).Some?
    ensures PhaseChanges(PhaseOf(s.place, t), DeedOf(s, a, t), PhaseOf(SystemStep(s, a).value.place, t))
  {
    match a
    case ManagerDo(m, b) => ManagerPhase(s, m, b, t);
    case LoginInsert(_) =>
    case LoginAnswer(_) =>
    case ClientDo(c, b) => ClientPhase(s, c, b, t);
    case WorkDo(u, b) => WorkPhase(s, u, b, t);
  }

  lemma ClientPhase(s: System, c: nat, a: ClientAction, t: Token)
    requires PlaceInv(s) && ClientStep(s, c, a).Some?
    ensures PhaseOf(ClientStep(s, c, a).value.place, t) == PhaseOf(s.place, t)
  {
    if a.AgentRead? {
      var x := s.clients[c];
      if HasRequest(s, x, t) { HeadIsOnWire(s, x.agent.value, t); }
      ReadPhase(s, c, x, t);
    }
  }

  lemma ReadPhase(s: System, c: nat, x: Client, t: Token)
    requires AgentReadStep(s, c, x).Some?
    requires HasRequest(s, x, t) ==> At(s.place, t, OnWire(x.agent.value))
    ensures PhaseOf(AgentReadStep(s, c, x).value.place, t) == PhaseOf(s.place, t)
  {
  }

  lemma {:induction false} DeedsArePossible(s: System, run: seq<SystemAction>, t: Token)
    requires PlaceInv(s) && SystemExec(s, run).Some?
    ensures Possible(PhaseOf(s.place, t), Deeds(s, run, t))
    decreases |run|
  {
    if run != [] {
      var s1, ds := SystemStep(s, run[0]).value, DeedOf(s, run[0], t);
      StepPhase(s, run[0], t);
      StepKeepsPlaces(s, run[0]);
      DeedsArePossible(s1, run[1..], t);
      PossibleFrom(PhaseOf(s.place, t), ds, PhaseOf(s1.place, t), Deeds(s1, run[1..], t));
    }
  }

  lemma PossibleFrom(p: Phase, ds: seq<Deed>, p': Phase, rest: seq<Deed>)
    requires PhaseChanges(p, ds, p') && Possible(p', rest)
    ensures Possible(p, ds + rest)
  {
    if ds == [] {
      assert ds + rest == rest;
    } else {
      assert (ds + rest)[0] == ds[0] && (ds + rest)[1..] == rest;
    }
  }

  /** At most three deeds, in order, at one manager and by one handler. */
  predicate InOrder(ds: seq<Deed>) {
    && |ds| <= 3
    && (|ds| >= 1 ==> ds[0].Stored?)
    && (|ds| >= 2 ==> ds[1].Popped? && ds[1].m == ds[0].m)
    && (|ds| >= 3 ==> ds[2].Ended? && ds[2].m == ds[0].m && ds[2].h == ds[1].h)
  }

  lemma PossibleShape(ds: seq<Deed>)
    requires Possible(Early, ds)
    ensures InOrder(ds)
  {
    if |ds| >= 2 {
      var rest := ds[1..];
      assert rest[0] == ds[1] && Possible(In(ds[0].m), rest);
      if |ds| >= 3 {
        var more := rest[1..];
        assert more[0] == ds[2] && Possible(With(ds[0].m, ds[1].h), more);
        assert Possible(Over, more[1..]);
        assert |more[1..]| == |ds| - 3;
      }
    }
  }

  /**
   Over any run from the start, a pipe is stored at most once, in one pool; popped at most once, by one
   handler of the manager of that pool; and then joined or closed at most once, by that handler.
   */
  lemma PipesAreUsedOnce(config: map<nat, map<Name, Address>>, run: seq<SystemAction>, t: Token)
    requires SystemExec(Start(config), run).Some?
    ensures InOrder(Deeds(Start(config), run, t))
  {
    StartInv(config);
    DeedsArePossible(Start(config), run, t);
    PossibleShape(Deeds(Start(config), run, t));
  }
}
