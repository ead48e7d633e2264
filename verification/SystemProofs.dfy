/**
 Conservation and ownership of pipes over every run of the whole system, without any assumption on ids.
 */
module SystemProofs {
  import opened Options
  import opened ManagerMachine
  import opened ProxySystem
  import opened PlaceProofs
  import MP = ManagerProofs

  // ---- Control connections ----

  lemma LinkBystander(link: Link, m: nat, place: map<Token, Place>, t: Token, p: Place)
    requires LinkAgrees(link, m, place) && !At(place, t, OnWire(m)) && p != OnWire(m)
    ensures LinkAgrees(link, m, place[t := p])
  {
    forall u
      ensures OnLink(link, u) <==> At(place[t := p], u, OnWire(m))
    {
      assert OnLink(link, u) <==> At(place, u, OnWire(m));
    }
  }

  /** Only the request side or the login flag of a link changed. */
  lemma LinkSameFrames(link: Link, link': Link, m: nat, place: map<Token, Place>)
    requires LinkAgrees(link, m, place) && link'.toClient == link.toClient
    ensures LinkAgrees(link', m, place)
  {
    forall u
      ensures OnLink(link', u) <==> At(place, u, OnWire(m))
    {
      assert OnLink(link, u) <==> At(place, u, OnWire(m));
    }
  }

  /** A frame that is not a pipe request was written. */
  lemma LinkOtherFrame(link: Link, link': Link, m: nat, place: map<Token, Place>, f: Frame)
    requires LinkAgrees(link, m, place) && link'.toClient == link.toClient + [f]
    requires !(f.Note? && f.msg.PipeRequest?)
    ensures LinkAgrees(link', m, place)
  {
    forall u
      ensures OnLink(link', u) <==> At(place, u, OnWire(m))
    {
      assert OnLink(link, u) <==> At(place, u, OnWire(m));
    }
  }

  lemma LinkRequestWritten(link: Link, link': Link, m: nat, place: map<Token, Place>, t: Token)
    requires LinkAgrees(link, m, place) && link'.toClient == link.toClient + [Note(PipeRequest(t))]
    requires !At(place, t, OnWire(m))
    ensures LinkAgrees(link', m, place[t := OnWire(m)])
  {
    assert !OnLink(link, t);
    forall u
      ensures OnLink(link', u) <==> At(place[t := OnWire(m)], u, OnWire(m))
    {
      assert OnLink(link, u) <==> At(place, u, OnWire(m));
    }
  }

  lemma LinkRequestRead(link: Link, link': Link, m: nat, place: map<Token, Place>, t: Token, p: Place)
    requires LinkAgrees(link, m, place) && link.toClient != [] && link'.toClient == link.toClient[1..]
    requires link.toClient[0] == Note(PipeRequest(t)) && p != OnWire(m)
    ensures At(place, t, OnWire(m)) && LinkAgrees(link', m, place[t := p])
  {
    assert link.toClient == [link.toClient[0]] + link.toClient[1..];
    assert OnLink(link, t);
    forall u
      ensures OnLink(link', u) <==> At(place[t := p], u, OnWire(m))
    {
      assert OnLink(link, u) <==> At(place, u, OnWire(m));
    }
  }

  lemma LinkOtherRead(link: Link, link': Link, m: nat, place: map<Token, Place>)
    requires LinkAgrees(link, m, place) && link.toClient != [] && link'.toClient == link.toClient[1..]
    requires !(link.toClient[0].Note? && link.toClient[0].msg.PipeRequest?)
    ensures LinkAgrees(link', m, place)
  {
    assert link.toClient == [link.toClient[0]] + link.toClient[1..];
    forall u
      ensures OnLink(link', u) <==> At(place, u, OnWire(m))
    {
      assert OnLink(link, u) <==> At(place, u, OnWire(m));
    }
  }

  // ---- The invariant ----

  predicate IsIssued(mgrs: seq<State>, t: Token) { t.mgr < |mgrs| && t.seqno < mgrs[t.mgr].Issued() }

  predicate IsTaken(p: Place, m: nat) { (p.Held? || p.Carrying? || p.Discarded?) && p.m == m }

  function TakenAt(place: map<Token, Place>, m: nat): set<Token> { set t | t in place && IsTaken(place[t], m) }

  /** The manager a place mentions exists. */
  predicate Exists(p: Place, n: nat) {
    p.InQueue? || p.BeingWritten? || p.OnWire? || p.Pushing? || p.Pooled? || p.Held? || p.Carrying? || p.Discarded? ==>
      p.m < n
  }

  /** One manager and its control connection agree with the places. */
  ghost predicate Site(x: State, link: Link, m: nat, place: map<Token, Place>) {
    && x.me == m
    && ManagerAgrees(x, place)
    && LinkAgrees(link, m, place)
    && |TakenAt(place, m)| == x.ledger.popped
  }

  ghost predicate SitesInv(mgrs: seq<State>, links: seq<Link>, place: map<Token, Place>)
    requires |links| == |mgrs|
  {
    forall m: nat :: m < |mgrs| ==> Site(mgrs[m], links[m], m, place)
  }

  ghost predicate TokensInv(mgrs: seq<State>, place: map<Token, Place>) {
    && (forall t :: t in place <==> IsIssued(mgrs, t))
    && (forall t :: t in place ==> Exists(place[t], |mgrs|))
  }

  ghost predicate PlaceInv(s: System) {
    && |s.links| == |s.mgrs|
    && SitesInv(s.mgrs, s.links, s.place)
    && TokensInv(s.mgrs, s.place)
  }

  /** Every manager of the system satisfies the invariant of the single-manager machine. */
  ghost predicate ManagersInv(s: System) { forall m: nat :: m < |s.mgrs| ==> MP.Inv(s.mgrs[m]) }

  // ---- A manager's step ----

  lemma IssuedEffect(x: State, a: Action)
    requires Step(x, a).Some?
    ensures if Moved(x, a).Some? && Origin(x, a).None? then
              Step(x, a).value.Issued() == x.Issued() + 1 && Moved(x, a).value.token == Token(x.me, x.Issued())
            else Step(x, a).value.Issued() == x.Issued()
  {
  }

  lemma PoppedEffect(x: State, a: Action)
    requires Step(x, a).Some?
    ensures Step(x, a).value.ledger.popped
            == x.ledger.popped + if a.HandlerDo? && a.handler.Pop? && x.mgr.pool.buf != [] then 1 else 0
  {
  }

  lemma TakenUnchanged(place: map<Token, Place>, m: nat, t: Token, p: Place)
    requires IsTaken(p, m) == (t in place && IsTaken(place[t], m))
    ensures TakenAt(place[t := p], m) == TakenAt(place, m)
  {
  }

  lemma TakenGrows(place: map<Token, Place>, m: nat, t: Token, p: Place)
    requires IsTaken(p, m) && (t in place ==> !IsTaken(place[t], m))
    ensures |TakenAt(place[t := p], m)| == |TakenAt(place, m)| + 1
  {
    assert TakenAt(place[t := p], m) == TakenAt(place, m) + {t};
  }

  lemma TakenKept(x: State, place: map<Token, Place>, a: Action)
    requires ManagerAgrees(x, place) && Clean(x, place, a) && Step(x, a).Some?
    requires |TakenAt(place, x.me)| == x.ledger.popped
    ensures |TakenAt(Relocate(place, Moved(x, a)), x.me)| == Step(x, a).value.ledger.popped
  {
    PoppedEffect(x, a);
    if Moved(x, a).Some? {
      MovedFromOrigin(x, place, a);
      var mv := Moved(x, a).value;
      if a.HandlerDo? && a.handler.Pop? {
        TakenGrows(place, x.me, mv.token, mv.place);
      } else {
        TakenUnchanged(place, x.me, mv.token, mv.place);
      }
    }
  }

  lemma OwnLinkKept(x: State, link: Link, place: map<Token, Place>, a: Action)
    requires ManagerAgrees(x, place) && Clean(x, place, a) && Step(x, a).Some? && LinkAgrees(link, x.me, place)
    ensures LinkAgrees(LinkAfter(x, link, a), x.me, Relocate(place, Moved(x, a)))
  {
    if Moved(x, a).Some? { MovedFromOrigin(x, place, a); }
    var link' := LinkAfter(x, link, a);
    if a == SendDo(SendWrite(true)) {
      if x.send.msg.PipeRequest? {
        LinkRequestWritten(link, link', x.me, place, x.send.msg.token);
      } else {
        LinkOtherFrame(link, link', x.me, place, Note(x.send.msg));
      }
    } else {
      LinkSameFrames(link, link', x.me, place);
      if Moved(x, a).Some? { LinkBystander(link', x.me, place, Moved(x, a).value.token, Moved(x, a).value.place); }
    }
  }

  /** Where a manager's step puts a token is in that manager, on its link, or nowhere. */
  lemma MovedWithin(x: State, place: map<Token, Place>, a: Action, m: nat)
    requires ManagerAgrees(x, place) && Clean(x, place, a) && Step(x, a).Some? && Moved(x, a).Some? && m != x.me
    ensures var mv := Moved(x, a).value;
            && (mv.token in place ==>
                  && Inside(place[mv.token]) != Some(m)
                  && place[mv.token] != OnWire(m)
                  && !IsTaken(place[mv.token], m))
            && Inside(mv.place) != Some(m) && mv.place != OnWire(m) && !IsTaken(mv.place, m)
  {
    MovedFromOrigin(x, place, a);
  }

  lemma OwnSiteKept(x: State, link: Link, place: map<Token, Place>, a: Action)
    requires Site(x, link, x.me, place) && Clean(x, place, a) && Step(x, a).Some?
    ensures Site(Step(x, a).value, LinkAfter(x, link, a), x.me, Relocate(place, Moved(x, a)))
  {
    ManagerStepAgrees(x, place, a);
    OwnLinkKept(x, link, place, a);
    TakenKept(x, place, a);
    RepliesKept(x, a);
  }

  lemma OtherSiteKept(x: State, place: map<Token, Place>, a: Action, y: State, link: Link)
    requires ManagerAgrees(x, place) && Clean(x, place, a) && Step(x, a).Some?
    requires Site(y, link, y.me, place) && y.me != x.me
    ensures Site(y, link, y.me, Relocate(place, Moved(x, a)))
  {
    if Moved(x, a).Some? {
      var mv := Moved(x, a).value;
      MovedWithin(x, place, a, y.me);
      BystanderAgrees(y, place, mv.token, mv.place);
      LinkBystander(link, y.me, place, mv.token, mv.place);
      TakenUnchanged(place, y.me, mv.token, mv.place);
    }
  }

  lemma CleanHere(s: System, m: nat, a: Action)
    requires PlaceInv(s) && m < |s.mgrs| && Offered(s, m, a)
    ensures Site(s.mgrs[m], s.links[m], m, s.place) && Clean(s.mgrs[m], s.place, a)
  {
    assert Site(s.mgrs[m], s.links[m], m, s.place);
    assert !IsIssued(s.mgrs, Token(m, s.mgrs[m].Issued()));
  }

  lemma SitesKept(s: System, m: nat, a: Action)
    requires PlaceInv(s) && m < |s.mgrs| && Offered(s, m, a) && Step(s.mgrs[m], a).Some?
    ensures SitesInv(s.mgrs[m := Step(s.mgrs[m], a).value], s.links[m := LinkAfter(s.mgrs[m], s.links[m], a)],
                     Relocate(s.place, Moved(s.mgrs[m], a)))
  {
    var x := s.mgrs[m];
    CleanHere(s, m, a);
    OwnSiteKept(x, s.links[m], s.place, a);
    forall k: nat | k < |s.mgrs| && k != m
      ensures Site(s.mgrs[k], s.links[k], k, Relocate(s.place, Moved(x, a)))
    {
      assert Site(s.mgrs[k], s.links[k], k, s.place);
      OtherSiteKept(x, s.place, a, s.mgrs[k], s.links[k]);
    }
  }

  /** One manager may have issued one more token; every other token is known already. */
  lemma TokensMove(mgrs: seq<State>, m: nat, x: State, place: map<Token, Place>, t: Token, p: Place)
    requires TokensInv(mgrs, place) && m < |mgrs| && Exists(p, |mgrs|)
    requires if t in place then x.Issued() == mgrs[m].Issued()
             else t == Token(m, mgrs[m].Issued()) && x.Issued() == mgrs[m].Issued() + 1
    ensures TokensInv(mgrs[m := x], place[t := p])
  {
    var place' := place[t := p];
    forall u ensures u in place' <==> IsIssued(mgrs[m := x], u) {
      assert u in place <==> IsIssued(mgrs, u);
    }
  }

  lemma TokensStay(mgrs: seq<State>, m: nat, x: State, place: map<Token, Place>)
    requires TokensInv(mgrs, place) && m < |mgrs| && x.Issued() == mgrs[m].Issued()
    ensures TokensInv(mgrs[m := x], place)
  {
    forall u ensures u in place <==> IsIssued(mgrs[m := x], u) {
      assert u in place <==> IsIssued(mgrs, u);
    }
  }

  lemma MovedExists(x: State, a: Action, n: nat)
    requires Step(x, a).Some? && Moved(x, a).Some? && x.me < n
    ensures Exists(Moved(x, a).value.place, n)
  {
  }

  lemma TokensKept(s: System, m: nat, a: Action)
    requires PlaceInv(s) && m < |s.mgrs| && Offered(s, m, a) && Step(s.mgrs[m], a).Some?
    ensures TokensInv(s.mgrs[m := Step(s.mgrs[m], a).value], Relocate(s.place, Moved(s.mgrs[m], a)))
  {
    var x := s.mgrs[m];
    CleanHere(s, m, a);
    IssuedEffect(x, a);
    if Moved(x, a).Some? {
      MovedFromOrigin(x, s.place, a);
      MovedExists(x, a, |s.mgrs|);
      TokensMove(s.mgrs, m, Step(x, a).value, s.place, Moved(x, a).value.token, Moved(x, a).value.place);
    } else {
      TokensStay(s.mgrs, m, Step(x, a).value, s.place);
    }
  }

  lemma ManagerStepKeepsPlaces(s: System, m: nat, a: Action)
    requires PlaceInv(s) && ManagerStep(s, m, a).Some?
    ensures PlaceInv(ManagerStep(s, m, a).value)
  {
    SitesKept(s, m, a);
    TokensKept(s, m, a);
  }

  // ---- The other steps ----

  lemma FreshSite(c: nat, id: Id, m: nat, requested: int, place: map<Token, Place>)
    requires forall t :: t in place ==> Exists(place[t], m)
    ensures Site(Init(m, requested), Link(c, id, Created, [], []), m, place)
  {
    assert TakenAt(place, m) == {};
  }

  lemma LoginKeepsPlaces(s: System, c: nat, x: Client, id: Id, requested: int)
    requires PlaceInv(s) && LoginStep(s, c, x, id, requested).Some?
    ensures PlaceInv(LoginStep(s, c, x, id, requested).value)
  {
    var s' := LoginStep(s, c, x, id, requested).value;
    FreshSite(c, id, |s.mgrs|, requested, s.place);
    forall k: nat | k < |s.mgrs| ensures Site(s'.mgrs[k], s'.links[k], k, s.place) {
      assert Site(s.mgrs[k], s.links[k], k, s.place);
    }
    forall t ensures t in s'.place <==> IsIssued(s'.mgrs, t) {
      assert t in s.place <==> IsIssued(s.mgrs, t);
    }
  }

  /** A manager and its link do not notice a token that moves elsewhere. */
  lemma BystanderSite(x: State, link: Link, m: nat, place: map<Token, Place>, t: Token, p: Place)
    requires Site(x, link, m, place) && t in place
    requires Inside(place[t]) != Some(m) && Inside(p) != Some(m)
    requires place[t] != OnWire(m) && p != OnWire(m)
    requires !IsTaken(place[t], m) && !IsTaken(p, m)
    ensures Site(x, link, m, place[t := p])
  {
    BystanderAgrees(x, place, t, p);
    LinkBystander(link, m, place, t, p);
    TakenUnchanged(place, m, t, p);
  }

  lemma MoveKeepsTokens(mgrs: seq<State>, place: map<Token, Place>, t: Token, p: Place)
    requires TokensInv(mgrs, place) && t in place && (p.InTransit? || p.Rejected? || p.Failed? || p.AtClient?)
    ensures TokensInv(mgrs, place[t := p])
  {
    forall u ensures u in place[t := p] <==> IsIssued(mgrs, u) {
      assert u in place <==> IsIssued(mgrs, u);
    }
  }

  /** A token outside all managers and links moves to another such place. */
  lemma OutsideMoveKeepsPlaces(s: System, t: Token, p: Place)
    requires PlaceInv(s) && t in s.place
    requires s.place[t].AtClient? || s.place[t].InTransit?
    requires p.InTransit? || p.Rejected? || p.Failed?
    ensures PlaceInv(s.(place := s.place[t := p]))
  {
    forall k: nat | k < |s.mgrs| ensures Site(s.mgrs[k], s.links[k], k, s.place[t := p]) {
      assert Site(s.mgrs[k], s.links[k], k, s.place);
      BystanderSite(s.mgrs[k], s.links[k], k, s.place, t, p);
    }
    MoveKeepsTokens(s.mgrs, s.place, t, p);
  }

  /** A link whose frames to the client agree as before may replace the old one. */
  lemma LinkSwapKeepsPlaces(s: System, m: nat, link: Link)
    requires PlaceInv(s) && m < |s.links| && LinkAgrees(link, m, s.place)
    ensures PlaceInv(s.(links := s.links[m := link]))
  {
    forall k: nat | k < |s.mgrs| ensures Site(s.mgrs[k], s.links[m := link][k], k, s.place) {
      assert Site(s.mgrs[k], s.links[k], k, s.place);
    }
  }

  /** A pipe request at the head of a control connection is on its wire. */
  lemma HeadIsOnWire(s: System, m: nat, t: Token)
    requires PlaceInv(s) && m < |s.links| && s.links[m].toClient != [] && s.links[m].toClient[0] == Note(PipeRequest(t))
    ensures At(s.place, t, OnWire(m))
  {
    assert Site(s.mgrs[m], s.links[m], m, s.place);
    assert OnLink(s.links[m], t);
  }

  lemma RequestReadKeepsPlaces(s: System, m: nat, t: Token, c: nat)
    requires PlaceInv(s) && m < |s.links| && s.links[m].toClient != [] && s.links[m].toClient[0] == Note(PipeRequest(t))
    ensures PlaceInv(s.(links := DropFrame(s.links, m), place := s.place[t := AtClient(c)]))
  {
    var links' := DropFrame(s.links, m);
    assert Site(s.mgrs[m], s.links[m], m, s.place);
    LinkRequestRead(s.links[m], links'[m], m, s.place, t, AtClient(c));
    forall k: nat | k < |s.mgrs| ensures Site(s.mgrs[k], links'[k], k, s.place[t := AtClient(c)]) {
      assert Site(s.mgrs[k], s.links[k], k, s.place);
      if k != m {
        BystanderSite(s.mgrs[k], s.links[k], k, s.place, t, AtClient(c));
      } else {
        BystanderAgrees(s.mgrs[k], s.place, t, AtClient(c));
        TakenUnchanged(s.place, k, t, AtClient(c));
      }
    }
    MoveKeepsTokens(s.mgrs, s.place, t, AtClient(c));
  }

  lemma InsertKeepsPlaces(s: System, m: nat)
    requires PlaceInv(s) && InsertStep(s, m).Some?
    ensures PlaceInv(InsertStep(s, m).value)
  {
    assert Site(s.mgrs[m], s.links[m], m, s.place);
    var link := s.links[m].(login := Listed);
    LinkSameFrames(s.links[m], link, m, s.place);
    LinkSwapKeepsPlaces(s, m, link);
  }

  lemma AnswerKeepsPlaces(s: System, m: nat)
    requires PlaceInv(s) && AnswerStep(s, m).Some?
    ensures PlaceInv(AnswerStep(s, m).value)
  {
    assert Site(s.mgrs[m], s.links[m], m, s.place);
    var link := AnswerStep(s, m).value.links[m];
    LinkOtherFrame(s.links[m], link, m, s.place, LoginOk(s.links[m].id));
    LinkSwapKeepsPlaces(s, m, link);
  }

  lemma ClientKeepsPlaces(s: System, c: nat, a: ClientAction)
    requires PlaceInv(s) && ClientStep(s, c, a).Some?
    ensures PlaceInv(ClientStep(s, c, a).value)
  {
    var x := s.clients[c];
    match a
    case Login(id, requested) => LoginKeepsPlaces(s, c, x, id, requested);
    case LoginRead =>
      var m := x.pending.value;
      assert Site(s.mgrs[m], s.links[m], m, s.place);
      if s.links[m].toClient[0].LoginOk? {
        LinkOtherRead(s.links[m], DropFrame(s.links, m)[m], m, s.place);
        LinkSwapKeepsPlaces(s, m, DropFrame(s.links, m)[m]);
      }
    case AgentSend(msg) =>
      var m := x.agent.value;
      assert Site(s.mgrs[m], s.links[m], m, s.place);
      LinkSameFrames(s.links[m], ClientStep(s, c, a).value.links[m], m, s.place);
      LinkSwapKeepsPlaces(s, m, ClientStep(s, c, a).value.links[m]);
    case AgentRead =>
      var m := x.agent.value;
      assert Site(s.mgrs[m], s.links[m], m, s.place);
      var f := s.links[m].toClient[0];
      if f.Note? && f.msg.PipeRequest? {
        RequestReadKeepsPlaces(s, m, f.msg.token, c);
      } else {
        LinkOtherRead(s.links[m], DropFrame(s.links, m)[m], m, s.place);
        LinkSwapKeepsPlaces(s, m, DropFrame(s.links, m)[m]);
      }
    case _ =>
  }

  lemma WorkKeepsPlaces(s: System, t: Token, a: WorkAction)
    requires PlaceInv(s) && WorkStep(s, t, a).Some?
    ensures PlaceInv(WorkStep(s, t, a).value)
  {
    match a
    case WorkOpen => OutsideMoveKeepsPlaces(s, t, InTransit);
    case WorkFail => OutsideMoveKeepsPlaces(s, t, Failed);
    case StreamDrop => OutsideMoveKeepsPlaces(s, t, Rejected);
    case _ =>
  }

  /** A client adds a manager by logging in and touches none otherwise. */
  lemma ClientKeepsSize(s: System, c: nat, a: ClientAction)
    requires ClientStep(s, c, a).Some?
    ensures var s' := ClientStep(s, c, a).value;
            if a.Login? then s'.mgrs == s.mgrs + [Init(|s.mgrs|, a.requested)] && |s'.links| == |s.links| + 1
            else s'.mgrs == s.mgrs && |s'.links| == |s.links|
  {
  }

  lemma WorkKeepsSize(s: System, t: Token, a: WorkAction)
    requires WorkStep(s, t, a).Some?
    ensures WorkStep(s, t, a).value.mgrs == s.mgrs && WorkStep(s, t, a).value.links == s.links
  {
  }

  lemma StepKeepsManagers(s: System, a: SystemAction)
    requires ManagersInv(s) && SystemStep(s, a).Some?
    ensures ManagersInv(SystemStep(s, a).value)
  {
    match a
    case ManagerDo(m, b) => MP.StepKeepsInv(s.mgrs[m], b);
    case LoginInsert(_) =>
    case LoginAnswer(_) =>
    case ClientDo(c, b) =>
      ClientKeepsSize(s, c, b);
      if b.Login? { MP.InitInv(|s.mgrs|, b.requested); }
    case WorkDo(t, b) => WorkKeepsSize(s, t, b);
  }

  lemma StepKeepsPlaces(s: System, a: SystemAction)
    requires PlaceInv(s) && SystemStep(s, a).Some?
    ensures PlaceInv(SystemStep(s, a).value)
  {
    match a
    case ManagerDo(m, b) => ManagerStepKeepsPlaces(s, m, b);
    case LoginInsert(m) => InsertKeepsPlaces(s, m);
    case LoginAnswer(m) => AnswerKeepsPlaces(s, m);
    case ClientDo(c, b) => ClientKeepsPlaces(s, c, b);
    case WorkDo(t, b) => WorkKeepsPlaces(s, t, b);
  }

  lemma {:induction false} RunKeepsPlaces(s: System, run: seq<SystemAction>)
    requires PlaceInv(s) && ManagersInv(s) && SystemExec(s, run).Some?
    ensures PlaceInv(SystemExec(s, run).value) && ManagersInv(SystemExec(s, run).value)
    decreases |run|
  {
    if run != [] {
      StepKeepsPlaces(s, run[0]);
      StepKeepsManagers(s, run[0]);
      RunKeepsPlaces(SystemStep(s, run[0]).value, run[1..]);
    }
  }
}
