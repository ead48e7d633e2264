/** Conservation of pipe requests and ownership of pipes, over every run from every configuration. */
module Conservation {
  import opened Basics
  import opened Options
  import opened ManagerMachine
  import opened ProxySystem
  import opened PlaceProofs
  import opened SystemProofs
  import MP = ManagerProofs

  lemma StartInv(config: map<nat, map<Name, Address>>)
    ensures PlaceInv(Start(config)) && ManagersInv(Start(config))
  {
  }

  lemma ReachableInv(config: map<nat, map<Name, Address>>, run: seq<SystemAction>, s: System)
    requires SystemExec(Start(config), run) == Some(s)
    ensures PlaceInv(s) && ManagersInv(s)
  {
    StartInv(config);
    RunKeepsPlaces(Start(config), run);
  }

  /** The token is at this place according to the channels, pools and goroutines themselves. */
  predicate Locates(s: System, t: Token, p: Place) {
    match p
    case InQueue(m) => m < |s.mgrs| && InSendQueue(s.mgrs[m], t)
    case BeingWritten(m) => m < |s.mgrs| && IsWriting(s.mgrs[m], t)
    case OnWire(m) => m < |s.links| && OnLink(s.links[m], t)
    case Pushing(m) => m < |s.mgrs| && IsPushing(s.mgrs[m], t)
    case Pooled(m) => m < |s.mgrs| && InPool(s.mgrs[m], t)
    case Held(m, h) => m < |s.mgrs| && HandlerAt(s.mgrs[m], h, WritingRequest(t))
    case Carrying(m, h) => m < |s.mgrs| && HandlerAt(s.mgrs[m], h, Joined(t))
    case _ => At(s.place, t, p)
  }

  lemma LocatesAgrees(s: System, t: Token, p: Place)
    requires PlaceInv(s)
    ensures Locates(s, t, p) <==> At(s.place, t, p)
  {
    if p.InQueue? || p.BeingWritten? || p.OnWire? || p.Pushing? || p.Pooled? || p.Held? || p.Carrying? {
      if p.m < |s.mgrs| {
        assert Site(s.mgrs[p.m], s.links[p.m], p.m, s.place);
        if p.Held? || p.Carrying? {
          var joined := p.Carrying?;
          assert HandlerAt(s.mgrs[p.m], p.h, PcFor(joined, t)) <==> At(s.place, t, PlaceFor(joined, p.m, p.h));
        }
      }
    }
  }

  /**
   In every reachable state a pipe request has a place if and only if some manager issued it, and it
   is at exactly that one place among all queues, wires, clients, pools and handlers of the system.
   */
  lemma EachRequestInOnePlace(config: map<nat, map<Name, Address>>, run: seq<SystemAction>, s: System, t: Token)
    requires SystemExec(Start(config), run) == Some(s)
    ensures t in s.place <==> IsIssued(s.mgrs, t)
    ensures forall p :: Locates(s, t, p) <==> t in s.place && p == s.place[t]
  {
    ReachableInv(config, run, s);
    forall p ensures Locates(s, t, p) <==> t in s.place && p == s.place[t] {
      LocatesAgrees(s, t, p);
    }
  }

  /** Handler `h` of manager `m` has this pipe. */
  predicate Has(s: System, m: nat, h: nat, t: Token) {
    m < |s.mgrs| && (HandlerAt(s.mgrs[m], h, WritingRequest(t)) || HandlerAt(s.mgrs[m], h, Joined(t)))
  }

  lemma OneHandler(s: System, t: Token, m: nat, m': nat, h: nat, h': nat)
    requires PlaceInv(s) && Has(s, m, h, t) && Has(s, m', h', t)
    ensures m == m' && h == h'
  {
    LocatesAgrees(s, t, Held(m, h));
    LocatesAgrees(s, t, Carrying(m, h));
    LocatesAgrees(s, t, Held(m', h'));
    LocatesAgrees(s, t, Carrying(m', h'));
  }

  lemma NotPooledAndHeld(s: System, t: Token, m: nat, m': nat, h: nat)
    requires PlaceInv(s) && m < |s.mgrs| && InPool(s.mgrs[m], t)
    ensures !Has(s, m', h, t)
  {
    LocatesAgrees(s, t, Pooled(m));
    LocatesAgrees(s, t, Held(m', h));
    LocatesAgrees(s, t, Carrying(m', h));
  }

  /**
   A pipe is in at most one manager's pool, once, and in the hands of at most one handler, never both,
   and no pool is larger than twice its pool size.
   */
  lemma PipesHaveOneOwner(
    config: map<nat, map<Name, Address>>, run: seq<SystemAction>, s: System, t: Token, m: nat, m': nat)
    requires SystemExec(Start(config), run) == Some(s) && m < |s.mgrs| && m' < |s.mgrs|
    ensures InPool(s.mgrs[m], t) && InPool(s.mgrs[m'], t) ==> m == m'
    ensures Distinct(s.mgrs[m].mgr.pool.buf) && |s.mgrs[m].mgr.pool.buf| <= 2 * s.mgrs[m].poolSize <= 2 * MAX_POOL_SIZE
    ensures forall h, h' :: Has(s, m, h, t) && Has(s, m', h', t) ==> m == m' && h == h'
    ensures forall h :: InPool(s.mgrs[m], t) ==> !Has(s, m', h, t)
  {
    ReachableInv(config, run, s);
    assert Site(s.mgrs[m], s.links[m], m, s.place);
    LocatesAgrees(s, t, Pooled(m));
    LocatesAgrees(s, t, Pooled(m'));
    forall h, h' | Has(s, m, h, t) && Has(s, m', h', t) ensures m == m' && h == h' { OneHandler(s, t, m, m', h, h'); }
    forall h | InPool(s.mgrs[m], t) ensures !Has(s, m', h, t) { NotPooledAndHeld(s, t, m, m', h); }
  }

  // ---- Counting ----

  datatype Stage = Coming | AtHand | Used | Lost

  function StageOf(p: Place): Stage {
    match p
    case Pooled(_) => AtHand
    case Held(_, _) => Used
    case Carrying(_, _) => Used
    case Discarded(_) => Used
    case Rejected => Lost
    case Abandoned => Lost
    case Failed => Lost
    case _ => Coming
  }

  /** The requests of manager `m` that are at this stage, at whichever manager. */
  function Own(s: System, m: nat, st: Stage): set<Token> { OwnIn(s.place, m, st) }

  function OwnIn(place: map<Token, Place>, m: nat, st: Stage): set<Token> {
    set t | t in place && t.mgr == m && StageOf(place[t]) == st
  }

  lemma {:induction false} TokenCount(m: nat, n: nat)
    ensures |set i: nat | i < n :: Token(m, i)| == n
  {
    if n > 0 {
      TokenCount(m, n - 1);
      assert (set i: nat | i < n :: Token(m, i)) == (set i: nat | i < n - 1 :: Token(m, i)) + {Token(m, n - 1)};
    }
  }

  lemma OwnTokens(mgrs: seq<State>, place: map<Token, Place>, m: nat)
    requires TokensInv(mgrs, place) && m < |mgrs|
    ensures |set t | t in place && t.mgr == m| == mgrs[m].Issued()
  {
    var n := mgrs[m].Issued();
    var all := set i: nat | i < n :: Token(m, i);
    TokenCount(m, n);
    forall t ensures t in all <==> t in place && t.mgr == m {
      assert t in place <==> IsIssued(mgrs, t);
      if t.mgr == m { assert t == Token(m, t.seqno); }
    }
    assert all == set t | t in place && t.mgr == m;
  }

  lemma StagesPartition(place: map<Token, Place>, m: nat)
    ensures |set t | t in place && t.mgr == m|
            == |OwnIn(place, m, Coming)| + |OwnIn(place, m, AtHand)| + |OwnIn(place, m, Used)| + |OwnIn(place, m, Lost)|
  {
    var a, b, c, d := OwnIn(place, m, Coming), OwnIn(place, m, AtHand), OwnIn(place, m, Used), OwnIn(place, m, Lost);
    assert (set t | t in place && t.mgr == m) == (a + b) + (c + d);
    assert a !! b && c !! d && (a + b) !! (c + d);
  }

  /**
   Until a manager is closed, the requests it sent are its initial requests and one per pop begun,
   and they are the sum of those coming, pooled, used and lost.
   */
  lemma RequestsConserved(config: map<nat, map<Name, Address>>, run: seq<SystemAction>, s: System, m: nat)
    requires SystemExec(Start(config), run) == Some(s) && m < |s.mgrs|
    ensures s.mgrs[m].Issued()
            == |Own(s, m, Coming)| + |Own(s, m, AtHand)| + |Own(s, m, Used)| + |Own(s, m, Lost)|
    ensures var x := s.mgrs[m];
            !x.mgr.closed ==>
              x.Issued() == MP.InitProgress(x) + |MP.WaitingHandlers(x)| + x.ledger.popped + x.ledger.timeouts
  {
    ReachableInv(config, run, s);
    OwnTokens(s.mgrs, s.place, m);
    StagesPartition(s.place, m);
    assert MP.Inv(s.mgrs[m]);
  }
}
