/** What every interleaving of one manager's goroutines keeps. */
module ManagerProofs {
  import opened ManagerMachine

  /** How far `Close` has got. */
  function Progress(pc: ClosePc): nat {
    match pc
    case Test => 0 case SetFlag => 1 case CloseConn => 2 case CloseSend => 3
    case CloseRecv => 4 case ClosePool => 5 case Sweep => 6 case Returned => 7
  }

  function Phase(s: State): nat { if s.recv.RecvClosing? then Progress(s.recv.pc) else 0 }

  function Bit(b: bool): nat { if b then 1 else 0 }

  /** Only awaitReceive ever gets past the test in `Close`, and its position decides what is closed. */
  ghost predicate CloseInv(s: State) {
    && s.mgr.closed == (Phase(s) >= 2)
    && s.mgr.connOpen == (Phase(s) < 3)
    && s.mgr.sendChan.closes == Bit(Phase(s) >= 4)
    && s.mgr.recvChan.closes == Bit(Phase(s) >= 5)
    && s.mgr.pool.closes == Bit(Phase(s) >= 6)
    && (s.run.Finished? || s.run.DoneSent? ==> s.mgr.closed)
    && (!s.server.Idle? ==> s.run.DoneSent?)
    && (s.server.ServerClosing? ==> s.server.pc.Test? || s.server.pc.Returned?)
    && (s.run.DoneSent? <==> !s.server.Idle?)
  }

  /** After the sweep the proxy map holds at most the one proxy whose registration was under way. */
  ghost predicate SweepInv(s: State) {
    Phase(s) == 7 && s.mgr.proxies != map[] ==>
      |s.mgr.proxies| == 1 && (s.run.ReplyTest? || s.run.Finished? || s.run.DoneSent?)
  }

  ghost predicate BufferInv(s: State) {
    && 1 <= s.poolSize <= MAX_POOL_SIZE
    && s.mgr.pool.cap == 2 * s.poolSize
    && s.mgr.sendChan.cap == s.mgr.recvChan.cap == CHANNEL_CAPACITY
    && |s.mgr.pool.buf| <= s.mgr.pool.cap
    && |s.mgr.sendChan.buf| <= s.mgr.sendChan.cap
    && |s.mgr.recvChan.buf| <= s.mgr.recvChan.cap
  }

  /** The initial requests dealt with so far. */
  function InitProgress(s: State): nat {
    match s.run
    case InitTest(i) => i
    case InitSend(i) => i
    case _ => s.poolSize
  }

  /** The handlers blocked in the select of PopPipeConn. */
  function WaitingHandlers(s: State): set<nat> { set h | h in s.crowd.handlers && s.crowd.handlers[h].pc.Popping? }

  ghost predicate LedgerInv(s: State) {
    && InitProgress(s) <= s.poolSize
    && (s.run.InitTest? || s.run.InitSend? ==> InitProgress(s) < s.poolSize)
    && s.ledger.initSent + s.ledger.initSkipped == InitProgress(s)
    && s.ledger.popSent + s.ledger.popSkipped
       == |WaitingHandlers(s)| + s.ledger.popped + s.ledger.timeouts + s.ledger.refused
    && (!s.mgr.closed ==> s.ledger.initSkipped == 0 && s.ledger.popSkipped == 0 && s.ledger.refused == 0)
  }

  ghost predicate HandlerInv(x: Handler) {
    x.retry <= MAX_RETRIES && (!x.pc.GaveUp? ==> x.retry < MAX_RETRIES)
  }

  ghost predicate HandlersInv(s: State) {
    forall h :: h in s.crowd.handlers ==> HandlerInv(s.crowd.handlers[h])
  }

  /** An "ok" answer exists only for a name that was put in the proxy map. */
  ghost predicate NoticeInv(s: State, m: Notice) { m.ProxyOk? ==> m.name in s.mgr.announced }

  ghost predicate AnnounceInv(s: State) {
    && (forall i :: 0 <= i < |s.mgr.sendChan.buf| ==> NoticeInv(s, s.mgr.sendChan.buf[i]))
    && (s.run.ReplyTest? || s.run.ReplySend? ==> NoticeInv(s, s.run.reply))
    && (s.send.WritingNotice? ==> NoticeInv(s, s.send.msg))
  }

  ghost predicate Inv(s: State) {
    && CloseInv(s)
    && SweepInv(s)
    && BufferInv(s)
    && LedgerInv(s)
    && HandlersInv(s)
    && AnnounceInv(s)
  }

  lemma InitInv(me: nat, requested: int)
    ensures Inv(Init(me, requested))
  {
    assert WaitingHandlers(Init(me, requested)) == {};
  }

  lemma SameHandlersSameWaiting(s: State, s': State)
    requires s.crowd.handlers == s'.crowd.handlers
    ensures WaitingHandlers(s) == WaitingHandlers(s')
  {
  }

  lemma CloseKept(s: State, a: Action)
    requires CloseInv(s) && Step(s, a).Some?
    ensures CloseInv(Step(s, a).value)
  {
    match a
    case RunDo(x) => RunKeepsClose(s, x);
    case RecvDo(x) => RecvKeepsClose(s, x);
    case ServerDo(_) =>
    case HandlerDo(h, x) => HandlerKeepsClose(s, h, x);
    case _ => OthersKeepClose(s, a);
  }

  /** The other goroutines leave alone everything that `CloseInv` mentions. */
  lemma OthersKeepClose(s: State, a: Action)
    requires CloseInv(s) && Step(s, a).Some? && (a.SendDo? || a.PushDo? || a.PingDo?)
    ensures CloseInv(Step(s, a).value)
  {
  }

  lemma HandlerKeepsClose(s: State, h: nat, a: HandlerAction)
    requires CloseInv(s) && HandlerStep(s, h, a).Some?
    ensures CloseInv(HandlerStep(s, h, a).value)
  {
  }

  lemma RunKeepsClose(s: State, a: RunAction)
    requires CloseInv(s) && RunStep(s, a).Some?
    ensures CloseInv(RunStep(s, a).value)
  {
  }

  lemma RecvKeepsClose(s: State, a: RecvAction)
    requires CloseInv(s) && RecvStep(s, a).Some?
    ensures CloseInv(RecvStep(s, a).value)
  {
  }

  lemma SweepKept(s: State, a: Action)
    requires CloseInv(s) && SweepInv(s) && Step(s, a).Some?
    ensures SweepInv(Step(s, a).value)
  {
    match a
    case RunDo(x) => RunKeepsSweep(s, x);
    case HandlerDo(h, x) => HandlerKeepsSweep(s, h, x);
    case _ =>
  }

  lemma RunKeepsSweep(s: State, a: RunAction)
    requires CloseInv(s) && SweepInv(s) && RunStep(s, a).Some?
    ensures SweepInv(RunStep(s, a).value)
  {
  }

  lemma HandlerKeepsSweep(s: State, h: nat, a: HandlerAction)
    requires SweepInv(s) && HandlerStep(s, h, a).Some?
    ensures SweepInv(HandlerStep(s, h, a).value)
  {
  }

  lemma BuffersKept(s: State, a: Action)
    requires BufferInv(s) && Step(s, a).Some?
    ensures BufferInv(Step(s, a).value)
  {
    match a
    case RunDo(x) => RunKeepsBuffers(s, x);
    case HandlerDo(h, x) => HandlerKeepsBuffers(s, h, x);
    case _ =>
  }

  lemma RunKeepsBuffers(s: State, a: RunAction)
    requires BufferInv(s) && RunStep(s, a).Some?
    ensures BufferInv(RunStep(s, a).value)
  {
  }

  lemma HandlerKeepsBuffers(s: State, h: nat, a: HandlerAction)
    requires BufferInv(s) && HandlerStep(s, h, a).Some?
    ensures BufferInv(HandlerStep(s, h, a).value)
  {
  }

  lemma WaitingChanges(s: State, h: nat, a: HandlerAction)
    requires HandlerStep(s, h, a).Some?
    ensures WaitingHandlers(HandlerStep(s, h, a).value)
            == if HandlerStep(s, h, a).value.crowd.handlers[h].pc.Popping? then WaitingHandlers(s) + {h}
               else WaitingHandlers(s) - {h}
  {
  }

  predicate IsWaiting(s: State, h: nat) { h in s.crowd.handlers && s.crowd.handlers[h].pc.Popping? }

  lemma WaitingCount(s: State, h: nat, a: HandlerAction)
    requires HandlerStep(s, h, a).Some?
    ensures var s' := HandlerStep(s, h, a).value;
            |WaitingHandlers(s')| + Bit(IsWaiting(s, h)) == |WaitingHandlers(s)| + Bit(IsWaiting(s', h))
  {
    WaitingChanges(s, h, a);
    assert h in WaitingHandlers(s) <==> IsWaiting(s, h);
  }

  /** Pops begun less pops ended. */
  function OpenPops(l: Ledger): int { l.popSent + l.popSkipped - l.popped - l.timeouts - l.refused }

  /** A handler's step opens or ends a pop exactly when the handler starts or stops waiting. */
  lemma HandlerEffectOnLedger(s: State, h: nat, a: HandlerAction)
    requires HandlerStep(s, h, a).Some?
    ensures var s' := HandlerStep(s, h, a).value;
            && s'.run == s.run && s'.poolSize == s.poolSize && s'.mgr.closed == s.mgr.closed
            && s'.ledger.initSent == s.ledger.initSent && s'.ledger.initSkipped == s.ledger.initSkipped
            && OpenPops(s'.ledger) + Bit(IsWaiting(s, h)) == OpenPops(s.ledger) + Bit(IsWaiting(s', h))
  {
  }

  /** Only a closed manager makes a pop skip its request or find the pool closed. */
  lemma OpenLedger(s: State, h: nat, a: HandlerAction)
    requires CloseInv(s) && !s.mgr.closed && HandlerStep(s, h, a).Some?
    ensures var l, l' := s.ledger, HandlerStep(s, h, a).value.ledger;
            l'.popSkipped == l.popSkipped && l'.refused == l.refused
  {
  }

  lemma HandlersKeepLedger(s: State, h: nat, a: HandlerAction)
    requires CloseInv(s) && LedgerInv(s) && HandlerStep(s, h, a).Some?
    ensures LedgerInv(HandlerStep(s, h, a).value)
  {
    WaitingCount(s, h, a);
    HandlerEffectOnLedger(s, h, a);
    if !s.mgr.closed { OpenLedger(s, h, a); }
    LedgerCarries(s, HandlerStep(s, h, a).value);
  }

  /** What the ledger says depends on nothing else of the state. */
  lemma LedgerCarries(s: State, s': State)
    requires LedgerInv(s)
    requires s'.run == s.run && s'.poolSize == s.poolSize && s'.mgr.closed == s.mgr.closed
    requires s'.ledger.initSent == s.ledger.initSent && s'.ledger.initSkipped == s.ledger.initSkipped
    requires OpenPops(s'.ledger) - |WaitingHandlers(s')| == OpenPops(s.ledger) - |WaitingHandlers(s)|
    requires !s.mgr.closed ==> s'.ledger.popSkipped == s.ledger.popSkipped && s'.ledger.refused == s.ledger.refused
    ensures LedgerInv(s')
  {
  }

  lemma RunKeepsLedger(s: State, a: RunAction)
    requires CloseInv(s) && BufferInv(s) && LedgerInv(s) && RunStep(s, a).Some?
    ensures LedgerInv(RunStep(s, a).value)
  {
    SameHandlersSameWaiting(s, RunStep(s, a).value);
  }

  lemma LedgerKept(s: State, a: Action)
    requires CloseInv(s) && BufferInv(s) && LedgerInv(s) && Step(s, a).Some?
    ensures LedgerInv(Step(s, a).value)
  {
    match a
    case RunDo(x) => RunKeepsLedger(s, x);
    case HandlerDo(h, x) => HandlersKeepLedger(s, h, x);
    case _ => SameHandlersSameWaiting(s, Step(s, a).value);
  }

  lemma HandlersKept(s: State, a: Action)
    requires HandlersInv(s) && Step(s, a).Some?
    ensures HandlersInv(Step(s, a).value)
  {
  }

  lemma AnnounceKept(s: State, a: Action)
    requires AnnounceInv(s) && Step(s, a).Some?
    ensures AnnounceInv(Step(s, a).value)
  {
    match a
    case RunDo(x) => RunKeepsAnnounced(s, x);
    case HandlerDo(h, x) => HandlerKeepsAnnounced(s, h, x);
    case _ =>
  }

  lemma RunKeepsAnnounced(s: State, a: RunAction)
    requires AnnounceInv(s) && RunStep(s, a).Some?
    ensures AnnounceInv(RunStep(s, a).value)
  {
  }

  lemma HandlerKeepsAnnounced(s: State, h: nat, a: HandlerAction)
    requires AnnounceInv(s) && HandlerStep(s, h, a).Some?
    ensures AnnounceInv(HandlerStep(s, h, a).value)
  {
  }

  lemma StepKeepsInv(s: State, a: Action)
    requires Inv(s) && Step(s, a).Some?
    ensures Inv(Step(s, a).value)
  {
    CloseKept(s, a);
    SweepKept(s, a);
    BuffersKept(s, a);
    LedgerKept(s, a);
    HandlersKept(s, a);
    AnnounceKept(s, a);
  }

  lemma {:induction false} ExecKeepsInv(s: State, run: seq<Action>)
    requires Inv(s) && Exec(s, run).Some?
    ensures Inv(Exec(s, run).value)
    decreases |run|
  {
    if run != [] {
      StepKeepsInv(s, run[0]);
      ExecKeepsInv(Step(s, run[0]).value, run[1..]);
    }
  }

  // ---- Whole-run theorems ----

  /** This step is a call of `Close` that finds the flag unset and goes on to close everything. */
  predicate PassesCloseTest(s: State, a: Action) {
    && !s.mgr.closed
    && (|| (a == RecvDo(RecvClose) && s.recv == RecvClosing(Test))
        || (a == ServerDo(ServerClose) && s.server == ServerClosing(Test)))
  }

  /** This step takes a message that needs a reply although the manager is already closed. */
  predicate TakesReplyAfterClose(s: State, a: Action) {
    && s.mgr.closed && a == RunDo(RunTake) && s.run.Loop?
    && s.mgr.recvChan.buf != [] && ProducesReply(s.mgr.recvChan.buf[0])
  }

  /** This step puts a proxy in the map although the manager is already closed. */
  predicate InsertsAfterClose(s: State, a: Action) {
    s.mgr.closed && a == RunDo(RunInsert) && s.run.Inserting?
  }

  datatype Event = CloseTestPassed | ReplyTaken | ProxyInserted

  predicate Happens(e: Event, s: State, a: Action) {
    match e
    case CloseTestPassed => PassesCloseTest(s, a)
    case ReplyTaken => TakesReplyAfterClose(s, a)
    case ProxyInserted => InsertsAfterClose(s, a)
  }

  /** How often an event happens in a run. */
  function Count(e: Event, s: State, run: seq<Action>): nat
    requires Exec(s, run).Some?
    decreases |run|
  {
    if run == [] then 0
    else Bit(Happens(e, s, run[0])) + Count(e, Step(s, run[0]).value, run[1..])
  }

  /** Whether the event can still happen. */
  predicate StillPossible(e: Event, s: State) {
    match e
    case CloseTestPassed => Phase(s) == 0
    case ReplyTaken =>
      !(s.mgr.closed
        && (s.run.Registering? || s.run.Inserting? || s.run.ReplyTest? || s.run.Finished? || s.run.DoneSent?))
    case ProxyInserted =>
      !(s.mgr.closed && (s.run.ReplyTest? || s.run.Finished? || s.run.DoneSent?))
  }

  lemma EventSpendsBudget(e: Event, s: State, a: Action)
    requires CloseInv(s) && Step(s, a).Some?
    ensures Bit(Happens(e, s, a)) + Bit(StillPossible(e, Step(s, a).value)) <= Bit(StillPossible(e, s))
  {
  }

  lemma {:induction false} EventAtMostOnce(e: Event, s: State, run: seq<Action>)
    requires CloseInv(s) && Exec(s, run).Some?
    ensures Count(e, s, run) <= Bit(StillPossible(e, s))
    decreases |run|
  {
    if run != [] {
      EventSpendsBudget(e, s, run[0]);
      CloseKept(s, run[0]);
      EventAtMostOnce(e, Step(s, run[0]).value, run[1..]);
    }
  }

  /**
   In every run of a manager at most one call of `Close` passes its test, each channel is closed at
   most once, the goroutine awaitReceive never sends on a closed channel, and the server's own call
   of `Close` never gets past the test.
   */
  lemma CloseHappensOnce(me: nat, requested: int, run: seq<Action>)
    requires Exec(Init(me, requested), run).Some?
    ensures Count(CloseTestPassed, Init(me, requested), run) <= 1
    ensures var s := Exec(Init(me, requested), run).value;
            && s.mgr.sendChan.closes <= 1
            && s.mgr.recvChan.closes <= 1
            && s.mgr.pool.closes <= 1
            && (s.recv.RecvSend? ==> s.mgr.recvChan.IsOpen())
            && (s.server.ServerClosing? && s.server.pc.Test? ==> s.mgr.closed)
            && (s.server.ServerClosing? ==> s.server.pc.Test? || s.server.pc.Returned?)
            && (s.recv == RecvClosing(Returned) ==>
                  s.mgr.sendChan.closes == s.mgr.recvChan.closes == s.mgr.pool.closes == 1)
  {
    InitInv(me, requested);
    ExecKeepsInv(Init(me, requested), run);
    EventAtMostOnce(CloseTestPassed, Init(me, requested), run);
  }

  /**
   Once a manager is closed its dispatch loop takes at most one more message that needs a reply and
   inserts at most one more proxy, and when `Close` has swept the map at most one proxy is in it.
   */
  lemma ClosingIsBounded(me: nat, requested: int, run: seq<Action>)
    requires Exec(Init(me, requested), run).Some?
    ensures Count(ReplyTaken, Init(me, requested), run) <= 1
    ensures Count(ProxyInserted, Init(me, requested), run) <= 1
    ensures var s := Exec(Init(me, requested), run).value;
            s.recv == RecvClosing(Returned) ==> |s.mgr.proxies| <= 1
  {
    InitInv(me, requested);
    ExecKeepsInv(Init(me, requested), run);
    EventAtMostOnce(ReplyTaken, Init(me, requested), run);
    EventAtMostOnce(ProxyInserted, Init(me, requested), run);
  }

  /**
   The pool never holds more than twice the pool size, and as long as the manager is open every
   initial request and every pop has had its pipe request queued, none skipped.
   */
  lemma RequestsAreAccountedFor(me: nat, requested: int, run: seq<Action>)
    requires Exec(Init(me, requested), run).Some?
    ensures var s := Exec(Init(me, requested), run).value;
            && |s.mgr.pool.buf| <= 2 * s.poolSize <= 2 * MAX_POOL_SIZE
            && (!s.mgr.closed ==>
                  s.Issued() == InitProgress(s) + |WaitingHandlers(s)| + s.ledger.popped + s.ledger.timeouts)
            && (s.run.Loop? ==> InitProgress(s) == s.poolSize)
  {
    InitInv(me, requested);
    ExecKeepsInv(Init(me, requested), run);
  }

  // ---- One user handler over a whole run ----

  /** The pipe a handler has popped and neither closed nor joined yet. */
  function Holding(s: State, h: nat): seq<Token> {
    if h in s.crowd.handlers && s.crowd.handlers[h].pc.WritingRequest? then [s.crowd.handlers[h].pc.pipe] else []
  }

  datatype Fate = WasPopped | WasClosed | WasJoined

  /** The pipe, if any, to which this step gives the fate, by an action of handler `h`. */
  function Fated(f: Fate, s: State, h: nat, a: Action): seq<Token> {
    if !a.HandlerDo? || a.h != h || h !in s.crowd.handlers then []
    else
      match f
      case WasPopped => if a.handler.Pop? && s.mgr.pool.buf != [] then [s.mgr.pool.buf[0]] else []
      case WasClosed => if a.handler == RequestWritten(false) then Holding(s, h) else []
      case WasJoined => if a.handler == RequestWritten(true) then Holding(s, h) else []
  }

  function AllFated(f: Fate, s: State, h: nat, run: seq<Action>): seq<Token>
    requires Exec(s, run).Some?
    decreases |run|
  {
    if run == [] then []
    else Fated(f, s, h, run[0]) + AllFated(f, Step(s, run[0]).value, h, run[1..])
  }

  function Retries(s: State, h: nat): nat { if h in s.crowd.handlers then s.crowd.handlers[h].retry else 0 }

  predicate HasJoined(s: State, h: nat) { h in s.crowd.handlers && s.crowd.handlers[h].pc.Joined? }

  lemma HandlerBooks(s: State, h: nat, a: Action)
    requires Step(s, a).Some?
    ensures var s' := Step(s, a).value;
            && Holding(s, h) + Fated(WasPopped, s, h, a)
               == Fated(WasClosed, s, h, a) + Fated(WasJoined, s, h, a) + Holding(s', h)
            && Retries(s', h) == Retries(s, h) + |Fated(WasClosed, s, h, a)|
            && |Fated(WasJoined, s, h, a)| + Bit(HasJoined(s, h)) == Bit(HasJoined(s', h))
            && (HasJoined(s, h) ==> forall f :: Fated(f, s, h, a) == [])
            && (Fated(WasJoined, s, h, a) != [] ==> Fated(WasClosed, s, h, a) == [])
  {
    if a.HandlerDo? && a.h == h {
      OwnBooks(s, h, a.handler);
    } else {
      OthersKeepHandler(s, h, a);
    }
  }

  lemma OwnBooks(s: State, h: nat, b: HandlerAction)
    requires HandlerStep(s, h, b).Some?
    ensures var s', a := HandlerStep(s, h, b).value, HandlerDo(h, b);
            && Holding(s, h) + Fated(WasPopped, s, h, a)
               == Fated(WasClosed, s, h, a) + Fated(WasJoined, s, h, a) + Holding(s', h)
            && Retries(s', h) == Retries(s, h) + |Fated(WasClosed, s, h, a)|
            && |Fated(WasJoined, s, h, a)| + Bit(HasJoined(s, h)) == Bit(HasJoined(s', h))
            && (HasJoined(s, h) ==> forall f :: Fated(f, s, h, a) == [])
            && (Fated(WasJoined, s, h, a) != [] ==> Fated(WasClosed, s, h, a) == [])
  {
  }

  lemma OthersKeepHandler(s: State, h: nat, a: Action)
    requires Step(s, a).Some? && !(a.HandlerDo? && a.h == h)
    ensures var hs, hs' := s.crowd.handlers, Step(s, a).value.crowd.handlers;
            (h in hs <==> h in hs') && (h in hs ==> hs[h] == hs'[h])
  {
  }

  lemma {:induction false} JoinedHandlerRests(f: Fate, s: State, h: nat, run: seq<Action>)
    requires Exec(s, run).Some? && HasJoined(s, h)
    ensures AllFated(f, s, h, run) == []
    decreases |run|
  {
    if run != [] {
      HandlerBooks(s, h, run[0]);
      JoinedHandlerRests(f, Step(s, run[0]).value, h, run[1..]);
    }
  }

  /** The books of one step and of the rest of a run make the books of the whole run. */
  lemma Splice<T>(held: seq<T>, pop: seq<T>, shut: seq<T>, join: seq<T>, mid: seq<T>,
                  pops: seq<T>, shuts: seq<T>, joins: seq<T>, end: seq<T>)
    requires held + pop == shut + join + mid
    requires mid + pops == shuts + joins + end
    requires join == [] || shuts == []
    ensures held + (pop + pops) == (shut + shuts) + (join + joins) + end
  {
    calc {
      held + (pop + pops);
      (held + pop) + pops;
      (shut + join) + (mid + pops);
      (shut + join) + (shuts + joins + end);
      { if join == [] { assert shut + join == shut; } else { assert shut + shuts == shut; } }
      (shut + shuts) + (join + joins) + end;
    }
  }

  lemma {:induction false} RunBooks(s: State, h: nat, run: seq<Action>)
    requires Exec(s, run).Some?
    ensures var s' := Exec(s, run).value;
            && Holding(s, h) + AllFated(WasPopped, s, h, run)
               == AllFated(WasClosed, s, h, run) + AllFated(WasJoined, s, h, run) + Holding(s', h)
            && Retries(s', h) == Retries(s, h) + |AllFated(WasClosed, s, h, run)|
            && |AllFated(WasJoined, s, h, run)| + Bit(HasJoined(s, h)) == Bit(HasJoined(s', h))
    decreases |run|
  {
    if run != [] {
      var m := Step(s, run[0]).value;
      HandlerBooks(s, h, run[0]);
      RunBooks(m, h, run[1..]);
      if Fated(WasJoined, s, h, run[0]) != [] {
        JoinedHandlerRests(WasClosed, m, h, run[1..]);
      }
      Splice(Holding(s, h), Fated(WasPopped, s, h, run[0]),
             Fated(WasClosed, s, h, run[0]), Fated(WasJoined, s, h, run[0]),
             Holding(m, h), AllFated(WasPopped, m, h, run[1..]), AllFated(WasClosed, m, h, run[1..]),
             AllFated(WasJoined, m, h, run[1..]), Holding(Exec(s, run).value, h));
    }
  }

  /**
   Over any run a handler pops at most three pipes and joins at most one; the pipes it popped are,
   in order, those it closed, then the one it joined or is still writing its request to.
   */
  lemma HandlerUsesEachPipeOnce(me: nat, requested: int, run: seq<Action>, h: nat)
    requires Exec(Init(me, requested), run).Some?
    ensures var s, s' := Init(me, requested), Exec(Init(me, requested), run).value;
            && AllFated(WasPopped, s, h, run)
               == AllFated(WasClosed, s, h, run) + AllFated(WasJoined, s, h, run) + Holding(s', h)
            && |AllFated(WasPopped, s, h, run)| <= MAX_RETRIES
            && |AllFated(WasJoined, s, h, run)| == Bit(HasJoined(s', h))
            && (HasJoined(s', h) ==> Holding(s', h) == [])
  {
    InitInv(me, requested);
    ExecKeepsInv(Init(me, requested), run);
    RunBooks(Init(me, requested), h, run);
  }

  /** The handler's pop times out or finds the pool closed. */
  predicate Denied(s: State, h: nat, a: Action) {
    a == HandlerDo(h, PopTimeout) || (a == HandlerDo(h, Pop) && s.mgr.pool.buf == [])
  }

  function Denials(s: State, h: nat, run: seq<Action>): nat
    requires Exec(s, run).Some?
    decreases |run|
  {
    if run == [] then 0 else Bit(Denied(s, h, run[0])) + Denials(Step(s, run[0]).value, h, run[1..])
  }

  predicate HasGivenUp(s: State, h: nat) { h in s.crowd.handlers && s.crowd.handlers[h].pc.GaveUp? }

  lemma StepGivesUp(s: State, h: nat, a: Action)
    requires HandlersInv(s) && Step(s, a).Some?
    requires HasGivenUp(s, h) ==> !Denied(s, h, a)
    ensures var s' := Step(s, a).value;
            && (Denied(s, h, a) ==> HasGivenUp(s', h))
            && (HasGivenUp(s', h) <==> HasGivenUp(s, h) || Denied(s, h, a) || Retries(s', h) == MAX_RETRIES)
  {
    if a.HandlerDo? && a.h == h {
      assert h in s.crowd.handlers ==> HandlerInv(s.crowd.handlers[h]);
    } else {
      OthersKeepHandler(s, h, a);
      assert h in s.crowd.handlers ==> HandlerInv(s.crowd.handlers[h]);
    }
  }

  lemma {:induction false} RunGivesUp(s: State, h: nat, run: seq<Action>, before: nat)
    requires HandlersInv(s) && Exec(s, run).Some?
    requires HasGivenUp(s, h) <==> before > 0 || Retries(s, h) == MAX_RETRIES
    ensures var s' := Exec(s, run).value;
            HasGivenUp(s', h) <==> before + Denials(s, h, run) > 0 || Retries(s', h) == MAX_RETRIES
    decreases |run|
  {
    if run != [] {
      StepGivesUp(s, h, run[0]);
      RetriesGrow(s, h, run[0]);
      HandlersKept(s, run[0]);
      RunGivesUp(Step(s, run[0]).value, h, run[1..], before + Bit(Denied(s, h, run[0])));
    }
  }

  lemma RetriesGrow(s: State, h: nat, a: Action)
    requires Step(s, a).Some?
    ensures Retries(s, h) == MAX_RETRIES && HasGivenUp(s, h) ==> Retries(Step(s, a).value, h) == MAX_RETRIES
    ensures HasGivenUp(s, h) ==> !Denied(s, h, a) && HasGivenUp(Step(s, a).value, h)
    ensures HasGivenUp(s, h) ==> Retries(Step(s, a).value, h) == Retries(s, h)
  {
  }

  /** Over any run a handler has given up exactly if a pop of its own failed or it closed three pipes. */
  lemma HandlerGivesUpIff(me: nat, requested: int, run: seq<Action>, h: nat)
    requires Exec(Init(me, requested), run).Some?
    ensures var s, s' := Init(me, requested), Exec(Init(me, requested), run).value;
            HasGivenUp(s', h) <==> Denials(s, h, run) > 0 || |AllFated(WasClosed, s, h, run)| == MAX_RETRIES
  {
    RunGivesUp(Init(me, requested), h, run, 0);
    RunBooks(Init(me, requested), h, run);
  }
}
