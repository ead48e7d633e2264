/**
 When a goroutine can go on: each of them waits only for room in a full channel or for something in an
 empty one, and stops only where it ends.
 */
module Progress {
  import opened Channels
  import opened Options
  import opened ManagerMachine
  import opened ProxySystem

  /** A send on this channel waits. */
  predicate NoRoom<T>(c: Chan<T>) { c.closes == 0 && |c.buf| >= c.cap }

  /** A receive from this channel waits. */
  predicate Nothing<T>(c: Chan<T>) { c.closes == 0 && c.buf == [] }

  predicate RunWaits(s: State) {
    || ((s.run.InitSend? || s.run.ReplySend?) && NoRoom(s.mgr.sendChan))
    || (s.run.Loop? && Nothing(s.mgr.recvChan))
  }

  /** The dispatch loop goes on unless it waits, or has told the server that it is done. */
  lemma RunGoesOnIff(s: State)
    ensures (exists a :: RunStep(s, a).Some?) <==> !RunWaits(s) && !s.run.DoneSent?
  {
    if !RunWaits(s) && !s.run.DoneSent? {
      var a := match s.run
        case InitTest(_) => RunReqTest
        case InitSend(_) => RunReqSend
        case Loop => RunTake
        case Registering(_) => RunListen(None)
        case Inserting(_, _) => RunInsert
        case Removing(_) => RunRemove
        case ReplyTest(_) => RunReplyTest
        case ReplySend(_) => RunReplySend
        case Finished => RunDone
        case DoneSent => RunDone;
      assert RunStep(s, a).Some?;
    }
  }

  /** awaitReceive takes any message and any error, and waits only to hand a message on. */
  lemma RecvGoesOnIff(s: State)
    ensures (exists a :: RecvStep(s, a).Some?) <==>
            !(s.recv.RecvSend? && NoRoom(s.mgr.recvChan)) && s.recv != RecvClosing(Returned)
    ensures s.recv.Reading? ==> RecvStep(s, RecvError).Some? && forall m :: RecvStep(s, RecvGet(m)).Some?
  {
    if !(s.recv.RecvSend? && NoRoom(s.mgr.recvChan)) && s.recv != RecvClosing(Returned) {
      var a := match s.recv
        case RecvStart => RecvBegin
        case Reading => RecvError
        case RecvTest(_) => RecvCheck
        case RecvSend(_) => RecvPut
        case RecvClosing(_) => RecvClose;
      assert RecvStep(s, a).Some?;
    }
  }

  lemma SendGoesOnIff(s: State)
    ensures (exists a :: SendStep(s, a).Some?) <==>
            !(s.send.Waiting? && Nothing(s.mgr.sendChan)) && !s.send.SendStopped?
    ensures s.send.WritingNotice? ==> forall ok :: SendStep(s, SendWrite(ok)).Some?
  {
    if !(s.send.Waiting? && Nothing(s.mgr.sendChan)) && !s.send.SendStopped? {
      var a := if s.send.Waiting? then SendTake else SendWrite(true);
      assert SendStep(s, a).Some?;
    }
  }

  /** The server handles every manager that is done, up to the return of `Close`. */
  lemma ServerGoesOnIff(s: State)
    ensures (exists a :: ServerStep(s, a).Some?) <==> !s.server.Idle? && s.server != ServerClosing(Returned)
  {
    if !s.server.Idle? && s.server != ServerClosing(Returned) {
      var a := if s.server.Queued? then ServerForget else ServerClose;
      assert ServerStep(s, a).Some?;
    }
  }

  /**
   A handler waits only to send its request; while it waits for a pipe it can always time out, it takes a
   pipe exactly if there is one or the pool is closed, and its write may succeed or fail.
   */
  lemma HandlerGoesOnIff(s: State, h: nat)
    requires h in s.crowd.handlers
    ensures var pc := s.crowd.handlers[h].pc;
            && ((exists a :: HandlerStep(s, h, a).Some?) <==>
                  !(pc.RequestSend? && NoRoom(s.mgr.sendChan)) && !pc.Joined? && !pc.GaveUp?)
            && (pc.Popping? ==> HandlerStep(s, h, PopTimeout).Some?)
            && (pc.Popping? ==> (HandlerStep(s, h, Pop).Some? <==> !Nothing(s.mgr.pool)))
            && (pc.WritingRequest? ==> forall ok :: HandlerStep(s, h, RequestWritten(ok)).Some?)
  {
    var pc := s.crowd.handlers[h].pc;
    if !(pc.RequestSend? && NoRoom(s.mgr.sendChan)) && !pc.Joined? && !pc.GaveUp? {
      var a := match pc
        case RequestTest => HandlerTest
        case RequestSend => HandlerSend
        case Popping => PopTimeout
        case WritingRequest(_) => RequestWritten(true)
        case Joined(_) => HandlerTest
        case GaveUp => HandlerTest;
      assert HandlerStep(s, h, a).Some?;
    }
  }

  /** A new user is accepted exactly on a name with a listener, and starts from the beginning. */
  lemma AcceptsIff(s: State, h: nat, n: Name)
    requires h !in s.crowd.handlers
    ensures HandlerStep(s, h, Accept(n)).Some? <==> n in s.mgr.listened
    ensures n in s.mgr.listened ==>
              HandlerStep(s, h, Accept(n)).value == s.(crowd := s.crowd.(
                handlers := s.crowd.handlers[h := Handler(n, 0, RequestTest)]))
  {
  }

  /** Pushing a pipe never waits: the select of PushPipeConn has a default. */
  lemma PushNeverWaits(s: State, p: Token)
    ensures p !in s.crowd.pushers ==> PushStep(s, p, PushBegin).Some?
    ensures p in s.crowd.pushers ==> (PushStep(s, p, PushCheck).Some? || PushStep(s, p, PushPut).Some?)
  {
  }

  lemma PingGoesOnIff(s: State)
    ensures PingStep(s, PingTest).Some?
    ensures s.crowd.pingers > 0 ==> (PingStep(s, PingSend).Some? <==> !NoRoom(s.mgr.sendChan))
  {
  }

  // ---- Clients ----

  /** The agent reads whenever there is a frame, takes exactly the oldest, and goes on as agent of the same manager. */
  lemma AgentReads(s: System, c: nat, m: nat)
    requires c in s.clients && s.clients[c].agent == Some(m) && m < |s.links|
    ensures ClientStep(s, c, AgentRead).Some? <==> s.links[m].toClient != []
    ensures s.links[m].toClient != [] ==>
              var s' := ClientStep(s, c, AgentRead).value;
              && s'.links == s.links[m := s.links[m].(toClient := s.links[m].toClient[1..])]
              && c in s'.clients && s'.clients[c].agent == Some(m) && s'.clients[c].id == s.clients[c].id
  {
  }

  /** A client process has one login at a time: none is begun while another is answered or its agent runs. */
  predicate OneAtATime(s: System) {
    forall c :: c in s.clients ==> s.clients[c].pending.None? || s.clients[c].agent.None?
  }

  lemma ClientKeepsOne(s: System, c: nat, a: ClientAction)
    requires OneAtATime(s) && ClientStep(s, c, a).Some?
    ensures OneAtATime(ClientStep(s, c, a).value)
    ensures a.Login? ==> s.clients[c].pending.None? && s.clients[c].agent.None?
  {
  }

  lemma WorkKeepsClients(s: System, t: Token, a: WorkAction)
    requires WorkStep(s, t, a).Some?
    ensures WorkStep(s, t, a).value.clients == s.clients
  {
  }

  lemma StepKeepsOne(s: System, a: SystemAction)
    requires OneAtATime(s) && SystemStep(s, a).Some?
    ensures OneAtATime(SystemStep(s, a).value)
  {
    match a
    case ClientDo(c, b) => ClientKeepsOne(s, c, b);
    case WorkDo(t, b) => WorkKeepsClients(s, t, b);
    case _ =>
  }

  lemma {:induction false} RunKeepsOne(s: System, run: seq<SystemAction>)
    requires OneAtATime(s) && SystemExec(s, run).Some?
    ensures OneAtATime(SystemExec(s, run).value)
    decreases |run|
  {
    if run != [] {
      StepKeepsOne(s, run[0]);
      RunKeepsOne(SystemStep(s, run[0]).value, run[1..]);
    }
  }

  /** In every run a client logs in only while no login of it is answered and its agent does not run. */
  lemma OneLoginAtATime(config: map<nat, map<Name, Address>>, run: seq<SystemAction>, s: System)
    requires SystemExec(Start(config), run) == Some(s)
    ensures OneAtATime(s)
  {
    RunKeepsOne(Start(config), run);
  }
}
