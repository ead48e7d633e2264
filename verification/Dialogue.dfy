/**
 What a manager says to its client, and in answer to what: over every run the requests it takes are those
 it received, in order; each gets the reply it calls for; and what is queued is written in order.
 */
module Dialogue {
  import opened Options
  import opened ManagerMachine
  import opened ManagerProofs

  /** What the dispatch loop learns from outside: the next request, and whether a listener could be opened. */
  datatype Event = Took(msg: Request) | Listened(port: Option<Port>)

  /**
   The record of a run. `got`: requests read from the connection; `lost`: of these, dropped at closing.
   `queued` and `dropped`: replies of the dispatch loop put in the send channel, and not. `notices`:
   everything put in the send channel; `written` and `failed`: what was written, and what could not be.
   */
  datatype Log = Log(
    events: seq<Event>, queued: seq<Notice>, dropped: seq<Notice>,
    got: seq<Request>, lost: seq<Request>,
    notices: seq<Notice>, written: seq<Notice>, failed: seq<Notice>)

  const EMPTY: Log := Log([], [], [], [], [], [], [], [])

  /** What a step appended to a channel's buffer. */
  function Added<T>(before: seq<T>, after: seq<T>): seq<T> { if |before| < |after| then after[|before|..] else [] }

  function EventOf(s: State, a: RunAction): seq<Event> {
    match a
    case RunTake => if s.mgr.recvChan.buf != [] then [Took(s.mgr.recvChan.buf[0])] else []
    case RunListen(port) => [Listened(port)]
    case _ => []
  }

  /** The reply that a step gives up. */
  function DroppedBy(s: State, a: RunAction): seq<Notice> {
    if a == RunReplyTest && s.run.ReplyTest? && s.mgr.closed then [s.run.reply]
    else if a == RunReplySend && s.run.ReplySend? && !s.mgr.sendChan.IsOpen() then [s.run.reply]
    else []
  }

  function LostBy(s: State, a: RecvAction): seq<Request> {
    if a == RecvCheck && s.recv.RecvTest? && s.mgr.closed then [s.recv.msg]
    else if a == RecvPut && s.recv.RecvSend? && !s.mgr.recvChan.IsOpen() then [s.recv.msg]
    else []
  }

  /** The record after one more step, from `s` to `s'`. */
  function Record(l: Log, s: State, a: Action, s': State): Log {
    var added := Added(s.mgr.sendChan.buf, s'.mgr.sendChan.buf);
    var l' := l.(notices := l.notices + added);
    match a
    case RunDo(b) =>
      l'.(events := l.events + EventOf(s, b), dropped := l.dropped + DroppedBy(s, b),
          queued := l.queued + if b == RunReplySend then added else [])
    case RecvDo(b) => l'.(got := l.got + (if b.RecvGet? then [b.msg] else []), lost := l.lost + LostBy(s, b))
    case SendDo(SendWrite(ok)) =>
      if !s.send.WritingNotice? then l'
      else if ok then l'.(written := l.written + [s.send.msg]) else l'.(failed := l.failed + [s.send.msg])
    case _ => l'
  }

  function RecordAll(l: Log, s: State, run: seq<Action>): Log
    requires Exec(s, run).Some?
    decreases |run|
  {
    if run == [] then l
    else
      var s' := Step(s, run[0]).value;
      RecordAll(Record(l, s, run[0], s'), s', run[1..])
  }

  // ---- What the events call for ----

  /** The proxy whose registration an event list ends in the middle of. */
  function Asked(es: seq<Event>): Option<Name> {
    if es != [] && es[|es| - 1].Took? && es[|es| - 1].msg.EnableProxy? then Some(es[|es| - 1].msg.name) else None
  }

  /** A heartbeat calls for a beat, and a registration for its port, or for an error if nothing could listen. */
  function Reply(before: seq<Event>, e: Event): seq<Notice> {
    match e
    case Took(m) => if m.HeartbeatRequest? then [Beat] else []
    case Listened(port) =>
      if Asked(before).None? then []
      else if port.Some? then [ProxyOk(Asked(before).value, port.value)]
      else [ProxyError]
  }

  function Owed(es: seq<Event>): seq<Notice> {
    if es == [] then [] else Owed(es[..|es| - 1]) + Reply(es[..|es| - 1], es[|es| - 1])
  }

  /** A successful registration adds a proxy, a removal takes one away. */
  function Change(proxies: map<Name, Port>, before: seq<Event>, e: Event): map<Name, Port> {
    match e
    case Took(m) => if m.DisableProxy? then proxies - {m.name} else proxies
    case Listened(port) =>
      if Asked(before).Some? && port.Some? then proxies[Asked(before).value := port.value] else proxies
  }

  /** The proxies that the events leave. */
  function Registered(es: seq<Event>): map<Name, Port> {
    if es == [] then map[] else Change(Registered(es[..|es| - 1]), es[..|es| - 1], es[|es| - 1])
  }

  function Requests(es: seq<Event>): seq<Request> {
    if es == [] then []
    else Requests(es[..|es| - 1]) + if es[|es| - 1].Took? then [es[|es| - 1].msg] else []
  }

  // ---- What every step keeps ----

  /** The reply under way in the dispatch loop. */
  function Pending(pc: RunPc): seq<Notice> {
    match pc
    case Inserting(n, p) => [ProxyOk(n, p)]
    case ReplyTest(r) => [r]
    case ReplySend(r) => [r]
    case _ => []
  }

  ghost predicate ReplyBooks(s: State, l: Log) {
    && Owed(l.events) == l.queued + l.dropped + Pending(s.run)
    && (s.run.Registering? ==> Asked(l.events) == Some(s.run.name))
    && (l.dropped != [] ==> s.mgr.closed && (!s.mgr.sendChan.IsOpen() || s.run.Finished? || s.run.DoneSent?))
  }

  /** The map once the dispatch loop has made the change it is about to make. */
  function Upcoming(pc: RunPc, proxies: map<Name, Port>): map<Name, Port> {
    match pc
    case Inserting(n, p) => proxies[n := p]
    case Removing(n) => proxies - {n}
    case _ => proxies
  }

  /** Until the map is swept it holds what the events leave, but for the change that is about to be made. */
  ghost predicate MapBooks(s: State, l: Log) {
    && (s.run.Registering? ==> Asked(l.events) == Some(s.run.name))
    && (Phase(s) < 7 ==>
          Registered(l.events) == Upcoming(s.run, s.mgr.proxies))
  }

  /** The request that awaitReceive holds. */
  function InHand(pc: RecvPc): seq<Request> {
    match pc
    case RecvTest(m) => [m]
    case RecvSend(m) => [m]
    case _ => []
  }

  ghost predicate RecvBooks(s: State, l: Log) {
    && l.got == Requests(l.events) + s.mgr.recvChan.buf + InHand(s.recv) + l.lost
    && (l.lost != [] ==> s.mgr.closed && |l.lost| == 1 && s.recv == RecvClosing(Returned))
  }

  function BeingSent(pc: SendPc): seq<Notice> { if pc.WritingNotice? then [pc.msg] else [] }

  ghost predicate SendBooks(s: State, l: Log) {
    && l.notices == l.written + l.failed + BeingSent(s.send) + s.mgr.sendChan.buf
    && (l.failed != [] ==> |l.failed| == 1 && s.send.SendStopped?)
  }

  lemma Extends(es: seq<Event>, e: Event)
    ensures Owed(es + [e]) == Owed(es) + Reply(es, e)
    ensures Requests(es + [e]) == Requests(es) + if e.Took? then [e.msg] else []
    ensures Registered(es + [e]) == Change(Registered(es), es, e)
  {
    assert (es + [e])[..|es|] == es;
  }

  lemma OwedGrows(es: seq<Event>, e: Event, queued: seq<Notice>, dropped: seq<Notice>, pending: seq<Notice>)
    requires Owed(es) == queued + dropped && pending == Reply(es, e)
    ensures Owed(es + [e]) == queued + dropped + pending
  {
    Extends(es, e);
  }

  lemma TakeKeepsReplies(s: State, l: Log)
    requires ReplyBooks(s, l) && RunStep(s, RunTake).Some?
    ensures ReplyBooks(RunStep(s, RunTake).value, Record(l, s, RunDo(RunTake), RunStep(s, RunTake).value))
  {
    var s' := RunStep(s, RunTake).value;
    var l' := Record(l, s, RunDo(RunTake), s');
    TakeRecord(s, l);
    assert l.queued + l.dropped + [] == l.queued + l.dropped;
    if s.mgr.recvChan.buf != [] {
      var e := Took(s.mgr.recvChan.buf[0]);
      OwedGrows(l.events, e, l.queued, l.dropped, Reply(l.events, e));
      TookIsAsked(l.events, e.msg);
    }
  }

  lemma TakeRecord(s: State, l: Log)
    requires RunStep(s, RunTake).Some?
    ensures var b, s' := s.mgr.recvChan.buf, RunStep(s, RunTake).value;
            var l' := Record(l, s, RunDo(RunTake), s');
            && l'.queued == l.queued && l'.dropped == l.dropped
            && l'.events == (if b != [] then l.events + [Took(b[0])] else l.events)
            && s.run == Loop && s'.run == (if b != [] then Dispatch(b[0]) else Finished)
            && s'.mgr.closed == s.mgr.closed && s'.mgr.sendChan == s.mgr.sendChan
  {
  }

  lemma TookIsAsked(es: seq<Event>, m: Request)
    ensures Asked(es + [Took(m)]) == if m.EnableProxy? then Some(m.name) else None
    ensures Pending(Dispatch(m)) == Reply(es, Took(m))
    ensures Dispatch(m).Registering? ==> m == EnableProxy(Dispatch(m).name)
  {
  }

  lemma ListenKeepsReplies(s: State, port: Option<Port>, l: Log)
    requires ReplyBooks(s, l) && RunStep(s, RunListen(port)).Some?
    ensures ReplyBooks(RunStep(s, RunListen(port)).value,
                       Record(l, s, RunDo(RunListen(port)), RunStep(s, RunListen(port)).value))
  {
    ListenRecord(s, port, l);
    assert l.queued + l.dropped + [] == l.queued + l.dropped;
    OwedGrows(l.events, Listened(port), l.queued, l.dropped, Reply(l.events, Listened(port)));
  }

  lemma ListenRecord(s: State, port: Option<Port>, l: Log)
    requires RunStep(s, RunListen(port)).Some?
    ensures var s' := RunStep(s, RunListen(port)).value;
            var l' := Record(l, s, RunDo(RunListen(port)), s');
            && l'.queued == l.queued && l'.dropped == l.dropped && l'.events == l.events + [Listened(port)]
            && s.run.Registering? && Pending(s.run) == [] && !s'.run.Registering?
            && Pending(s'.run) == (if port.Some? then [ProxyOk(s.run.name, port.value)] else [ProxyError])
            && s'.mgr.closed == s.mgr.closed && s'.mgr.sendChan == s.mgr.sendChan
  {
  }

  /** What becomes of the reply at its test and at its send. */
  lemma AnswerRecord(s: State, b: RunAction, l: Log)
    requires CloseInv(s) && RunStep(s, b).Some? && (b.RunReplyTest? || b.RunReplySend?)
    ensures var s' := RunStep(s, b).value;
            var l' := Record(l, s, RunDo(b), s');
            && l'.events == l.events && (s.run.ReplyTest? || s.run.ReplySend?)
            && s'.mgr.closed == s.mgr.closed && s'.mgr.sendChan.IsOpen() == s.mgr.sendChan.IsOpen()
            && !s'.run.Registering?
            && (|| (l'.queued == l.queued && l'.dropped == l.dropped && s'.run == ReplySend(s.run.reply))
                || (l'.queued == l.queued + [s.run.reply] && l'.dropped == l.dropped
                    && s'.run == Loop && s.mgr.sendChan.IsOpen())
                || (l'.queued == l.queued && l'.dropped == l.dropped + [s.run.reply] && s.mgr.closed
                    && (s'.run == Finished || (s'.run == Loop && !s.mgr.sendChan.IsOpen()))))
  {
    assert l.events + [] == l.events && l.queued + [] == l.queued && l.dropped + [] == l.dropped;
  }

  lemma Shift<T>(a: seq<T>, b: seq<T>, r: T)
    ensures b == [] ==> a + b + [r] == (a + [r]) + b + []
    ensures a + b + [r] == a + (b + [r]) + []
  {
  }

  lemma AnswerKeepsReplies(s: State, b: RunAction, l: Log)
    requires CloseInv(s) && ReplyBooks(s, l) && RunStep(s, b).Some? && (b.RunReplyTest? || b.RunReplySend?)
    ensures ReplyBooks(RunStep(s, b).value, Record(l, s, RunDo(b), RunStep(s, b).value))
  {
    AnswerRecord(s, b, l);
    Shift(l.queued, l.dropped, s.run.reply);
  }

  /** Steps that neither learn of anything nor answer. */
  lemma RestRecord(s: State, b: RunAction, l: Log)
    requires RunStep(s, b).Some? && !b.RunTake? && !b.RunListen? && !b.RunReplyTest? && !b.RunReplySend?
    ensures var s' := RunStep(s, b).value;
            var l' := Record(l, s, RunDo(b), s');
            && l'.events == l.events && l'.queued == l.queued && l'.dropped == l.dropped
            && Pending(s'.run) == Pending(s.run) && !s'.run.Registering?
            && s'.mgr.closed == s.mgr.closed && s'.mgr.sendChan.IsOpen() == s.mgr.sendChan.IsOpen()
            && (s.run.Finished? || s.run.DoneSent? ==> s'.run.Finished? || s'.run.DoneSent?)
  {
    assert l.events + [] == l.events && l.queued + [] == l.queued && l.dropped + [] == l.dropped;
  }

  lemma RestKeepsReplies(s: State, b: RunAction, l: Log)
    requires ReplyBooks(s, l) && RunStep(s, b).Some?
    requires !b.RunTake? && !b.RunListen? && !b.RunReplyTest? && !b.RunReplySend?
    ensures ReplyBooks(RunStep(s, b).value, Record(l, s, RunDo(b), RunStep(s, b).value))
  {
    RestRecord(s, b, l);
  }

  lemma RunKeepsReplies(s: State, b: RunAction, l: Log)
    requires CloseInv(s) && ReplyBooks(s, l) && RunStep(s, b).Some?
    ensures ReplyBooks(RunStep(s, b).value, Record(l, s, RunDo(b), RunStep(s, b).value))
  {
    match b
    case RunTake => TakeKeepsReplies(s, l);
    case RunListen(port) => ListenKeepsReplies(s, port, l);
    case RunReplyTest => AnswerKeepsReplies(s, b, l);
    case RunReplySend => AnswerKeepsReplies(s, b, l);
    case _ => RestKeepsReplies(s, b, l);
  }

  /** Without a sweep, what the loop is about to make of the map is what the events leave. */
  lemma RunChangesMap(s: State, b: RunAction, es: seq<Event>)
    requires RunStep(s, b).Some? && (s.run.Registering? ==> Asked(es) == Some(s.run.name))
    ensures var s', before := RunStep(s, b).value, Upcoming(s.run, s.mgr.proxies);
            Upcoming(s'.run, s'.mgr.proxies)
            == if EventOf(s, b) == [] then before else Change(before, es, EventOf(s, b)[0])
    ensures Phase(RunStep(s, b).value) == Phase(s)
  {
  }

  lemma RunAsks(s: State, b: RunAction, es: seq<Event>)
    requires RunStep(s, b).Some? && (s.run.Registering? ==> Asked(es) == Some(s.run.name))
    ensures var s' := RunStep(s, b).value;
            s'.run.Registering? ==> Asked(es + EventOf(s, b)) == Some(s'.run.name)
  {
    assert es + [] == es;
  }

  lemma RunKeepsMap(s: State, b: RunAction, l: Log)
    requires MapBooks(s, l) && RunStep(s, b).Some?
    ensures MapBooks(RunStep(s, b).value, Record(l, s, RunDo(b), RunStep(s, b).value))
  {
    RunChangesMap(s, b, l.events);
    RunAsks(s, b, l.events);
    EventsExtend(s, b, l.events);
  }

  lemma EventsExtend(s: State, b: RunAction, es: seq<Event>)
    ensures |EventOf(s, b)| <= 1
    ensures Registered(es + EventOf(s, b))
         == if EventOf(s, b) == [] then Registered(es) else Change(Registered(es), es, EventOf(s, b)[0])
    ensures Requests(es + EventOf(s, b))
         == Requests(es) + if b.RunTake? && s.mgr.recvChan.buf != [] then [s.mgr.recvChan.buf[0]] else []
  {
    if EventOf(s, b) != [] { Extends(es, EventOf(s, b)[0]); } else { assert es + [] == es; }
  }

  /** The other goroutines change neither the dispatch loop nor the map, except for the sweep. */
  lemma OthersLeaveLoop(s: State, a: Action)
    requires CloseInv(s) && Step(s, a).Some? && !a.RunDo?
    ensures var s' := Step(s, a).value;
            && (s'.run == s.run || (s.run.Finished? && s'.run.DoneSent?))
            && (s.mgr.closed ==> s'.mgr.closed)
            && (!s.mgr.sendChan.IsOpen() ==> !s'.mgr.sendChan.IsOpen())
            && (Phase(s') < 7 ==> Phase(s) < 7 && s'.mgr.proxies == s.mgr.proxies)
  {
  }

  lemma OthersRecord(s: State, a: Action, s': State, l: Log)
    requires !a.RunDo?
    ensures var l' := Record(l, s, a, s');
            l'.events == l.events && l'.queued == l.queued && l'.dropped == l.dropped
  {
  }

  lemma OthersKeepReplies(s: State, a: Action, l: Log)
    requires CloseInv(s) && ReplyBooks(s, l) && MapBooks(s, l) && Step(s, a).Some? && !a.RunDo?
    ensures ReplyBooks(Step(s, a).value, Record(l, s, a, Step(s, a).value))
    ensures MapBooks(Step(s, a).value, Record(l, s, a, Step(s, a).value))
  {
    OthersLeaveLoop(s, a);
    OthersRecord(s, a, Step(s, a).value, l);
    LoopLeft(s, l, Step(s, a).value, Record(l, s, a, Step(s, a).value));
  }

  lemma LoopLeft(s: State, l: Log, s': State, l': Log)
    requires ReplyBooks(s, l) && MapBooks(s, l)
    requires l'.events == l.events && l'.queued == l.queued && l'.dropped == l.dropped
    requires s'.run == s.run || (s.run.Finished? && s'.run.DoneSent?)
    requires s.mgr.closed ==> s'.mgr.closed
    requires !s.mgr.sendChan.IsOpen() ==> !s'.mgr.sendChan.IsOpen()
    requires Phase(s') < 7 ==> Phase(s) < 7 && s'.mgr.proxies == s.mgr.proxies
    ensures ReplyBooks(s', l') && MapBooks(s', l')
  {
  }

  lemma RunKeepsRecv(s: State, b: RunAction, l: Log)
    requires RecvBooks(s, l) && RunStep(s, b).Some?
    ensures RecvBooks(RunStep(s, b).value, Record(l, s, RunDo(b), RunStep(s, b).value))
  {
    EventsExtend(s, b, l.events);
    RunTakesFront(s, b);
    var taken := if b.RunTake? && s.mgr.recvChan.buf != [] then [s.mgr.recvChan.buf[0]] else [];
    Regroup(Requests(l.events), taken, RunStep(s, b).value.mgr.recvChan.buf, InHand(s.recv), l.lost);
  }

  lemma Regroup<T>(a: seq<T>, b: seq<T>, c: seq<T>, d: seq<T>, e: seq<T>)
    ensures a + (b + c) + d + e == (a + b) + c + d + e
  {
  }

  lemma RunTakesFront(s: State, b: RunAction)
    requires RunStep(s, b).Some?
    ensures var s', buf := RunStep(s, b).value, s.mgr.recvChan.buf;
            && buf == (if b.RunTake? && buf != [] then [buf[0]] else []) + s'.mgr.recvChan.buf
            && s'.recv == s.recv && s'.mgr.closed == s.mgr.closed
  {
  }

  lemma RecvKeepsRecv(s: State, b: RecvAction, l: Log)
    requires CloseInv(s) && RecvBooks(s, l) && RecvStep(s, b).Some?
    ensures RecvBooks(RecvStep(s, b).value, Record(l, s, RecvDo(b), RecvStep(s, b).value))
  {
  }

  lemma OthersLeaveRecv(s: State, a: Action, l: Log)
    requires Step(s, a).Some? && !a.RunDo? && !a.RecvDo? && CloseInv(s)
    ensures var s' := Step(s, a).value;
            var l' := Record(l, s, a, s');
            && l'.got == l.got && l'.lost == l.lost && l'.events == l.events
            && s'.recv == s.recv && s'.mgr.recvChan.buf == s.mgr.recvChan.buf && (s.mgr.closed ==> s'.mgr.closed)
  {
  }

  lemma OthersKeepRecv(s: State, a: Action, l: Log)
    requires RecvBooks(s, l) && Step(s, a).Some? && !a.RunDo? && !a.RecvDo? && CloseInv(s)
    ensures RecvBooks(Step(s, a).value, Record(l, s, a, Step(s, a).value))
  {
    OthersLeaveRecv(s, a, l);
  }

  lemma SendKeepsSend(s: State, b: SendAction, l: Log)
    requires SendBooks(s, l) && SendStep(s, b).Some?
    ensures SendBooks(SendStep(s, b).value, Record(l, s, SendDo(b), SendStep(s, b).value))
  {
    var buf := s.mgr.sendChan.buf;
    if b.SendTake? && buf != [] { assert buf == [buf[0]] + buf[1..]; }
  }

  /** The other goroutines only append to the send channel. */
  lemma OthersAppend(s: State, a: Action)
    requires Step(s, a).Some? && !a.SendDo?
    ensures var b, b' := s.mgr.sendChan.buf, Step(s, a).value.mgr.sendChan.buf; b' == b + Added(b, b')
    ensures Step(s, a).value.send == s.send
  {
  }

  lemma OthersRecordSend(s: State, a: Action, s': State, l: Log)
    requires !a.SendDo?
    ensures var l' := Record(l, s, a, s');
            && l'.written == l.written && l'.failed == l.failed
            && l'.notices == l.notices + Added(s.mgr.sendChan.buf, s'.mgr.sendChan.buf)
  {
  }

  lemma AppendLast<T>(a: seq<T>, b: seq<T>, c: seq<T>, d: seq<T>, e: seq<T>)
    ensures a + b + c + d + e == a + b + c + (d + e)
  {
  }

  lemma OthersKeepSend(s: State, a: Action, l: Log)
    requires SendBooks(s, l) && Step(s, a).Some? && !a.SendDo?
    ensures SendBooks(Step(s, a).value, Record(l, s, a, Step(s, a).value))
  {
    var s' := Step(s, a).value;
    var b := s.mgr.sendChan.buf;
    OthersAppend(s, a);
    OthersRecordSend(s, a, s', l);
    AppendLast(l.written, l.failed, BeingSent(s.send), b, Added(b, s'.mgr.sendChan.buf));
  }

  ghost predicate Books(s: State, l: Log) {
    ReplyBooks(s, l) && MapBooks(s, l) && RecvBooks(s, l) && SendBooks(s, l)
  }

  lemma StepKeepsBooks(s: State, a: Action, l: Log)
    requires CloseInv(s) && Books(s, l) && Step(s, a).Some?
    ensures Books(Step(s, a).value, Record(l, s, a, Step(s, a).value))
  {
    match a
    case RunDo(b) =>
      RunKeepsReplies(s, b, l);
      RunKeepsMap(s, b, l);
      RunKeepsRecv(s, b, l);
      OthersKeepSend(s, a, l);
    case RecvDo(b) =>
      OthersKeepReplies(s, a, l);
      RecvKeepsRecv(s, b, l);
      OthersKeepSend(s, a, l);
    case SendDo(b) =>
      OthersKeepReplies(s, a, l);
      OthersKeepRecv(s, a, l);
      SendKeepsSend(s, b, l);
    case _ =>
      OthersKeepReplies(s, a, l);
      OthersKeepRecv(s, a, l);
      OthersKeepSend(s, a, l);
  }

  lemma {:induction false} RunKeepsBooks(s: State, run: seq<Action>, l: Log)
    requires CloseInv(s) && Books(s, l) && Exec(s, run).Some?
    ensures Books(Exec(s, run).value, RecordAll(l, s, run))
    decreases |run|
  {
    if run != [] {
      StepKeepsBooks(s, run[0], l);
      CloseKept(s, run[0]);
      var s' := Step(s, run[0]).value;
      RunKeepsBooks(s', run[1..], Record(l, s, run[0], s'));
    }
  }

  lemma BooksFromStart(me: nat, requested: int, run: seq<Action>)
    requires Exec(Init(me, requested), run).Some?
    ensures Books(Exec(Init(me, requested), run).value, RecordAll(EMPTY, Init(me, requested), run))
  {
    InitInv(me, requested);
    RunKeepsBooks(Init(me, requested), run, EMPTY);
  }

  // ---- Main results ----

  /**
   Over every run the replies queued are, in order, those that the requests taken call for: one beat per
   heartbeat request, and per registration its name and port, or an error exactly if nothing could
   listen. Missing at the end are only the replies dropped at closing and the one under way.
   */
  lemma RepliesAnswerRequests(me: nat, requested: int, run: seq<Action>)
    requires Exec(Init(me, requested), run).Some?
    ensures var s, l := Exec(Init(me, requested), run).value, RecordAll(EMPTY, Init(me, requested), run);
            && Owed(l.events) == l.queued + l.dropped + Pending(s.run)
            && (l.dropped != [] ==> s.mgr.closed)
  {
    BooksFromStart(me, requested, run);
  }

  /** Until the sweep the proxies are those that the requests taken leave, but for the change about to be made. */
  lemma ProxiesFollowRequests(me: nat, requested: int, run: seq<Action>)
    requires Exec(Init(me, requested), run).Some?
    ensures var s, l := Exec(Init(me, requested), run).value, RecordAll(EMPTY, Init(me, requested), run);
            Phase(s) < 7 ==> Registered(l.events) == Upcoming(s.run, s.mgr.proxies)
  {
    BooksFromStart(me, requested, run);
  }

  /** The requests taken are those read from the connection, in order, but for those waiting and one lost at closing. */
  lemma RequestsInOrder(me: nat, requested: int, run: seq<Action>)
    requires Exec(Init(me, requested), run).Some?
    ensures var s, l := Exec(Init(me, requested), run).value, RecordAll(EMPTY, Init(me, requested), run);
            && l.got == Requests(l.events) + s.mgr.recvChan.buf + InHand(s.recv) + l.lost
            && (l.lost != [] ==> s.mgr.closed && |l.lost| == 1)
  {
    BooksFromStart(me, requested, run);
  }

  /** What was written is what was queued, in order, but for what still waits and one failed write, the last. */
  lemma NoticesInOrder(me: nat, requested: int, run: seq<Action>)
    requires Exec(Init(me, requested), run).Some?
    ensures var s, l := Exec(Init(me, requested), run).value, RecordAll(EMPTY, Init(me, requested), run);
            && l.notices == l.written + l.failed + BeingSent(s.send) + s.mgr.sendChan.buf
            && (l.failed != [] ==> |l.failed| == 1 && s.send.SendStopped?)
  {
    BooksFromStart(me, requested, run);
  }

  // ---- Who is listened for ----

  /** The names for which a listener was opened. */
  function Listening(es: seq<Event>): set<Name> {
    if es == [] then {}
    else
      var before, e := es[..|es| - 1], es[|es| - 1];
      Listening(before) + if e.Listened? && e.port.Some? && Asked(before).Some? then {Asked(before).value} else {}
  }

  /** Only those names have listeners, only they are ever inserted, and only their users have handlers. */
  ghost predicate ListenBooks(s: State, es: seq<Event>) {
    && (s.run.Registering? ==> Asked(es) == Some(s.run.name))
    && (s.run.Inserting? ==> s.run.name in Listening(es))
    && s.mgr.listened == Listening(es)
    && s.mgr.announced <= Listening(es)
    && (forall h :: h in s.crowd.handlers ==> s.crowd.handlers[h].name in s.mgr.listened)
  }

  lemma ListeningGrows(es: seq<Event>, e: Event)
    ensures Listening(es + [e])
         == Listening(es) + if e.Listened? && e.port.Some? && Asked(es).Some? then {Asked(es).value} else {}
  {
    assert (es + [e])[..|es|] == es;
  }

  /** The name that a step of the dispatch loop begins to listen for. */
  function NewlyListened(s: State, b: RunAction): set<Name> {
    if b.RunListen? && b.port.Some? && s.run.Registering? then {s.run.name} else {}
  }

  lemma RunListens(s: State, b: RunAction)
    requires RunStep(s, b).Some?
    ensures var s' := RunStep(s, b).value;
            && s'.mgr.listened == s.mgr.listened + NewlyListened(s, b)
            && s'.mgr.announced == s.mgr.announced + (if s.run.Inserting? && b.RunInsert? then {s.run.name} else {})
            && (s'.run.Inserting? ==> s'.run.name in NewlyListened(s, b))
            && s'.crowd == s.crowd
  {
  }

  lemma EventsListen(s: State, b: RunAction, es: seq<Event>)
    requires RunStep(s, b).Some? && (s.run.Registering? ==> Asked(es) == Some(s.run.name))
    ensures Listening(es + EventOf(s, b)) == Listening(es) + NewlyListened(s, b)
  {
    if EventOf(s, b) != [] { ListeningGrows(es, EventOf(s, b)[0]); } else { assert es + [] == es; }
  }

  lemma RunKeepsListening(s: State, b: RunAction, es: seq<Event>)
    requires ListenBooks(s, es) && RunStep(s, b).Some?
    ensures ListenBooks(RunStep(s, b).value, es + EventOf(s, b))
  {
    RunListens(s, b);
    EventsListen(s, b, es);
    RunAsks(s, b, es);
    ListenCarries(s, RunStep(s, b).value, es, es + EventOf(s, b), NewlyListened(s, b));
  }

  lemma ListenCarries(s: State, s': State, es: seq<Event>, es': seq<Event>, more: set<Name>)
    requires ListenBooks(s, es) && (s'.run.Registering? ==> Asked(es') == Some(s'.run.name))
    requires Listening(es') == Listening(es) + more && s'.mgr.listened == s.mgr.listened + more
    requires s'.mgr.announced <= s.mgr.announced + (if s.run.Inserting? then {s.run.name} else {})
    requires (s'.run.Inserting? ==> s'.run.name in more) && s'.crowd == s.crowd
    ensures ListenBooks(s', es')
  {
  }

  /** The other goroutines open no listener, and accept users only where there is one. */
  lemma OthersListen(s: State, a: Action)
    requires Step(s, a).Some? && !a.RunDo?
    ensures var s' := Step(s, a).value;
            && s'.mgr.listened == s.mgr.listened && s'.mgr.announced == s.mgr.announced
            && (s'.run == s.run || (!s'.run.Registering? && !s'.run.Inserting?))
            && (!a.HandlerDo? ==> s'.crowd.handlers == s.crowd.handlers)
  {
  }

  lemma HandlersListen(s: State, h: nat, a: HandlerAction, k: nat)
    requires HandlerStep(s, h, a).Some? && k in HandlerStep(s, h, a).value.crowd.handlers
    requires k in s.crowd.handlers ==> s.crowd.handlers[k].name in s.mgr.listened
    ensures HandlerStep(s, h, a).value.crowd.handlers[k].name in s.mgr.listened
  {
  }

  lemma OthersKeepListening(s: State, a: Action, es: seq<Event>)
    requires ListenBooks(s, es) && Step(s, a).Some? && !a.RunDo?
    ensures ListenBooks(Step(s, a).value, es)
  {
    var s' := Step(s, a).value;
    OthersListen(s, a);
    if a.HandlerDo? {
      forall k | k in s'.crowd.handlers ensures s'.crowd.handlers[k].name in s.mgr.listened {
        HandlersListen(s, a.h, a.handler, k);
      }
    }
  }

  lemma {:induction false} AllListened(s: State, run: seq<Action>, l: Log)
    requires ListenBooks(s, l.events) && Exec(s, run).Some?
    ensures ListenBooks(Exec(s, run).value, RecordAll(l, s, run).events)
    decreases |run|
  {
    if run != [] {
      var s' := Step(s, run[0]).value;
      if run[0].RunDo? {
        RunKeepsListening(s, run[0].run, l.events);
      } else {
        OthersKeepListening(s, run[0], l.events);
      }
      AllListened(s', run[1..], Record(l, s, run[0], s'));
    }
  }

  /** Over every run users are accepted only for names whose registration was asked for and opened a listener. */
  lemma UsersComeWhereListening(me: nat, requested: int, run: seq<Action>, h: nat)
    requires Exec(Init(me, requested), run).Some?
    requires h in Exec(Init(me, requested), run).value.crowd.handlers
    ensures var s, l := Exec(Init(me, requested), run).value, RecordAll(EMPTY, Init(me, requested), run);
            && s.crowd.handlers[h].name in Listening(l.events)
            && s.mgr.proxies.Keys <= s.mgr.announced <= Listening(l.events)
  {
    AllListened(Init(me, requested), run, EMPTY);
    ProxiesAnnounced(Init(me, requested), run);
  }

  lemma {:induction false} ProxiesAnnounced(s: State, run: seq<Action>)
    requires s.mgr.proxies.Keys <= s.mgr.announced && Exec(s, run).Some?
    ensures Exec(s, run).value.mgr.proxies.Keys <= Exec(s, run).value.mgr.announced
    decreases |run|
  {
    if run != [] {
      StepAnnounces(s, run[0]);
      ProxiesAnnounced(Step(s, run[0]).value, run[1..]);
    }
  }

  lemma StepAnnounces(s: State, a: Action)
    requires s.mgr.proxies.Keys <= s.mgr.announced && Step(s, a).Some?
    ensures Step(s, a).value.mgr.proxies.Keys <= Step(s, a).value.mgr.announced
  {
  }

  // ---- Nothing new is said after closing ----

  function Asking(s: State): set<nat> { set h | h in s.crowd.handlers && s.crowd.handlers[h].pc.RequestSend? }

  /** The goroutines that have found the manager open and are about to send. */
  function Senders(s: State): nat { Bit(s.run.InitSend? || s.run.ReplySend?) + |Asking(s)| + s.crowd.pingers }

  lemma HandlerSends(s: State, h: nat, a: HandlerAction)
    requires s.mgr.closed && HandlerStep(s, h, a).Some?
    ensures var s' := HandlerStep(s, h, a).value;
            && Asking(s') == (if a.HandlerSend? then Asking(s) - {h} else Asking(s))
            && (a.HandlerSend? ==> h in Asking(s))
            && s'.run == s.run && s'.crowd.pingers == s.crowd.pingers && s'.mgr.closed
            && |Added(s.mgr.sendChan.buf, s'.mgr.sendChan.buf)| <= Bit(a.HandlerSend?)
  {
  }

  /** A closed manager only uses up its senders. */
  lemma StepUsesSenders(s: State, a: Action)
    requires s.mgr.closed && Step(s, a).Some?
    ensures var s' := Step(s, a).value;
            s'.mgr.closed && Senders(s') + |Added(s.mgr.sendChan.buf, s'.mgr.sendChan.buf)| <= Senders(s)
  {
    if a.HandlerDo? {
      HandlerSends(s, a.h, a.handler);
    } else {
      NoHandlerSends(s, a);
      assert Asking(Step(s, a).value) == Asking(s);
    }
  }

  lemma NoHandlerSends(s: State, a: Action)
    requires s.mgr.closed && Step(s, a).Some? && !a.HandlerDo?
    ensures var s' := Step(s, a).value;
            && s'.crowd.handlers == s.crowd.handlers && s'.mgr.closed
            && Bit(s'.run.InitSend? || s'.run.ReplySend?) + s'.crowd.pingers
               + |Added(s.mgr.sendChan.buf, s'.mgr.sendChan.buf)|
               <= Bit(s.run.InitSend? || s.run.ReplySend?) + s.crowd.pingers
  {
  }

  /**
   Once a manager is closed nobody begins to send: in any further run no more notices are queued than
   there were goroutines between their test of the flag and their send.
   */
  lemma {:induction false} ClosingStopsSends(s: State, run: seq<Action>, l: Log)
    requires s.mgr.closed && Exec(s, run).Some?
    ensures |RecordAll(l, s, run).notices| + Senders(Exec(s, run).value) <= |l.notices| + Senders(s)
    decreases |run|
  {
    if run != [] {
      StepUsesSenders(s, run[0]);
      var s' := Step(s, run[0]).value;
      RecordAdds(l, s, run[0], s');
      ClosingStopsSends(s', run[1..], Record(l, s, run[0], s'));
    }
  }

  lemma RecordAdds(l: Log, s: State, a: Action, s': State)
    ensures Record(l, s, a, s').notices == l.notices + Added(s.mgr.sendChan.buf, s'.mgr.sendChan.buf)
  {
  }
}
