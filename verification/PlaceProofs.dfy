/**
 The places of pipe requests: the channels, pools and handlers of every manager hold a token exactly
 when `place` says so, whatever the interleaving and whatever ids clients hold.
 */
module PlaceProofs {
  import opened Basics
  import opened Options
  import opened ManagerMachine
  import opened ProxySystem

  predicate At(place: map<Token, Place>, t: Token, p: Place) { t in place && place[t] == p }

  // What a manager's own fields say about a token.

  predicate InSendQueue(x: State, t: Token) { PipeRequest(t) in x.mgr.sendChan.buf }

  predicate IsWriting(x: State, t: Token) { x.send == WritingNotice(PipeRequest(t)) }

  predicate IsPushing(x: State, t: Token) { t in x.crowd.pushers }

  predicate InPool(x: State, t: Token) { t in x.mgr.pool.buf }

  predicate HandlerAt(x: State, h: nat, pc: HandlerPc) { h in x.crowd.handlers && x.crowd.handlers[h].pc == pc }

  /** No pipe request occurs twice. */
  ghost predicate NoRepeats(buf: seq<Notice>) {
    forall i, j :: 0 <= i < j < |buf| && buf[i].PipeRequest? ==> buf[i] != buf[j]
  }

  ghost predicate QueueAgrees(x: State, place: map<Token, Place>) {
    && NoRepeats(x.mgr.sendChan.buf)
    && forall t :: InSendQueue(x, t) <==> At(place, t, InQueue(x.me))
  }

  ghost predicate WriterAgrees(x: State, place: map<Token, Place>) {
    forall t :: IsWriting(x, t) <==> At(place, t, BeingWritten(x.me))
  }

  ghost predicate PushersAgree(x: State, place: map<Token, Place>) {
    forall t :: IsPushing(x, t) <==> At(place, t, Pushing(x.me))
  }

  ghost predicate PoolAgrees(x: State, place: map<Token, Place>) {
    && Distinct(x.mgr.pool.buf)
    && forall t :: InPool(x, t) <==> At(place, t, Pooled(x.me))
  }

  /** A handler with a popped pipe is either still writing its request or has joined. */
  function PcFor(joined: bool, t: Token): HandlerPc { if joined then Joined(t) else WritingRequest(t) }

  function PlaceFor(joined: bool, m: nat, h: nat): Place { if joined then Carrying(m, h) else Held(m, h) }

  ghost predicate HandlersAgree(x: State, place: map<Token, Place>) {
    forall t, h, joined :: HandlerAt(x, h, PcFor(joined, t)) <==> At(place, t, PlaceFor(joined, x.me, h))
  }

  /** The dispatch loop answers with anything but a pipe request. */
  predicate RepliesProperly(x: State) {
    (x.run.ReplyTest? || x.run.ReplySend? ==> !x.run.reply.PipeRequest?)
  }

  ghost predicate ManagerAgrees(x: State, place: map<Token, Place>) {
    && RepliesProperly(x)
    && QueueAgrees(x, place)
    && WriterAgrees(x, place)
    && PushersAgree(x, place)
    && PoolAgrees(x, place)
    && HandlersAgree(x, place)
  }

  /** What the system guarantees before a manager's step: a pushed pipe is in transit, a new token is new. */
  ghost predicate Clean(x: State, place: map<Token, Place>, a: Action) {
    && Token(x.me, x.Issued()) !in place
    && (a.PushDo? && a.push.PushBegin? ==> At(place, a.pipe, InTransit))
  }

  /** Where the token that a step moves was before; `None` for a token issued by this step. */
  function Origin(x: State, a: Action): Option<Place> {
    match a
    case HandlerDo(h, Pop) => Some(Pooled(x.me))
    case HandlerDo(h, RequestWritten(_)) => Some(Held(x.me, h))
    case SendDo(SendTake) => Some(InQueue(x.me))
    case SendDo(SendWrite(_)) => Some(BeingWritten(x.me))
    case PushDo(_, PushBegin) => Some(InTransit)
    case PushDo(_, _) => Some(Pushing(x.me))
    case _ => None
  }

  lemma MovedFromOrigin(x: State, place: map<Token, Place>, a: Action)
    requires ManagerAgrees(x, place) && Clean(x, place, a) && Step(x, a).Some? && Moved(x, a).Some?
    ensures var t := Moved(x, a).value.token;
            if Origin(x, a).Some? then At(place, t, Origin(x, a).value) else t !in place
  {
    var t := Moved(x, a).value.token;
    match a
    case SendDo(SendTake) => assert InSendQueue(x, t);
    case SendDo(SendWrite(_)) => assert IsWriting(x, t);
    case HandlerDo(h, Pop) => assert InPool(x, t);
    case HandlerDo(h, RequestWritten(_)) => assert HandlerAt(x, h, PcFor(false, t));
    case PushDo(p, b) => if !b.PushBegin? { assert IsPushing(x, p); }
    case _ =>
  }

  lemma TailMembers<T>(s: seq<T>, y: T)
    requires s != [] && s[0] !in s[1..]
    ensures y in s[1..] <==> y in s && y != s[0]
  {
    assert s == [s[0]] + s[1..];
  }

  lemma NoticeTail(b: seq<Notice>)
    requires b != [] && NoRepeats(b)
    ensures NoRepeats(b[1..])
    ensures forall t :: PipeRequest(t) in b[1..] <==> PipeRequest(t) in b && PipeRequest(t) != b[0]
  {
    forall t
      ensures PipeRequest(t) in b[1..] <==> PipeRequest(t) in b && PipeRequest(t) != b[0]
    {
      assert b == [b[0]] + b[1..];
    }
  }

  lemma NoticeAppended(b: seq<Notice>, n: Notice)
    requires NoRepeats(b) && (n.PipeRequest? ==> n !in b)
    ensures NoRepeats(b + [n])
    ensures forall t :: PipeRequest(t) in b + [n] <==> PipeRequest(t) in b || PipeRequest(t) == n
  {
  }

  /** Whether a step puts a notice in the send channel, and which. */
  predicate Enqueues(x: State, a: Action) {
    && x.mgr.sendChan.IsOpen()
    && (|| a == RunDo(RunReqSend) || a == RunDo(RunReplySend) || a == PingDo(PingSend)
        || (a.HandlerDo? && a.handler == HandlerSend))
  }

  function Enqueued(x: State, a: Action): Notice {
    if a == RunDo(RunReplySend) then (if x.run.ReplySend? then x.run.reply else Beat)
    else if a.PingDo? then Beat
    else PipeRequest(Token(x.me, x.Issued()))
  }

  lemma QueueEffect(x: State, a: Action)
    requires Step(x, a).Some?
    ensures var b := x.mgr.sendChan.buf;
            Step(x, a).value.mgr.sendChan.buf
            == if a == SendDo(SendTake) && b != [] then b[1..]
               else if Enqueues(x, a) then b + [Enqueued(x, a)] else b
    ensures Step(x, a).value.me == x.me
  {
  }

  lemma QueueKept(x: State, place: map<Token, Place>, a: Action)
    requires ManagerAgrees(x, place) && Clean(x, place, a) && Step(x, a).Some?
    ensures QueueAgrees(Step(x, a).value, Relocate(place, Moved(x, a)))
  {
    var x', b := Step(x, a).value, x.mgr.sendChan.buf;
    QueueEffect(x, a);
    if Moved(x, a).Some? { MovedFromOrigin(x, place, a); }
    if a == SendDo(SendTake) && b != [] {
      NoticeTail(b);
    } else if Enqueues(x, a) {
      assert !At(place, Token(x.me, x.Issued()), InQueue(x.me));
      assert !InSendQueue(x, Token(x.me, x.Issued()));
      NoticeAppended(b, Enqueued(x, a));
    }
    forall t
      ensures InSendQueue(x', t) <==> At(Relocate(place, Moved(x, a)), t, InQueue(x.me))
    {
      assert InSendQueue(x, t) <==> At(place, t, InQueue(x.me));
    }
  }

  lemma WriterKept(x: State, place: map<Token, Place>, a: Action)
    requires ManagerAgrees(x, place) && Clean(x, place, a) && Step(x, a).Some?
    ensures WriterAgrees(Step(x, a).value, Relocate(place, Moved(x, a)))
  {
    var x' := Step(x, a).value;
    if Moved(x, a).Some? { MovedFromOrigin(x, place, a); }
    forall t
      ensures IsWriting(x', t) <==> At(Relocate(place, Moved(x, a)), t, BeingWritten(x'.me))
    {
      assert IsWriting(x, t) <==> At(place, t, BeingWritten(x.me));
    }
  }

  lemma PushersKept(x: State, place: map<Token, Place>, a: Action)
    requires ManagerAgrees(x, place) && Clean(x, place, a) && Step(x, a).Some?
    ensures PushersAgree(Step(x, a).value, Relocate(place, Moved(x, a)))
  {
    var x' := Step(x, a).value;
    if Moved(x, a).Some? { MovedFromOrigin(x, place, a); }
    forall t
      ensures IsPushing(x', t) <==> At(Relocate(place, Moved(x, a)), t, Pushing(x'.me))
    {
      assert IsPushing(x, t) <==> At(place, t, Pushing(x.me));
    }
  }

  lemma PoolEffect(x: State, a: Action)
    requires Step(x, a).Some?
    ensures var b := x.mgr.pool.buf;
            Step(x, a).value.mgr.pool.buf
            == if a.HandlerDo? && a.handler.Pop? && b != [] then b[1..]
               else if a.PushDo? && a.push.PushPut? && PoolAccepts(x.mgr) then b + [a.pipe] else b
    ensures Step(x, a).value.me == x.me
  {
  }

  lemma PoolKept(x: State, place: map<Token, Place>, a: Action)
    requires ManagerAgrees(x, place) && Clean(x, place, a) && Step(x, a).Some?
    ensures PoolAgrees(Step(x, a).value, Relocate(place, Moved(x, a)))
  {
    var x', b := Step(x, a).value, x.mgr.pool.buf;
    if Moved(x, a).Some? { MovedFromOrigin(x, place, a); }
    PoolEffect(x, a);
    if a.PushDo? { assert InPool(x, a.pipe) <==> At(place, a.pipe, Pooled(x.me)); }
    forall t
      ensures InPool(x', t) <==> At(Relocate(place, Moved(x, a)), t, Pooled(x.me))
    {
      assert InPool(x, t) <==> At(place, t, Pooled(x.me));
      if b != [] { TailMembers(b, t); }
    }
  }

  lemma HandlerEffect(x: State, a: Action, h: nat)
    requires Step(x, a).Some? && !(a.HandlerDo? && a.h == h)
    ensures h in Step(x, a).value.crowd.handlers <==> h in x.crowd.handlers
    ensures h in x.crowd.handlers ==> Step(x, a).value.crowd.handlers[h] == x.crowd.handlers[h]
    ensures Step(x, a).value.me == x.me
  {
  }

  lemma OwnHandlerKept(x: State, place: map<Token, Place>, a: Action, t: Token, joined: bool)
    requires ManagerAgrees(x, place) && Clean(x, place, a) && a.HandlerDo? && Step(x, a).Some?
    ensures HandlerAt(Step(x, a).value, a.h, PcFor(joined, t))
            <==> At(Relocate(place, Moved(x, a)), t, PlaceFor(joined, x.me, a.h))
  {
    if Moved(x, a).Some? { MovedFromOrigin(x, place, a); }
    assert HandlerAt(x, a.h, PcFor(joined, t)) <==> At(place, t, PlaceFor(joined, x.me, a.h));
    assert forall t' :: a.handler.RequestWritten? && HandlerAt(x, a.h, PcFor(false, t')) ==>
                          Moved(x, a).value.token == t';
  }

  lemma OtherHandlersKept(x: State, place: map<Token, Place>, a: Action, t: Token, h: nat, joined: bool)
    requires ManagerAgrees(x, place) && Clean(x, place, a) && Step(x, a).Some? && !(a.HandlerDo? && a.h == h)
    ensures At(place, t, PlaceFor(joined, x.me, h)) <==> At(Relocate(place, Moved(x, a)), t, PlaceFor(joined, x.me, h))
  {
    if Moved(x, a).Some? { MovedFromOrigin(x, place, a); }
  }

  lemma HandlersKept(x: State, place: map<Token, Place>, a: Action)
    requires ManagerAgrees(x, place) && Clean(x, place, a) && Step(x, a).Some?
    ensures HandlersAgree(Step(x, a).value, Relocate(place, Moved(x, a)))
  {
    var x' := Step(x, a).value;
    PoolEffect(x, a);
    forall t, h, joined
      ensures HandlerAt(x', h, PcFor(joined, t)) <==> At(Relocate(place, Moved(x, a)), t, PlaceFor(joined, x.me, h))
    {
      assert HandlerAt(x, h, PcFor(joined, t)) <==> At(place, t, PlaceFor(joined, x.me, h));
      if a.HandlerDo? && a.h == h {
        OwnHandlerKept(x, place, a, t, joined);
      } else {
        HandlerEffect(x, a, h);
        OtherHandlersKept(x, place, a, t, h, joined);
      }
    }
  }

  lemma RepliesKept(x: State, a: Action)
    requires RepliesProperly(x) && Step(x, a).Some?
    ensures RepliesProperly(Step(x, a).value) && Step(x, a).value.me == x.me
  {
  }

  /** A manager's step moves at most one token, and its fields still hold exactly the tokens placed there. */
  lemma ManagerStepAgrees(x: State, place: map<Token, Place>, a: Action)
    requires ManagerAgrees(x, place) && Clean(x, place, a) && Step(x, a).Some?
    ensures ManagerAgrees(Step(x, a).value, Relocate(place, Moved(x, a)))
  {
    RepliesKept(x, a);
    QueueKept(x, place, a);
    WriterKept(x, place, a);
    PushersKept(x, place, a);
    PoolKept(x, place, a);
    HandlersKept(x, place, a);
  }

  // ---- The rest of the system ----

  /** The manager in whose own fields a token at this place is. */
  function Inside(p: Place): Option<nat> {
    if p.InQueue? || p.BeingWritten? || p.Pushing? || p.Pooled? || p.Held? || p.Carrying? then Some(p.m) else None
  }

  /** Moving a token that is not in a manager to somewhere else than that manager does not concern it. */
  lemma BystanderAgrees(y: State, place: map<Token, Place>, t: Token, p: Place)
    requires ManagerAgrees(y, place)
    requires t in place ==> Inside(place[t]) != Some(y.me)
    requires Inside(p) != Some(y.me)
    ensures ManagerAgrees(y, place[t := p])
  {
    var place' := place[t := p];
    forall u, q | Inside(q) == Some(y.me)
      ensures At(place', u, q) <==> At(place, u, q)
    {
    }
    forall u ensures InSendQueue(y, u) <==> At(place', u, InQueue(y.me)) {
      assert InSendQueue(y, u) <==> At(place, u, InQueue(y.me));
    }
    forall u ensures IsWriting(y, u) <==> At(place', u, BeingWritten(y.me)) {
      assert IsWriting(y, u) <==> At(place, u, BeingWritten(y.me));
    }
    forall u ensures IsPushing(y, u) <==> At(place', u, Pushing(y.me)) {
      assert IsPushing(y, u) <==> At(place, u, Pushing(y.me));
    }
    forall u ensures InPool(y, u) <==> At(place', u, Pooled(y.me)) {
      assert InPool(y, u) <==> At(place, u, Pooled(y.me));
    }
    forall u, h, joined
      ensures HandlerAt(y, h, PcFor(joined, u)) <==> At(place', u, PlaceFor(joined, y.me, h))
    {
      assert HandlerAt(y, h, PcFor(joined, u)) <==> At(place, u, PlaceFor(joined, y.me, h));
    }
  }

  predicate OnLink(link: Link, t: Token) { Note(PipeRequest(t)) in link.toClient }

  ghost predicate NoRepeatedFrames(fs: seq<Frame>) {
    forall i, j :: 0 <= i < j < |fs| && fs[i].Note? && fs[i].msg.PipeRequest? ==> fs[i] != fs[j]
  }

  ghost predicate LinkAgrees(link: Link, m: nat, place: map<Token, Place>) {
    && NoRepeatedFrames(link.toClient)
    && forall t :: OnLink(link, t) <==> At(place, t, OnWire(m))
  }
}
