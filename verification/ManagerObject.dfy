/**
 The manager, its proxies and the server's table as the objects they are in the program, each method
 one call that nothing interrupts. Every method is tied to the transition system of `ManagerMachine`:
 what a call does is what its steps do when they run one after the other.
 */
module ManagerObject {
  import opened Channels
  import opened Options
  import M = ManagerMachine

  class Proxy {
    const name: M.Name
    const port: M.Port
    var listening: bool

    constructor (name: M.Name, port: M.Port)
      ensures this.name == name && this.port == port && listening
    {
      this.name, this.port, listening := name, port, true;
    }

    method Close()
      modifies this
      ensures !listening
    {
      listening := false;
    }
  }

  datatype PushError = ErrMgrClosed | ErrPoolFull

  class Manager {
    const id: string
    const poolSize: nat
    var closed: bool
    var connOpen: bool
    var recvChan: Chan<M.Request>
    var sendChan: Chan<M.Notice>
    var pipeConnPool: Chan<M.Token>
    var proxies: map<M.Name, Proxy>
    ghost var listened: set<M.Name>
    ghost var announced: set<M.Name>

    /** A manager that is not closed has open channels: closing them again cannot panic. */
    ghost predicate Valid()
      reads this
    {
      && (forall n | n in proxies :: proxies[n].name == n)
      && sendChan.closes == recvChan.closes == pipeConnPool.closes == if closed then 1 else 0
    }

    /** The manager as a value of the transition system. */
    ghost function View(): M.Fields
      reads this
    {
      M.Fields(closed, connOpen, recvChan, sendChan, pipeConnPool,
               map n | n in proxies :: proxies[n].port, listened, announced)
    }

    constructor (id: string, requested: int)
      ensures Valid() && this.id == id && fresh(proxies.Values)
      ensures forall me :: View() == M.Init(me, requested).mgr && poolSize == M.Init(me, requested).poolSize
    {
      var size := 2;
      if requested > 0 {
        size := requested;
      }
      if size > 8 {
        size := 8;
      }
      this.id := id;
      poolSize := size;
      closed, connOpen, proxies, listened, announced := false, true, map[], {}, {};
      recvChan := Chan([], 10, 0);
      sendChan := Chan([], 10, 0);
      pipeConnPool := Chan([], size * 2, 0);
    }

    /** RegisterProxy after `NewProxy` has succeeded: an entry of the same name is replaced, its listener stays open. */
    method RegisterProxy(proxy: Proxy) returns (reply: M.Notice)
      requires Valid()
      modifies this
      ensures Valid()
      ensures View() == M.InsertProxy(old(View()), proxy.name, proxy.port)
      ensures proxies == old(proxies)[proxy.name := proxy]
      ensures reply == M.ProxyOk(proxy.name, proxy.port)
    {
      proxies := proxies[proxy.name := proxy];
      announced := announced + {proxy.name};
      reply := M.ProxyOk(proxy.name, proxy.port);
    }

    method RemoveProxy(name: M.Name)
      requires Valid()
      modifies this, proxies.Values
      ensures Valid()
      ensures View() == M.RemoveProxy(old(View()), name)
      ensures proxies == old(proxies) - {name}
      ensures name in old(proxies) ==> !old(proxies)[name].listening
      ensures forall p: Proxy | p in old(proxies.Values) && (name in old(proxies) ==> p != old(proxies)[name]) ::
                p.listening == old(p.listening)
    {
      if name !in proxies {
        return;
      }
      var proxy := proxies[name];
      proxies := proxies - {name};
      proxy.Close();
    }

    /** The pipe is stored exactly if the manager is open and its pool has room; otherwise nothing changes. */
    method PushPipeConn(pipe: M.Token) returns (err: Option<PushError>)
      requires Valid()
      modifies this
      ensures Valid() && proxies == old(proxies)
      ensures View() == AfterPush(old(View()), pipe)
      ensures err.None? <==> !old(closed) && !old(pipeConnPool).IsFull()
      ensures err == Some(ErrMgrClosed) <==> old(closed)
    {
      if closed {
        return Some(ErrMgrClosed);
      }
      if |pipeConnPool.buf| < pipeConnPool.cap {
        pipeConnPool := pipeConnPool.Sent(pipe);
        return None;
      }
      return Some(ErrPoolFull);
    }

    /** `Close` runs its body once; each channel is closed once and every listener in the map is closed. */
    method Close()
      requires Valid()
      modifies this, proxies.Values
      ensures Valid() && closed
      ensures View() == AfterClose(old(View()), M.Test)
      ensures !old(closed) ==> proxies == map[] && forall p: Proxy | p in old(proxies.Values) :: !p.listening
      ensures old(closed) ==> proxies == old(proxies)
      ensures old(closed) ==> forall p: Proxy | p in old(proxies.Values) :: p.listening == old(p.listening)
    {
      CloseAllAtOnce(View());
      if closed {
        return;
      }
      closed := true;
      connOpen := false;
      sendChan := sendChan.Closed();
      recvChan := recvChan.Closed();
      pipeConnPool := pipeConnPool.Closed();
      Sweep();
    }

    /** The loop of `Close` over the map of proxies. */
    method Sweep()
      modifies this`proxies, proxies.Values
      ensures proxies == map[]
      ensures forall p: Proxy | p in old(proxies.Values) :: !p.listening
    {
      ghost var all := proxies.Values;
      while proxies != map[]
        invariant proxies.Values <= all
        invariant forall p: Proxy | p in all && p !in proxies.Values :: !p.listening
        decreases |proxies|
      {
        assert proxies.Keys != {};
        var k :| k in proxies;
        var proxy := proxies[k];
        proxy.Close();
        ghost var before := proxies;
        proxies := proxies - {k};
        RemovedKey(before, k);
      }
    }
  }

  /** Removing a key loses at most its own value. */
  lemma RemovedKey(m: map<M.Name, Proxy>, k: M.Name)
    requires k in m
    ensures (m - {k}).Values <= m.Values <= (m - {k}).Values + {m[k]}
    ensures |m - {k}| < |m|
  {
    forall p | p in m.Values && p != m[k] ensures p in (m - {k}).Values {
      var n :| n in m && m[n] == p;
      assert n in m - {k} && (m - {k})[n] == p;
    }
    assert m.Keys == (m - {k}).Keys + {k};
    assert |m.Keys| == |m| && |(m - {k}).Keys| == |m - {k}|;
  }

  // ---- The methods are runs of the machine ----

  /** The manager when `Close`, now at `pc`, has returned. */
  function AfterClose(m: M.Fields, pc: M.ClosePc): M.Fields
    decreases StepsLeft(pc)
  {
    if pc.Returned? then m else AfterClose(M.CloseEffect(m, pc), M.CloseNext(m, pc))
  }

  function StepsLeft(pc: M.ClosePc): nat {
    match pc
    case Test => 7
    case SetFlag => 6
    case CloseConn => 5
    case CloseSend => 4
    case CloseRecv => 3
    case ClosePool => 2
    case Sweep => 1
    case Returned => 0
  }

  lemma CloseAllAtOnce(m: M.Fields)
    ensures AfterClose(m, M.Test) ==
            if m.closed then m
            else m.(closed := true, connOpen := false, sendChan := m.sendChan.Closed(), recvChan := m.recvChan.Closed(),
                    pool := m.pool.Closed(), proxies := map[])
  {
  }

  function CloseSteps(m: M.Fields, pc: M.ClosePc): seq<M.Action>
    decreases StepsLeft(pc)
  {
    if pc.Returned? then [] else [M.RecvDo(M.RecvClose)] + CloseSteps(M.CloseEffect(m, pc), M.CloseNext(m, pc))
  }

  /** `Manager.Close` is the uninterrupted run of the closing steps of awaitReceive. */
  lemma {:induction false} CloseIsARun(s: M.State)
    requires s.recv.RecvClosing?
    ensures M.Exec(s, CloseSteps(s.mgr, s.recv.pc))
         == Some(s.(mgr := AfterClose(s.mgr, s.recv.pc), recv := M.RecvClosing(M.Returned)))
    decreases StepsLeft(s.recv.pc)
  {
    if !s.recv.pc.Returned? {
      var s' := M.Step(s, M.RecvDo(M.RecvClose)).value;
      CloseIsARun(s');
      assert CloseSteps(s.mgr, s.recv.pc)[1..] == CloseSteps(s'.mgr, s'.recv.pc);
    }
  }

  function AfterPush(m: M.Fields, pipe: M.Token): M.Fields {
    if !m.closed && M.PoolAccepts(m) then m.(pool := m.pool.Sent(pipe)) else m
  }

  /** `PushPipeConn` is the uninterrupted run of its two steps, or of one if the manager is closed. */
  lemma PushIsARun(s: M.State, pipe: M.Token)
    requires pipe in s.crowd.pushers && s.crowd.pushers[pipe].PushTest?
    ensures var run := if s.mgr.closed then [M.PushDo(pipe, M.PushCheck)]
                       else [M.PushDo(pipe, M.PushCheck), M.PushDo(pipe, M.PushPut)];
            && M.Exec(s, run).Some?
            && M.Exec(s, run).value.mgr == AfterPush(s.mgr, pipe)
            && M.Exec(s, run).value.crowd.pushers == s.crowd.pushers - {pipe}
  {
    var s1 := M.Step(s, M.PushDo(pipe, M.PushCheck)).value;
    if s.mgr.closed {
      assert [M.PushDo(pipe, M.PushCheck)][1..] == [];
    } else {
      var put := [M.PushDo(pipe, M.PushPut)];
      var s2 := M.Step(s1, put[0]).value;
      assert put[1..] == [];
      assert M.Exec(s1, put) == Some(s2);
      assert [M.PushDo(pipe, M.PushCheck), M.PushDo(pipe, M.PushPut)][1..] == put;
      assert s1.crowd.pushers - {pipe} == s.crowd.pushers - {pipe};
    }
  }

  // ---- Proxy.handle ----

  /** What one round of the retry loop meets. */
  datatype Attempt = PopFailed | WriteFailed(pipe: M.Token) | Written(pipe: M.Token)

  /**
   The rounds are exactly those up to the first that does not fail to write, and at most three; every
   pipe popped is closed, in order, except the one that is joined.
   */
  method Handle(attempt: nat -> Attempt) returns (closedPipes: seq<M.Token>, joined: Option<M.Token>)
    ensures |closedPipes| <= M.MAX_RETRIES
    ensures forall i | 0 <= i < |closedPipes| :: attempt(i) == WriteFailed(closedPipes[i])
    ensures joined.Some? ==> |closedPipes| < M.MAX_RETRIES && attempt(|closedPipes|) == Written(joined.value)
    ensures joined.None? ==> |closedPipes| == M.MAX_RETRIES || attempt(|closedPipes|) == PopFailed
  {
    closedPipes, joined := [], None;
    for retry := 0 to 3
      invariant |closedPipes| == retry && joined == None
      invariant forall i | 0 <= i < retry :: attempt(i) == WriteFailed(closedPipes[i])
    {
      match attempt(retry) {
        case PopFailed =>
          return;
        case WriteFailed(pipe) =>
          closedPipes := closedPipes + [pipe];
        case Written(pipe) =>
          joined := Some(pipe);
          return;
      }
    }
  }

  // ---- The server's table ----

  class Server {
    var managers: map<string, Manager>

    /** Each manager stands under its own id, so no two entries share one. */
    ghost predicate Valid()
      reads this, managers.Values
    {
      forall id | id in managers :: managers[id].id == id && managers[id].Valid()
    }

    constructor ()
      ensures Valid() && managers == map[]
    {
      managers := map[];
    }

    /** The first of the drawn keys that no live manager has; the loop goes on while there is none. */
    method GenId(draws: seq<string>) returns (key: Option<string>)
      ensures key.Some? ==> key.value !in managers && exists k ::
                && 0 <= k < |draws|
                && draws[k] == key.value
                && forall j | 0 <= j < k :: draws[j] in managers
      ensures key.None? ==> forall j | 0 <= j < |draws| :: draws[j] in managers
    {
      for i := 0 to |draws|
        invariant forall j | 0 <= j < i :: draws[j] in managers
      {
        if draws[i] !in managers {
          return Some(draws[i]);
        }
      }
      return None;
    }

    /** A login with nobody else logging in adds a new manager under an unused id and changes no other. */
    method RegisterManager(draws: seq<string>, requested: int) returns (mgr: Manager?)
      requires Valid()
      modifies this
      ensures Valid()
      ensures mgr == null <==> forall j | 0 <= j < |draws| :: draws[j] in old(managers)
      ensures mgr == null ==> managers == old(managers)
      ensures mgr != null ==> fresh(mgr) && mgr.id !in old(managers) && managers == old(managers)[mgr.id := mgr]
      ensures mgr != null ==> forall me :: mgr.View() == M.Init(me, requested).mgr
    {
      var key := GenId(draws);
      if key.None? {
        return null;
      }
      mgr := new Manager(key.value, requested);
      managers := managers[mgr.id := mgr];
    }

    /** One round of awaitManagerDone: the manager leaves the table before it is closed. */
    method ManagerDone(mgr: Manager)
      requires Valid() && mgr.Valid()
      modifies this, mgr, mgr.proxies.Values
      ensures Valid() && mgr.closed
      ensures managers == old(managers) - {mgr.id}
      ensures mgr.View() == AfterClose(old(mgr.View()), M.Test)
    {
      managers := managers - {mgr.id};
      mgr.Close();
    }
  }
}
