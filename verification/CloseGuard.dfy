/** A wrapper around a stream whose `Close` reaches the stream once, whoever calls it. */
module CloseGuard {
  import opened Options

  /** The underlying stream, as far as closing goes. */
  class Stream {
    var closes: nat

    constructor ()
      ensures closes == 0
    {
      closes := 0;
    }

    method Close()
      modifies this
      ensures closes == old(closes) + 1
    {
      closes := closes + 1;
    }
  }

  class ReadWriteCloser {
    const ori: Stream?
    var closed: bool

    constructor (ori: Stream?)
      ensures this.ori == ori && !closed
    {
      this.ori := ori;
      closed := false;
    }

    /** A call with nobody else calling: the two steps of the machine below, one after the other. */
    method Close()
      modifies this, ori
      ensures closed
      ensures ori != null ==> ori.closes == old(ori.closes) + if old(closed) then 0 else 1
    {
      if closed {
        return;
      }
      closed := true;
      if ori != null {
        ori.Close();
      }
    }
  }

  // ---- Concurrent calls ----

  datatype CallPc = Closing | Returned

  /** `calls` holds every call that has been through the critical section; `closes` counts closes of the stream. */
  datatype State = State(hasOri: bool, closed: bool, calls: map<nat, CallPc>, closes: nat)

  datatype Action = Enter(call: nat) | CloseOri(call: nat)

  /** The mutex makes the test and the set of the flag one step; the stream is closed outside it. */
  function Step(s: State, a: Action): Option<State> {
    match a
    case Enter(c) =>
      if c in s.calls then None
      else if s.closed || !s.hasOri then Some(s.(closed := true, calls := s.calls[c := Returned]))
      else Some(s.(closed := true, calls := s.calls[c := Closing]))
    case CloseOri(c) =>
      if c !in s.calls || !s.calls[c].Closing? then None
      else Some(s.(calls := s.calls[c := Returned], closes := s.closes + 1))
  }

  function Exec(s: State, run: seq<Action>): Option<State>
    decreases |run|
  {
    if run == [] then Some(s)
    else
      match Step(s, run[0])
      case None => None
      case Some(s') => Exec(s', run[1..])
  }

  predicate IsClosing(s: State, c: nat) { c in s.calls && s.calls[c].Closing? }

  ghost predicate Inv(s: State) {
    && (!s.closed ==> s.calls == map[] && s.closes == 0)
    && s.closes <= 1
    && (forall c, d | IsClosing(s, c) && IsClosing(s, d) :: c == d)
    && (s.closes == 1 || !s.hasOri ==> forall c :: !IsClosing(s, c))
    && (!s.hasOri ==> s.closes == 0)
    && (s.closed && s.hasOri && s.closes == 0 ==> exists c :: IsClosing(s, c))
  }

  lemma StepKeepsInv(s: State, a: Action)
    requires Inv(s) && Step(s, a).Some?
    ensures Inv(Step(s, a).value)
  {
    var s' := Step(s, a).value;
    match a
    case Enter(c) =>
      if s'.closes == 0 && s'.hasOri {
        if s.closed {
          var d :| IsClosing(s, d);
          assert IsClosing(s', d);
        } else {
          assert IsClosing(s', c);
        }
      }
      forall d ensures IsClosing(s', d) ==> IsClosing(s, d) || (d == c && !s.closed) {
      }
    case CloseOri(c) =>
      assert IsClosing(s, c);
      forall d ensures !IsClosing(s', d) {
        assert IsClosing(s, d) ==> d == c;
      }
  }

  lemma {:induction false} ExecKeepsInv(s: State, run: seq<Action>)
    requires Inv(s) && Exec(s, run).Some?
    ensures Inv(Exec(s, run).value)
    decreases |run|
  {
    if run != [] {
      StepKeepsInv(s, run[0]);
      ExecKeepsInv(Step(s, run[0]).value, run[1..]);
    }
  }

  lemma {:induction false} ExecKeepsOri(s: State, run: seq<Action>)
    requires Exec(s, run).Some?
    ensures Exec(s, run).value.hasOri == s.hasOri
    decreases |run|
  {
    if run != [] {
      ExecKeepsOri(Step(s, run[0]).value, run[1..]);
    }
  }

  /**
   Under any number of concurrent calls the stream is closed at most once, and once no call is in
   progress it has been closed exactly if there is a stream and somebody called.
   */
  lemma ClosedAtMostOnce(hasOri: bool, run: seq<Action>, s: State)
    requires Exec(State(hasOri, false, map[], 0), run) == Some(s)
    ensures s.closes <= 1
    ensures (forall c :: !IsClosing(s, c)) ==> (s.closes == 1 <==> hasOri && s.calls != map[])
  {
    ExecKeepsInv(State(hasOri, false, map[], 0), run);
    ExecKeepsOri(State(hasOri, false, map[], 0), run);
    CalledMeansClosed(State(hasOri, false, map[], 0), run);
  }

  lemma {:induction false} CalledMeansClosed(s: State, run: seq<Action>)
    requires s.closed ==> s.calls != map[]
    requires Exec(s, run).Some?
    ensures Exec(s, run).value.closed ==> Exec(s, run).value.calls != map[]
    decreases |run|
  {
    if run != [] {
      var s' := Step(s, run[0]).value;
      assert run[0].call in s'.calls;
      CalledMeansClosed(s', run[1..]);
    }
  }
}
