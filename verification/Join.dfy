/**
 Joining two connections: `Join` starts one copy loop per direction and waits for both.
 Every interleaving of the two loops is a run; what each read and write returns is up to the
 environment, except that a connection closed at this end yields and accepts no more bytes.
 */
module Join {
  import opened Bytes
  import opened Options

  /** A direction is named after the connection it writes to. */
  datatype Side = Left | Right {
    function Other(): Side { if this == Left then Right else Left }
  }

  datatype CopyError = ReadFailed | WriteFailed | ShortWrite

  /** What `Read` reports beside its bytes. */
  datatype ReadEnd = More | Eof | Failed

  datatype Pc =
    | Reading
    | Writing(chunk: Bytes, end: ReadEnd)
    | Copied
    | Signalled
    | FromClosed
    | Ended

  /**
   One copy loop: `read` and `delivered` are the bytes it took and the bytes the other side
   accepted, `copied` is the running total inside io.CopyBuffer, `written` and `err` are the
   variables of `Join` that receive its results.
   */
  datatype Flow = Flow(pc: Pc, read: Bytes, delivered: Bytes, copied: nat, written: nat, err: Option<CopyError>)

  datatype Result = Result(rn: nat, wn: nat, we: Option<CopyError>, re: Option<CopyError>)

  datatype State = State(toLeft: Flow, toRight: Flow, leftCloses: nat, rightCloses: nat, returned: Option<Result>) {

    function To(side: Side): Flow { if side == Left then toLeft else toRight }

    function With(side: Side, f: Flow): State { if side == Left then this.(toLeft := f) else this.(toRight := f) }

    function Closes(side: Side): nat { if side == Left then leftCloses else rightCloses }

    function Closed(side: Side): State {
      if side == Left then this.(leftCloses := leftCloses + 1) else this.(rightCloses := rightCloses + 1)
    }
  }

  predicate IsNew(f: Flow) { f == Flow(Reading, [], [], 0, 0, None) }

  predicate IsStart(s: State) {
    IsNew(s.toLeft) && IsNew(s.toRight) && s.leftCloses == 0 && s.rightCloses == 0 && s.returned == None
  }

  datatype CopyAction = Read(chunk: Bytes, end: ReadEnd) | Write(n: nat, failed: bool)

  /** io.CopyBuffer returns `err`, and its results reach the variables of `Join`. */
  function Finish(f: Flow, err: Option<CopyError>): Flow { f.(pc := Copied, written := f.copied, err := err) }

  /** What follows a chunk that was empty or fully written. */
  function AfterChunk(f: Flow, end: ReadEnd): Flow {
    match end
    case More => f.(pc := Reading)
    case Eof => Finish(f, None)
    case Failed => Finish(f, Some(ReadFailed))
  }

  /** One step of io.CopyBuffer; `fromClosed` and `toClosed` say which ends were closed here. */
  function CopyStep(f: Flow, fromClosed: bool, toClosed: bool, a: CopyAction): Option<Flow> {
    match a
    case Read(chunk, end) =>
      if !f.pc.Reading? || (fromClosed && (chunk != [] || !end.Failed?)) then None
      else if chunk == [] then Some(AfterChunk(f, end))
      else Some(f.(pc := Writing(chunk, end), read := f.read + chunk))
    case Write(n, failed) =>
      if !f.pc.Writing? || n > |f.pc.chunk| || (toClosed && (n > 0 || !failed)) then None
      else
        var g := f.(delivered := f.delivered + f.pc.chunk[..n], copied := f.copied + n);
        Some(if failed then Finish(g, Some(WriteFailed))
             else if n < |f.pc.chunk| then Finish(g, Some(ShortWrite))
             else AfterChunk(g, f.pc.end))
  }

  datatype Action =
    | Copy(side: Side, copy: CopyAction)
    | Signal(side: Side)
    | CloseFrom(side: Side)
    | CloseTo(side: Side)
    | Return

  /** One step; the deferred calls of `pipe` run in the order wait.Done, from.Close, to.Close. */
  function Step(s: State, a: Action): Option<State> {
    match a
    case Copy(side, c) =>
      (match CopyStep(s.To(side), s.Closes(side.Other()) > 0, s.Closes(side) > 0, c)
       case None => None
       case Some(f) => Some(s.With(side, f)))
    case Signal(side) =>
      if !s.To(side).pc.Copied? then None else Some(s.With(side, s.To(side).(pc := Signalled)))
    case CloseFrom(side) =>
      if !s.To(side).pc.Signalled? then None
      else Some(s.With(side, s.To(side).(pc := FromClosed)).Closed(side.Other()))
    case CloseTo(side) =>
      if !s.To(side).pc.FromClosed? then None
      else Some(s.With(side, s.To(side).(pc := Ended)).Closed(side))
    case Return =>
      if s.returned.Some? || !HasSignalled(s.toLeft) || !HasSignalled(s.toRight) then None
      else Some(s.(returned := Some(Result(s.toRight.written, s.toLeft.written, s.toLeft.err, s.toRight.err))))
  }

  /** `wait.Done` has been called for this loop. */
  predicate HasSignalled(f: Flow) { f.pc.Signalled? || f.pc.FromClosed? || f.pc.Ended? }

  function Exec(s: State, run: seq<Action>): Option<State>
    decreases |run|
  {
    if run == [] then Some(s)
    else
      match Step(s, run[0])
      case None => None
      case Some(s') => Exec(s', run[1..])
  }

  // ---- What every step keeps ----

  ghost predicate FlowInv(f: Flow) {
    && f.delivered <= f.read
    && f.copied == |f.delivered|
    && match f.pc
       case Reading => f.read == f.delivered
       case Writing(chunk, _) => f.read == f.delivered + chunk
       case _ => f.written == |f.delivered| && (f.err == None || f.err == Some(ReadFailed) ==> f.delivered == f.read)
  }

  /** How often the loop has closed the connection it reads from, and the one it writes to. */
  function FromCloses(f: Flow): nat { if f.pc.FromClosed? || f.pc.Ended? then 1 else 0 }

  function ToCloses(f: Flow): nat { if f.pc.Ended? then 1 else 0 }

  ghost predicate Inv(s: State) {
    && FlowInv(s.toLeft)
    && FlowInv(s.toRight)
    && s.leftCloses == ToCloses(s.toLeft) + FromCloses(s.toRight)
    && s.rightCloses == ToCloses(s.toRight) + FromCloses(s.toLeft)
    && (s.returned.Some? ==>
          && HasSignalled(s.toLeft)
          && HasSignalled(s.toRight)
          && s.returned.value == Result(s.toRight.written, s.toLeft.written, s.toLeft.err, s.toRight.err))
  }

  lemma CopyKeepsFlow(f: Flow, fromClosed: bool, toClosed: bool, a: CopyAction)
    requires FlowInv(f) && CopyStep(f, fromClosed, toClosed, a).Some?
    ensures FlowInv(CopyStep(f, fromClosed, toClosed, a).value)
  {
    if a.Write? {
      var chunk := f.pc.chunk;
      assert chunk == chunk[..a.n] + chunk[a.n..];
      assert f.delivered + chunk[..a.n] + chunk[a.n..] == f.read;
    }
  }

  lemma CopyKeepsInv(s: State, side: Side, a: CopyAction)
    requires Inv(s) && Step(s, Copy(side, a)).Some?
    ensures Inv(Step(s, Copy(side, a)).value)
  {
    CopyKeepsFlow(s.To(side), s.Closes(side.Other()) > 0, s.Closes(side) > 0, a);
    CopyKeepsPlace(s.To(side), s.Closes(side.Other()) > 0, s.Closes(side) > 0, a);
  }

  /** Only a loop that has closed and signalled nothing copies. */
  lemma CopyKeepsPlace(f: Flow, fromClosed: bool, toClosed: bool, a: CopyAction)
    requires CopyStep(f, fromClosed, toClosed, a).Some?
    ensures var g := CopyStep(f, fromClosed, toClosed, a).value;
            && !HasSignalled(f)
            && FromCloses(f) == 0 == ToCloses(f)
            && FromCloses(g) == 0 == ToCloses(g)
  {
  }

  lemma StepKeepsInv(s: State, a: Action)
    requires Inv(s) && Step(s, a).Some?
    ensures Inv(Step(s, a).value)
  {
    if a.Copy? {
      CopyKeepsInv(s, a.side, a.copy);
    }
  }

  lemma {:induction false} ExecKeepsInv(s: State, run: seq<Action>)
    requires Inv(s) && Exec(s, run).Some?
    ensures Inv(Exec(s, run).value)
    decreases |run|
  {
    if run != [] {
      StepKeepsInv(s, run[0]);
      ExecKeepsInv(Step(s, run[0]).value, run[1..]);
    }
  }

  /** Some interleaving leads from the start of `Join` to `s`. */
  ghost predicate Reachable(s: State) { exists s0, run: seq<Action> :: IsStart(s0) && Exec(s0, run) == Some(s) }

  lemma ReachableInv(s: State)
    requires Reachable(s)
    ensures Inv(s)
  {
    var s0, run: seq<Action> :| IsStart(s0) && Exec(s0, run) == Some(s);
    ExecKeepsInv(s0, run);
  }

  lemma SignalledCounts(f: Flow)
    requires FlowInv(f)
    ensures f.delivered <= f.read
    ensures HasSignalled(f) ==> f.written == |f.delivered| && (f.err == None ==> f.delivered == f.read)
  {
  }

  // ---- Main results ----

  /** What reached one side is a prefix of what was read from the other, and `Join` reports its exact length. */
  lemma JoinDeliversPrefixes(s: State)
    requires Reachable(s)
    ensures s.toLeft.delivered <= s.toLeft.read && s.toRight.delivered <= s.toRight.read
    ensures s.returned.Some? ==>
              && s.returned.value.rn == |s.toRight.delivered|
              && s.returned.value.wn == |s.toLeft.delivered|
              && (s.returned.value.re == None ==> s.toRight.delivered == s.toRight.read)
              && (s.returned.value.we == None ==> s.toLeft.delivered == s.toLeft.read)
  {
    ReachableInv(s);
    SignalledCounts(s.toLeft);
    SignalledCounts(s.toRight);
  }

  /** Each connection is closed by both loops and by nothing else; when both have ended, both connections are closed. */
  lemma JoinClosesBoth(s: State)
    requires Reachable(s)
    ensures s.leftCloses <= 2 && s.rightCloses <= 2
    ensures s.toLeft.pc.Ended? && s.toRight.pc.Ended? <==> s.leftCloses == 2 && s.rightCloses == 2
    ensures s.toLeft.pc.Ended? || s.toRight.pc.Ended? ==> s.leftCloses > 0 && s.rightCloses > 0
  {
    ReachableInv(s);
  }

  /** A step after a connection was closed delivers nothing more to it and reads nothing more from it. */
  lemma ClosedStays(s: State, a: Action, side: Side)
    requires Step(s, a).Some? && s.Closes(side) > 0
    ensures var s' := Step(s, a).value;
            && s'.Closes(side) > 0
            && s'.To(side).delivered == s.To(side).delivered
            && s'.To(side.Other()).read == s.To(side.Other()).read
  {
    if a.Copy? && a.side == side && a.copy.Write? {
      var f := s.To(side);
      assert f.delivered + f.pc.chunk[..0] == f.delivered;
    }
  }

  lemma {:induction false} EndedIsFinalFrom(s: State, run: seq<Action>)
    requires Inv(s) && Exec(s, run).Some?
    requires s.toLeft.pc.Ended? || s.toRight.pc.Ended?
    ensures var s' := Exec(s, run).value;
            forall side: Side :: s'.To(side).delivered == s.To(side).delivered && s'.To(side).read == s.To(side).read
    decreases |run|
  {
    if run != [] {
      var s' := Step(s, run[0]).value;
      ClosedStays(s, run[0], Left);
      ClosedStays(s, run[0], Right);
      StepKeepsInv(s, run[0]);
      EndedIsFinalFrom(s', run[1..]);
    }
  }

  /** As soon as one loop has ended, the traffic of both directions is final, however the run goes on. */
  lemma EndedIsFinal(s: State, run: seq<Action>)
    requires Reachable(s) && Exec(s, run).Some?
    requires s.toLeft.pc.Ended? || s.toRight.pc.Ended?
    ensures var s' := Exec(s, run).value;
            forall side: Side :: s'.To(side).delivered == s.To(side).delivered && s'.To(side).read == s.To(side).read
  {
    ReachableInv(s);
    EndedIsFinalFrom(s, run);
  }

  /** `Join` may return while both connections are still open: its wait ends before the deferred closes. */
  lemma ReturnPrecedesClose()
    ensures exists s :: Reachable(s) && s.returned.Some? && s.leftCloses == 0 && s.rightCloses == 0
  {
    var idle := Flow(Reading, [], [], 0, 0, None);
    var done := Flow(Signalled, [], [], 0, 0, None);
    var s0 := State(idle, idle, 0, 0, None);
    var s1 := State(idle.(pc := Copied), idle, 0, 0, None);
    var s2 := State(done, idle, 0, 0, None);
    var s3 := State(done, idle.(pc := Copied), 0, 0, None);
    var s4 := State(done, done, 0, 0, None);
    var r4 := [Return];
    var r3 := [Signal(Right)] + r4;
    var r2 := [Copy(Right, Read([], Eof))] + r3;
    var r1 := [Signal(Left)] + r2;
    var r0 := [Copy(Left, Read([], Eof))] + r1;
    assert Step(s4, Return) == Some(s4.(returned := Some(Result(0, 0, None, None))));
    assert Exec(s4, r4) == Some(s4.(returned := Some(Result(0, 0, None, None)))) by { assert r4[1..] == []; }
    assert Step(s3, Signal(Right)) == Some(s4);
    assert Exec(s3, r3) == Exec(s4, r4) by { assert r3[1..] == r4; }
    assert Step(s2, Copy(Right, Read([], Eof))) == Some(s3);
    assert Exec(s2, r2) == Exec(s3, r3) by { assert r2[1..] == r3; }
    assert Step(s1, Signal(Left)) == Some(s2);
    assert Exec(s1, r1) == Exec(s2, r2) by { assert r1[1..] == r2; }
    assert Step(s0, Copy(Left, Read([], Eof))) == Some(s1);
    assert Exec(s0, r0) == Exec(s1, r1) by { assert r0[1..] == r1; }
    assert IsStart(s0);
    assert Reachable(s4.(returned := Some(Result(0, 0, None, None))));
  }
}
