/** What the reads and writes of a copy loop make of it: its bytes, when it ends, and with which error. */
module JoinScripts {
  import opened Basics
  import opened Bytes
  import opened Options
  import opened Join

  // ---- What the reads and writes of one loop make of it ----

  /** The reads and writes of one loop, in order. */
  function Script(run: seq<Action>, side: Side): seq<CopyAction> {
    if run == [] then [] else Part(run[0], side) + Script(run[1..], side)
  }

  function Part(a: Action, side: Side): seq<CopyAction> { if a.Copy? && a.side == side then [a.copy] else [] }

  /** Every read said that more may come, and every chunk was fully written. */
  predicate Ongoing(script: seq<CopyAction>)
    decreases |script|
  {
    script == [] ||
    (var front, last := script[..|script| - 1], script[|script| - 1];
     match last
     case Read(chunk, end) => chunk == [] && end.More? && Ongoing(front)
     case Write(n, failed) =>
       && !failed && HoldingUpTo(front, n)
       && n == |front[|front| - 1].chunk| && front[|front| - 1].end.More?)
  }

  /** The loop goes on up to a last read, of `n` bytes or more and not empty. */
  predicate HoldingUpTo(script: seq<CopyAction>, n: nat)
    decreases |script|
  {
    && script != [] && script[|script| - 1].Read? && script[|script| - 1].chunk != []
    && n <= |script[|script| - 1].chunk| && Ongoing(script[..|script| - 1])
  }

  /**
   The loop ends with its last action: an empty read at the end or failed, a failed or short write, or the
   full write of a chunk whose read had also said the end or a failure.
   */
  predicate EndsWith(script: seq<CopyAction>, err: Option<CopyError>) {
    script != [] &&
    (var front, last := script[..|script| - 1], script[|script| - 1];
     match last
     case Read(chunk, end) => chunk == [] && Ongoing(front) && EndMeans(end, err)
     case Write(n, failed) =>
       && HoldingUpTo(front, n)
       && (if failed then err == Some(WriteFailed)
           else if n < |front[|front| - 1].chunk| then err == Some(ShortWrite)
           else EndMeans(front[|front| - 1].end, err)))
  }

  /** Only the end of the stream ends a loop without an error. */
  predicate EndMeans(end: ReadEnd, err: Option<CopyError>) {
    match end
    case More => false
    case Eof => err == None
    case Failed => err == Some(ReadFailed)
  }

  function BytesRead(script: seq<CopyAction>): Bytes {
    if script == [] then []
    else
      BytesRead(script[..|script| - 1]) + if script[|script| - 1].Read? then script[|script| - 1].chunk else []
  }

  /** What each write accepted of the chunk read just before it. */
  function BytesWritten(script: seq<CopyAction>): Bytes {
    if script == [] then []
    else
      var front, last := script[..|script| - 1], script[|script| - 1];
      BytesWritten(front) +
      if last.Write? && HoldingUpTo(front, last.n) then front[|front| - 1].chunk[..last.n] else []
  }

  /** The state of a loop is what its reads and writes say. */
  predicate Tells(script: seq<CopyAction>, f: Flow) {
    && f.read == BytesRead(script)
    && f.delivered == BytesWritten(script)
    && match f.pc
       case Reading => Ongoing(script)
       case Writing(chunk, end) =>
         chunk != [] && script != [] && script[|script| - 1] == Read(chunk, end) && Ongoing(script[..|script| - 1])
       case _ => EndsWith(script, f.err)
  }

  lemma CopyTells(f: Flow, fromClosed: bool, toClosed: bool, a: CopyAction, script: seq<CopyAction>)
    requires Tells(script, f) && CopyStep(f, fromClosed, toClosed, a).Some?
    ensures Tells(script + [a], CopyStep(f, fromClosed, toClosed, a).value)
  {
    assert (script + [a])[..|script|] == script;
  }

  lemma StepTells(s: State, a: Action, side: Side, script: seq<CopyAction>)
    requires Tells(script, s.To(side)) && Step(s, a).Some?
    ensures Tells(script + Part(a, side), Step(s, a).value.To(side))
  {
    if a.Copy? && a.side == side {
      CopyTells(s.To(side), s.Closes(side.Other()) > 0, s.Closes(side) > 0, a.copy, script);
    } else {
      assert script + [] == script;
    }
  }

  lemma {:induction false} ExecTells(
    s: State, run: seq<Action>, side: Side, script: seq<CopyAction>, whole: seq<CopyAction>)
    requires Tells(script, s.To(side)) && Exec(s, run).Some? && whole == script + Script(run, side)
    ensures Tells(whole, Exec(s, run).value.To(side))
    decreases |run|
  {
    if run == [] {
      assert whole == script;
    } else {
      StepTells(s, run[0], side, script);
      Associate(script, Part(run[0], side), Script(run[1..], side));
      ExecTells(Step(s, run[0]).value, run[1..], side, script + Part(run[0], side), whole);
    }
  }

  /**
   In every interleaving a loop has read and delivered exactly the bytes of its own reads and writes; it
   goes on while reads say more and writes are full; and it ends, with exactly the error that its last
   read or write means, and without one only at the end of the stream.
   */
  lemma LoopFollowsScript(s0: State, run: seq<Action>, s: State, side: Side)
    requires IsStart(s0) && Exec(s0, run) == Some(s)
    ensures Tells(Script(run, side), s.To(side))
  {
    assert [] + Script(run, side) == Script(run, side);
    ExecTells(s0, run, side, [], Script(run, side));
  }

  // ---- Everything sent can arrive ----

  /** The loop reads and writes these chunks in full, and then the end of the stream. */
  function Transfer(side: Side, chunks: seq<Bytes>): seq<Action> {
    if chunks == [] then [Copy(side, Read([], Eof))]
    else [Copy(side, Read(chunks[0], More)), Copy(side, Write(|chunks[0]|, false))] + Transfer(side, chunks[1..])
  }

  function Concat(chunks: seq<Bytes>): Bytes { if chunks == [] then [] else chunks[0] + Concat(chunks[1..]) }

  /** The loop after it delivered these bytes and came to the end. */
  function Delivered(f: Flow, bytes: Bytes): Flow {
    Flow(Copied, f.read + bytes, f.delivered + bytes, f.copied + |bytes|, f.copied + |bytes|, None)
  }

  lemma OneChunk(s: State, side: Side, c: Bytes) returns (s': State)
    requires s.leftCloses == 0 && s.rightCloses == 0 && s.To(side).pc.Reading? && c != []
    ensures var f := s.To(side);
            s' == s.With(side, f.(read := f.read + c, delivered := f.delivered + c, copied := f.copied + |c|))
    ensures forall rest :: Exec(s, [Copy(side, Read(c, More)), Copy(side, Write(|c|, false))] + rest) == Exec(s', rest)
  {
    var s1 := Step(s, Copy(side, Read(c, More))).value;
    assert c[..|c|] == c;
    s' := Step(s1, Copy(side, Write(|c|, false))).value;
    forall rest: seq<Action>
      ensures Exec(s, [Copy(side, Read(c, More)), Copy(side, Write(|c|, false))] + rest) == Exec(s', rest)
    {
      var run := [Copy(side, Read(c, More)), Copy(side, Write(|c|, false))] + rest;
      assert run[1..][0] == Copy(side, Write(|c|, false)) && run[1..][1..] == rest;
      assert Exec(s, run) == Exec(s1, run[1..]);
      assert Exec(s1, run[1..]) == Exec(s', rest);
    }
  }

  /** While both connections are open, a loop that is reading can deliver any bytes and end without an error. */
  lemma {:induction false} TransferRuns(s: State, side: Side, chunks: seq<Bytes>)
    requires s.leftCloses == 0 && s.rightCloses == 0 && s.To(side).pc.Reading?
    requires forall i :: 0 <= i < |chunks| ==> chunks[i] != []
    ensures Exec(s, Transfer(side, chunks)) == Some(s.With(side, Delivered(s.To(side), Concat(chunks))))
    decreases |chunks|
  {
    var f := s.To(side);
    if chunks == [] {
      var run := Transfer(side, chunks);
      assert run[1..] == [] && f.read + [] == f.read && f.delivered + [] == f.delivered;
      assert Step(s, run[0]) == Some(s.With(side, Delivered(f, [])));
    } else {
      var c, more := chunks[0], Concat(chunks[1..]);
      var s' := OneChunk(s, side, c);
      TransferRuns(s', side, chunks[1..]);
      Associate(f.read, c, more);
      Associate(f.delivered, c, more);
      assert Exec(s, Transfer(side, chunks)) == Exec(s', Transfer(side, chunks[1..]));
      assert s'.With(side, Delivered(s'.To(side), more)) == s.With(side, Delivered(f, c + more));
    }
  }
}
