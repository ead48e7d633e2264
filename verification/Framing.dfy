/**
 The framing of messages: a flag byte, a type byte, a big-endian 32-bit length and the data. The
 writer appends whole frames; the reader gets its bytes in chunks, and takes the first two bytes of
 a frame with one plain read.
 */
module Framing {
  import opened Basics
  import opened Bytes

  datatype Frame = Frame(flag: byte, typ: byte, data: Bytes)

  datatype ReadError = EndOfStream | InvalidMessage

  datatype Result<+T> = Ok(value: T) | Err(error: ReadError)

  const TWO_TO_31: nat := 0x8000_0000
  const TWO_TO_32: nat := 0x1_0000_0000

  // ---- Writing ----

  /** The four bytes of `int32(n)`, which keeps only the low 32 bits of `n`. */
  function BigEndian(n: nat): Bytes {
    var w := n % TWO_TO_32;
    var a := w / 0x100;
    var b := a / 0x100;
    [b / 0x100, b % 0x100, a % 0x100, w % 0x100]
  }

  /** The signed 32-bit value of four bytes. */
  function Int32(b: Bytes): int
    requires |b| == 4
  {
    var b0: int, b1: int, b2: int, b3: int := b[0], b[1], b[2], b[3];
    var w := b0 * 0x100_0000 + b1 * 0x1_0000 + b2 * 0x100 + b3;
    if w < TWO_TO_31 then w else w - TWO_TO_32
  }

  lemma Int32OfBigEndian(n: nat)
    ensures |BigEndian(n)| == 4
    ensures Int32(BigEndian(n)) == if n % TWO_TO_32 < TWO_TO_31 then n % TWO_TO_32 else n % TWO_TO_32 - TWO_TO_32
  {
    var w := n % TWO_TO_32;
    var a := w / 0x100;
    var b := a / 0x100;
    var c := b / 0x100;
    assert w == a * 0x100 + w % 0x100;
    assert a == b * 0x100 + a % 0x100 && b == c * 0x100 + b % 0x100;
  }

  /** The most significant byte comes first. */
  lemma BigEndianDigits(n: nat)
    requires n < TWO_TO_32
    ensures Value(Value(Value(BigEndian(n)[0], BigEndian(n)[1]), BigEndian(n)[2]), BigEndian(n)[3]) == n
  {
    var a := n / 0x100;
    var b := a / 0x100;
    assert n % TWO_TO_32 == n;
    LastDigit(b);
    LastDigit(a);
    LastDigit(n);
  }

  /** A number and one more byte after it. */
  function Value(high: nat, low: byte): nat { high * 0x100 + low }

  lemma LastDigit(n: nat)
    ensures Value(n / 0x100, n % 0x100) == n
  {
  }

  function Encode(f: Frame): (b: Bytes)
    ensures |b| == 6 + |f.data|
  {
    [f.flag, f.typ] + BigEndian(|f.data|) + f.data
  }

  function EncodeAll(fs: seq<Frame>): Bytes {
    if fs == [] then [] else Encode(fs[0]) + EncodeAll(fs[1..])
  }

  // ---- Reading from chunks ----

  type Chunks = seq<Bytes>

  function Flatten(cs: Chunks): Bytes {
    if cs == [] then [] else cs[0] + Flatten(cs[1..])
  }

  /** What is left after taking `n` bytes of the first chunk. */
  function After(cs: Chunks, n: nat): Chunks
    requires cs != [] && n <= |cs[0]|
  {
    if n == |cs[0]| then cs[1..] else [cs[0][n..]] + cs[1..]
  }

  lemma DropLeft(a: Bytes, b: Bytes)
    ensures (a + b)[|a|..] == b && (a + b)[..|a|] == a
  {
  }

  lemma AfterFlat(cs: Chunks, n: nat)
    requires cs != [] && n <= |cs[0]|
    ensures cs[0][..n] + Flatten(After(cs, n)) == Flatten(cs)
    ensures n <= |Flatten(cs)| && Flatten(After(cs, n)) == Flatten(cs)[n..]
  {
    var c, rest := cs[0], Flatten(cs[1..]);
    assert Flatten(After(cs, n)) == c[n..] + rest by {
      if n < |c| {
        assert After(cs, n)[0] == c[n..] && After(cs, n)[1..] == cs[1..];
      } else {
        assert c[n..] == [];
      }
    }
    assert c[..n] + (c[n..] + rest) == c + rest;
    DropLeft(c[..n], c[n..] + rest);
  }

  /** Exactly `n` bytes, over as many chunks as needed, and the chunks left. */
  function ReadFull(cs: Chunks, n: nat): Result<(Bytes, Chunks)>
    decreases |cs|
  {
    if n == 0 then Ok(([], cs))
    else if cs == [] then Err(EndOfStream)
    else if n < |cs[0]| then Ok((cs[0][..n], After(cs, n)))
    else
      match ReadFull(cs[1..], n - |cs[0]|)
      case Err(e) => Err(e)
      case Ok((b, rest)) => Ok((cs[0] + b, rest))
  }

  /** The outcome of a full read depends only on the bytes, not on how they are chunked. */
  lemma {:induction false} ReadFullIsPrefix(cs: Chunks, n: nat)
    ensures ReadFull(cs, n).Ok? <==> n <= |Flatten(cs)|
    ensures ReadFull(cs, n).Ok? ==>
              ReadFull(cs, n).value.0 == Flatten(cs)[..n] && Flatten(ReadFull(cs, n).value.1) == Flatten(cs)[n..]
    decreases |cs|
  {
    if n != 0 && cs != [] {
      if n < |cs[0]| {
        AfterFlat(cs, n);
      } else {
        ReadFullIsPrefix(cs[1..], n - |cs[0]|);
      }
    }
  }

  function Nth(b: Bytes, i: nat): byte { if i < |b| then b[i] else 0 }

  /** One call of `Read`: the header comes from a single read, which stops at the end of a chunk. */
  function ReadFrame(cs: Chunks): Result<(Frame, Chunks)> {
    if cs == [] then Err(EndOfStream)
    else
      var n := Min(2, |cs[0]|);
      var header := cs[0][..n];
      match ReadFull(After(cs, n), 4)
      case Err(e) => Err(e)
      case Ok((b, rest)) =>
        if |b| != 4 || Int32(b) < 0 then Err(InvalidMessage)
        else
          match ReadFull(rest, Int32(b))
          case Err(_) => Err(InvalidMessage)
          case Ok((data, left)) => Ok((Frame(Nth(header, 0), Nth(header, 1), data), left))
  }

  /** What `ReadFrame` does when both header bytes come in one read, in terms of the bytes alone. */
  lemma ReadFrameOnBytes(cs: Chunks, flag: byte, typ: byte, len: Bytes, body: Bytes)
    requires cs != [] && |cs[0]| >= 2 && |len| == 4 && Flatten(cs) == [flag, typ] + (len + body)
    ensures Int32(len) < 0 || Int32(len) > |body| ==> ReadFrame(cs).Err?
    ensures 0 <= Int32(len) <= |body| ==>
              && ReadFrame(cs).Ok? && ReadFrame(cs).value.0 == Frame(flag, typ, body[..Int32(len)])
              && Flatten(ReadFrame(cs).value.1) == body[Int32(len)..]
  {
    assert cs[0][0] == Flatten(cs)[0] && cs[0][1] == Flatten(cs)[1];
    AfterFlat(cs, 2);
    DropLeft([flag, typ], len + body);
    ReadFullIsPrefix(After(cs, 2), 4);
    DropLeft(len, body);
    if Int32(len) >= 0 { ReadFullIsPrefix(ReadFull(After(cs, 2), 4).value.1, Int32(len)); }
  }

  lemma FrameGivenLength(cs: Chunks, f: Frame, len: Bytes, tail: Bytes)
    requires cs != [] && |cs[0]| >= 2 && |len| == 4 && Flatten(cs) == [f.flag, f.typ] + (len + (f.data + tail))
    ensures Int32(len) == |f.data| ==>
              ReadFrame(cs).Ok? && ReadFrame(cs).value.0 == f && Flatten(ReadFrame(cs).value.1) == tail
    ensures ReadFrame(cs).Ok? && ReadFrame(cs).value.0 == f ==> Int32(len) == |f.data|
  {
    ReadFrameOnBytes(cs, f.flag, f.typ, len, f.data + tail);
    DropLeft(f.data, tail);
  }

  /** A frame at the head of the stream whose two header bytes come in one read is read back iff its length fits. */
  lemma WholeHeaderFrame(cs: Chunks, f: Frame, tail: Bytes)
    requires cs != [] && |cs[0]| >= 2 && Flatten(cs) == Encode(f) + tail
    ensures |f.data| < TWO_TO_31 ==>
              ReadFrame(cs).Ok? && ReadFrame(cs).value.0 == f && Flatten(ReadFrame(cs).value.1) == tail
    ensures ReadFrame(cs).Ok? && ReadFrame(cs).value.0 == f ==> |f.data| < TWO_TO_31
  {
    EncodeParts(f, tail);
    LengthFits(|f.data|);
    FrameGivenLength(cs, f, BigEndian(|f.data|), tail);
  }

  lemma LengthFits(n: nat)
    ensures |BigEndian(n)| == 4 && (Int32(BigEndian(n)) == n <==> n < TWO_TO_31)
  {
    Int32OfBigEndian(n);
  }

  lemma EncodeParts(f: Frame, tail: Bytes)
    ensures Encode(f) + tail == [f.flag, f.typ] + (BigEndian(|f.data|) + (f.data + tail))
  {
  }

  /**
   A frame with a type other than zero and data below 2^31 bytes is read back if and only if the
   first chunk holds both header bytes; otherwise the type byte is taken to be zero.
   */
  lemma FrameReadBackIff(cs: Chunks, f: Frame, tail: Bytes)
    requires cs != [] && Flatten(cs) == Encode(f) + tail && f.typ != 0 && |f.data| < TWO_TO_31
    ensures ReadFrame(cs).Ok? && ReadFrame(cs).value.0 == f <==> |cs[0]| >= 2
  {
    if |cs[0]| >= 2 { WholeHeaderFrame(cs, f, tail); }
  }

  lemma PrefixSplit(f: Frame, p: Bytes)
    requires p < Encode(f) && 6 <= |p|
    ensures p == [f.flag, f.typ] + (BigEndian(|f.data|) + p[6..]) && |p[6..]| < |f.data|
  {
    EncodeParts(f, []);
    assert Encode(f) + [] == Encode(f);
    var e := [f.flag, f.typ] + (BigEndian(|f.data|) + (f.data + []));
    assert p == e[..|p|] && e[..6] == [f.flag, f.typ] + BigEndian(|f.data|);
    assert p == p[..6] + p[6..];
  }

  /** A frame cut short is never read as a frame of that type: the read fails or sees type zero. */
  lemma PrefixIsNotAFrame(cs: Chunks, f: Frame)
    requires Flatten(cs) < Encode(f) && |f.data| < TWO_TO_31
    ensures ReadFrame(cs).Err? || ReadFrame(cs).value.0.typ == 0
  {
    if cs != [] && |cs[0]| >= 2 {
      var p := Flatten(cs);
      if |p| < 6 {
        AfterFlat(cs, 2);
        ReadFullIsPrefix(After(cs, 2), 4);
      } else {
        PrefixSplit(f, p);
        LengthFits(|f.data|);
        ReadFrameOnBytes(cs, f.flag, f.typ, BigEndian(|f.data|), p[6..]);
      }
    }
  }

  // ---- A stream of frames ----

  /** Every header read of the successive frames returns two bytes. */
  ghost predicate HeadersWhole(cs: Chunks, n: nat)
    decreases n
  {
    n == 0 || (cs != [] && |cs[0]| >= 2 && (ReadFrame(cs).Ok? ==> HeadersWhole(ReadFrame(cs).value.1, n - 1)))
  }

  /** The frames of `n` successive calls of `Read`. */
  function ReadFrames(cs: Chunks, n: nat): Result<(seq<Frame>, Chunks)>
    decreases n
  {
    if n == 0 then Ok(([], cs))
    else
      match ReadFrame(cs)
      case Err(e) => Err(e)
      case Ok((f, rest)) =>
        match ReadFrames(rest, n - 1)
        case Err(e) => Err(e)
        case Ok((fs, left)) => Ok(([f] + fs, left))
  }

  lemma ReadFramesStep(cs: Chunks, fs: seq<Frame>)
    requires fs != [] && ReadFrame(cs).Ok? && ReadFrame(cs).value.0 == fs[0]
    requires var rest := ReadFrames(ReadFrame(cs).value.1, |fs| - 1); rest.Ok? && rest.value.0 == fs[1..]
    ensures ReadFrames(cs, |fs|) == Ok((fs, ReadFrames(ReadFrame(cs).value.1, |fs| - 1).value.1))
  {
    assert [fs[0]] + fs[1..] == fs;
  }

  lemma PeelFrame(cs: Chunks, fs: seq<Frame>, tail: Bytes)
    requires fs != [] && cs != [] && |cs[0]| >= 2 && |fs[0].data| < TWO_TO_31 && Flatten(cs) == EncodeAll(fs) + tail
    ensures ReadFrame(cs).Ok? && ReadFrame(cs).value.0 == fs[0]
    ensures Flatten(ReadFrame(cs).value.1) == EncodeAll(fs[1..]) + tail
  {
    Associate(Encode(fs[0]), EncodeAll(fs[1..]), tail);
    WholeHeaderFrame(cs, fs[0], EncodeAll(fs[1..]) + tail);
  }

  /** Repeated reading undoes repeated writing, for every chunking with whole headers. */
  lemma {:induction false} StreamRoundTrip(cs: Chunks, fs: seq<Frame>, tail: Bytes)
    requires Flatten(cs) == EncodeAll(fs) + tail && HeadersWhole(cs, |fs|)
    requires forall i :: 0 <= i < |fs| ==> |fs[i].data| < TWO_TO_31
    ensures ReadFrames(cs, |fs|).Ok? && ReadFrames(cs, |fs|).value.0 == fs
    ensures Flatten(ReadFrames(cs, |fs|).value.1) == tail
    decreases |fs|
  {
    if fs == [] {
      assert EncodeAll(fs) + tail == tail;
    } else {
      PeelFrame(cs, fs, tail);
      StreamRoundTrip(ReadFrame(cs).value.1, fs[1..], tail);
      ReadFramesStep(cs, fs);
    }
  }

  /** Frames of non-zero type are read back if and only if every header comes in one read. */
  lemma StreamReadBackIff(cs: Chunks, fs: seq<Frame>, tail: Bytes)
    requires Flatten(cs) == EncodeAll(fs) + tail
    requires forall i :: 0 <= i < |fs| ==> |fs[i].data| < TWO_TO_31 && fs[i].typ != 0
    ensures ReadFrames(cs, |fs|).Ok? && ReadFrames(cs, |fs|).value.0 == fs <==> HeadersWhole(cs, |fs|)
  {
    if HeadersWhole(cs, |fs|) {
      StreamRoundTrip(cs, fs, tail);
    } else if ReadFrames(cs, |fs|).Ok? && ReadFrames(cs, |fs|).value.0 == fs {
      ReadBackWhole(cs, fs, tail);
    }
  }

  lemma {:induction false} ReadBackWhole(cs: Chunks, fs: seq<Frame>, tail: Bytes)
    requires Flatten(cs) == EncodeAll(fs) + tail
    requires forall i :: 0 <= i < |fs| ==> |fs[i].data| < TWO_TO_31 && fs[i].typ != 0
    requires ReadFrames(cs, |fs|).Ok? && ReadFrames(cs, |fs|).value.0 == fs
    ensures HeadersWhole(cs, |fs|)
    decreases |fs|
  {
    if fs != [] {
      ReadBackHead(cs, fs, tail);
      ReadBackWhole(ReadFrame(cs).value.1, fs[1..], tail);
    }
  }

  /** If a whole stream is read back, its first header came in one read and the rest is read back too. */
  lemma ReadBackHead(cs: Chunks, fs: seq<Frame>, tail: Bytes)
    requires Flatten(cs) == EncodeAll(fs) + tail && fs != [] && |fs[0].data| < TWO_TO_31 && fs[0].typ != 0
    requires ReadFrames(cs, |fs|).Ok? && ReadFrames(cs, |fs|).value.0 == fs
    ensures cs != [] && |cs[0]| >= 2 && ReadFrame(cs).Ok?
    ensures var rest := ReadFrame(cs).value.1;
            && Flatten(rest) == EncodeAll(fs[1..]) + tail
            && ReadFrames(rest, |fs| - 1).Ok? && ReadFrames(rest, |fs| - 1).value.0 == fs[1..]
  {
    var more := ReadFrames(ReadFrame(cs).value.1, |fs| - 1).value.0;
    assert fs == [ReadFrame(cs).value.0] + more && fs[1..] == more;
    Associate(Encode(fs[0]), EncodeAll(fs[1..]), tail);
    FrameReadBackIff(cs, fs[0], EncodeAll(fs[1..]) + tail);
    PeelFrame(cs, fs, tail);
  }

  // ---- Several senders sharing one connection ----

  /** The frames that the first `k` writes of a schedule put on the wire; each entry names a sender. */
  function Merged(senders: seq<seq<Frame>>, schedule: seq<nat>): seq<Frame>
    requires Feasible(senders, schedule)
  {
    if schedule == [] then []
    else
      var before, i := schedule[..|schedule| - 1], schedule[|schedule| - 1];
      Merged(senders, before) + [senders[i][Turns(before, i)]]
  }

  /** How many writes of sender `i` a schedule contains. */
  function Turns(schedule: seq<nat>, i: nat): nat {
    if schedule == [] then 0
    else Turns(schedule[..|schedule| - 1], i) + if schedule[|schedule| - 1] == i then 1 else 0
  }

  /** No sender is scheduled more often than it has frames. */
  predicate Feasible(senders: seq<seq<Frame>>, schedule: seq<nat>) {
    schedule == [] ||
    (var before, i := schedule[..|schedule| - 1], schedule[|schedule| - 1];
     Feasible(senders, before) && i < |senders| && Turns(before, i) < |senders[i]|)
  }

  /** The frames of `fs` written by sender `i`. */
  function From(fs: seq<Frame>, schedule: seq<nat>, i: nat): seq<Frame>
    requires |fs| == |schedule|
  {
    if fs == [] then []
    else From(fs[..|fs| - 1], schedule[..|fs| - 1], i) + if schedule[|fs| - 1] == i then [fs[|fs| - 1]] else []
  }

  lemma {:induction false} MergedLength(senders: seq<seq<Frame>>, schedule: seq<nat>)
    requires Feasible(senders, schedule)
    ensures |Merged(senders, schedule)| == |schedule|
  {
    if schedule != [] { MergedLength(senders, schedule[..|schedule| - 1]); }
  }

  lemma FromStep(fs: seq<Frame>, f: Frame, schedule: seq<nat>, i: nat)
    requires |fs| + 1 == |schedule|
    ensures From(fs + [f], schedule, i)
         == From(fs, schedule[..|fs|], i) + if schedule[|fs|] == i then [f] else []
  {
    assert (fs + [f])[..|fs|] == fs;
  }

  lemma {:induction false} MergeKeepsOrder(senders: seq<seq<Frame>>, schedule: seq<nat>, i: nat)
    requires Feasible(senders, schedule) && i < |senders|
    ensures |Merged(senders, schedule)| == |schedule|
    ensures Turns(schedule, i) <= |senders[i]|
    ensures From(Merged(senders, schedule), schedule, i) == senders[i][..Turns(schedule, i)]
  {
    if schedule != [] {
      var before := schedule[..|schedule| - 1];
      var j := schedule[|before|];
      MergedLength(senders, schedule);
      MergeKeepsOrder(senders, before, i);
      FromStep(Merged(senders, before), senders[j][Turns(before, j)], schedule, i);
    }
  }

  lemma {:induction false} MergedFromSenders(senders: seq<seq<Frame>>, schedule: seq<nat>)
    requires Feasible(senders, schedule)
    requires forall i, j :: 0 <= i < |senders| && 0 <= j < |senders[i]| ==> |senders[i][j].data| < TWO_TO_31
    ensures |Merged(senders, schedule)| == |schedule|
    ensures forall k :: 0 <= k < |schedule| ==> |Merged(senders, schedule)[k].data| < TWO_TO_31
  {
    if schedule != [] { MergedFromSenders(senders, schedule[..|schedule| - 1]); }
  }

  /**
   Whatever the interleaving of whole-frame writes by several senders, and whatever the chunking with
   whole headers, the reader gets exactly that interleaving, and each sender's frames in its own order.
   */
  lemma InterleavingRoundTrip(senders: seq<seq<Frame>>, schedule: seq<nat>, cs: Chunks)
    requires Feasible(senders, schedule)
    requires forall i, j :: 0 <= i < |senders| && 0 <= j < |senders[i]| ==> |senders[i][j].data| < TWO_TO_31
    requires Flatten(cs) == EncodeAll(Merged(senders, schedule)) && HeadersWhole(cs, |schedule|)
    ensures ReadFrames(cs, |schedule|).Ok?
    ensures var fs := ReadFrames(cs, |schedule|).value.0;
            && fs == Merged(senders, schedule)
            && |fs| == |schedule|
            && forall i :: 0 <= i < |senders| ==>
                 Turns(schedule, i) <= |senders[i]| && From(fs, schedule, i) == senders[i][..Turns(schedule, i)]
  {
    MergedFromSenders(senders, schedule);
    assert Flatten(cs) == EncodeAll(Merged(senders, schedule)) + [];
    StreamRoundTrip(cs, Merged(senders, schedule), []);
    forall i | 0 <= i < |senders|
      ensures Turns(schedule, i) <= |senders[i]|
      ensures From(Merged(senders, schedule), schedule, i) == senders[i][..Turns(schedule, i)]
    {
      MergeKeepsOrder(senders, schedule, i);
    }
  }

  // ---- The connection as an object ----

  class Conn {
    var chunks: Chunks
    var written: Bytes

    constructor (cs: Chunks)
      ensures chunks == cs && written == []
    {
      chunks, written := cs, [];
    }

    /** io.ReadFull: keeps reading until `n` bytes are there or the stream ends. */
    method ReadExactly(n: nat) returns (r: Result<Bytes>)
      modifies this
      ensures written == old(written)
      ensures match ReadFull(old(chunks), n)
              case Ok((b, rest)) => r == Ok(b) && chunks == rest
              case Err(e) => r == Err(e)
    {
      var got: Bytes := [];
      PrependNothing(ReadFull(chunks, n));
      while |got| < n
        invariant |got| <= n && written == old(written)
        invariant ReadFull(old(chunks), n) == Prepend(got, ReadFull(chunks, n - |got|))
        decreases |chunks|, n - |got|
      {
        if chunks == [] { return Err(EndOfStream); }
        var c := chunks[0];
        var take := Min(n - |got|, |c|);
        TakeChunk(got, chunks, n - |got|);
        chunks := After(chunks, take);
        got := got + c[..take];
      }
      assert got + [] == got;
      r := Ok(got);
    }

    /** Reads one frame; the header comes from one plain read. */
    method Read() returns (r: Result<Frame>)
      modifies this
      ensures written == old(written)
      ensures match ReadFrame(old(chunks))
              case Ok((f, rest)) => r == Ok(f) && chunks == rest
              case Err(e) => r == Err(e)
    {
      if chunks == [] { return Err(EndOfStream); }
      var n := Min(2, |chunks[0]|);
      var header := chunks[0][..n];
      chunks := After(chunks, n);
      var len := ReadExactly(4);
      if len.Err? { return Err(len.error); }
      if |len.value| != 4 || Int32(len.value) < 0 { return Err(InvalidMessage); }
      var data := ReadExactly(Int32(len.value));
      if data.Err? { return Err(InvalidMessage); }
      r := Ok(Frame(Nth(header, 0), Nth(header, 1), data.value));
    }

    /** Builds the frame in a buffer and writes it as a whole. */
    method Write(flag: byte, typ: byte, data: Bytes)
      modifies this
      ensures chunks == old(chunks) && written == old(written) + Encode(Frame(flag, typ, data))
    {
      var buf: Bytes := [];
      buf := buf + [flag];
      buf := buf + [typ];
      buf := buf + BigEndian(|data|);
      buf := buf + data;
      assert buf == Encode(Frame(flag, typ, data));
      written := written + buf;
    }
  }

  function Prepend(got: Bytes, r: Result<(Bytes, Chunks)>): Result<(Bytes, Chunks)> {
    match r
    case Ok((b, rest)) => Ok((got + b, rest))
    case Err(e) => Err(e)
  }

  lemma PrependNothing(r: Result<(Bytes, Chunks)>)
    ensures Prepend([], r) == r
  {
    if r.Ok? { assert [] + r.value.0 == r.value.0; }
  }

  /** Taking what one read gives and going on is the same as reading all at once. */
  lemma TakeChunk(got: Bytes, cs: Chunks, n: nat)
    requires cs != [] && n > 0
    ensures var take := Min(n, |cs[0]|);
            Prepend(got, ReadFull(cs, n)) == Prepend(got + cs[0][..take], ReadFull(After(cs, take), n - take))
  {
    var c := cs[0];
    if n < |c| {
      assert got + c[..n] == (got + c[..n]) + [];
    } else {
      assert c[..|c|] == c;
      var r := ReadFull(cs[1..], n - |c|);
      if r.Ok? { Associate(got, c, r.value.0); }
    }
  }
}
