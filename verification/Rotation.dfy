/**
 The rotating log writer: a class that renames files over a mutable map from names to contents,
 proved to keep exactly the most recent chunks of a queue that never forgets anything.
 */
module Rotation {
  import opened Basics
  import opened Bytes

  // ---- File names ----

  lemma {:induction false} DecimalInjective(a: nat, b: nat)
    requires Decimal(a) == Decimal(b)
    ensures a == b
  {
    var x, y := Decimal(a), Decimal(b);
    assert x[|x| - 1] == '0' + (a % 10) as char;
    assert y[|y| - 1] == '0' + (b % 10) as char;
    assert a % 10 == b % 10;
    if a >= 10 && b >= 10 {
      assert x[..|x| - 1] == Decimal(a / 10);
      assert y[..|y| - 1] == Decimal(b / 10);
      DecimalInjective(a / 10, b / 10);
    }
  }

  /** The file holding the chunk that is `i` rotations old. */
  function FileName(name: string, i: nat): string {
    if i == 0 then name else name + "-" + Decimal(i)
  }

  lemma FileNamesDiffer(name: string, i: nat, j: nat)
    requires FileName(name, i) == FileName(name, j)
    ensures i == j
  {
    if i != 0 && j != 0 {
      assert FileName(name, i)[|name| + 1..] == Decimal(i);
      assert FileName(name, j)[|name| + 1..] == Decimal(j);
      DecimalInjective(i, j);
    }
  }

  // ---- The queue of chunks ----

  /** A chunk is the list of writes that went to one file. */
  type Chunk = seq<Bytes>

  function Flat(c: seq<Bytes>): Bytes {
    if c == [] then [] else Flat(c[..|c| - 1]) + c[|c| - 1]
  }

  /** Whether a write of `p` to a file holding `current` starts a new file. */
  predicate Rotates(current: nat, p: nat, maxBytes: nat, backups: int) { backups >= 1 && current + p >= maxBytes }

  /** All chunks ever, oldest first, after writing `p`. */
  function Enqueue(q: seq<Chunk>, p: Bytes, maxBytes: nat, backups: int): seq<Chunk>
    requires q != []
  {
    var last := q[|q| - 1];
    if Rotates(|Flat(last)|, |p|, maxBytes, backups) then q + [[p]]
    else q[|q| - 1 := last + [p]]
  }

  function EnqueueAll(ws: seq<Bytes>, maxBytes: nat, backups: int): (q: seq<Chunk>)
    ensures q != []
  {
    if ws == [] then [[]] else Enqueue(EnqueueAll(ws[..|ws| - 1], maxBytes, backups), ws[|ws| - 1], maxBytes, backups)
  }

  // ---- The file system ----

  type Files = map<string, Bytes>

  /** How many backups a log with this queue has. */
  function Kept(q: seq<Chunk>, backups: int): int { Min(|q| - 1, if backups < 0 then 0 else backups) }

  /** The `i`-th newest chunk is in file `i`, for as many as are kept, and no other backup exists. */
  ghost predicate Holds(fs: Files, name: string, backups: int, q: seq<Chunk>)
    requires q != []
  {
    && (forall i: nat :: i <= Kept(q, backups) ==>
          FileName(name, i) in fs && fs[FileName(name, i)] == Flat(q[|q| - 1 - i]))
    && (forall i: nat :: Kept(q, backups) < i <= backups ==> FileName(name, i) !in fs)
  }

  function Rename(fs: Files, from: string, to: string): Files {
    if from in fs then (fs - {from})[to := fs[from]] else fs
  }

  /** Renames file i to i+1, then i-1 to i, and so on down to 1 to 2. */
  function Shift(fs: Files, name: string, i: int): Files
    decreases i
  {
    if i <= 0 then fs else Shift(Rename(fs, FileName(name, i), FileName(name, i + 1)), name, i - 1)
  }

  /** The files after one rotation: backups moved up, the current file made the first backup, a new empty one. */
  function Rotated(fs: Files, name: string, backups: int): Files {
    Rename(Shift(fs, name, backups - 1), name, FileName(name, 1))[name := []]
  }

  /** What file `i` holds, if it exists. */
  function Slot(fs: Files, name: string, i: nat): seq<Bytes> {
    if FileName(name, i) in fs then [fs[FileName(name, i)]] else []
  }

  lemma RenameSlots(fs: Files, name: string, i: nat, j: nat)
    ensures var fs' := Rename(fs, FileName(name, i), FileName(name, i + 1));
            Slot(fs', name, j) == if j == i then []
                                  else if j == i + 1 && Slot(fs, name, i) != [] then Slot(fs, name, i)
                                  else Slot(fs, name, j)
  {
    if FileName(name, j) == FileName(name, i) { FileNamesDiffer(name, i, j); }
    if FileName(name, j) == FileName(name, i + 1) { FileNamesDiffer(name, i + 1, j); }
    if FileName(name, i) == FileName(name, i + 1) { FileNamesDiffer(name, i, i + 1); }
  }

  lemma {:induction false} ShiftSlots(fs: Files, name: string, i: int, j: nat)
    requires i >= 0
    requires forall k: nat :: 1 <= k <= i && Slot(fs, name, k) == [] ==> Slot(fs, name, k + 1) == []
    ensures Slot(Shift(fs, name, i), name, j)
            == if 2 <= j <= i + 1 then Slot(fs, name, j - 1)
               else if j == 1 && i >= 1 then []
               else Slot(fs, name, j)
    decreases i
  {
    if i > 0 {
      var fs' := Rename(fs, FileName(name, i), FileName(name, i + 1));
      RenameSlots(fs, name, i, j);
      RenameSlots(fs, name, i, i);
      RenameSlots(fs, name, i, i + 1);
      forall k: nat | 1 <= k <= i - 1 && Slot(fs', name, k) == [] ensures Slot(fs', name, k + 1) == [] {
        RenameSlots(fs, name, i, k);
        RenameSlots(fs, name, i, k + 1);
      }
      if j > 0 { RenameSlots(fs, name, i, j - 1); }
      ShiftSlots(fs', name, i - 1, j);
    }
  }

  /** The same as `Holds`, slot by slot. */
  lemma HoldsSlots(fs: Files, name: string, backups: int, q: seq<Chunk>)
    requires q != []
    ensures Holds(fs, name, backups, q) <==>
            forall i: nat :: i <= (if backups < 0 then 0 else backups) ==>
              Slot(fs, name, i) == if i < |q| then [Flat(q[|q| - 1 - i])] else []
  {
    if Holds(fs, name, backups, q) {
      forall i: nat | i <= (if backups < 0 then 0 else backups)
        ensures Slot(fs, name, i) == if i < |q| then [Flat(q[|q| - 1 - i])] else []
      {
        assert i <= Kept(q, backups) <==> i < |q|;
      }
    } else if forall i: nat :: i <= (if backups < 0 then 0 else backups) ==>
                Slot(fs, name, i) == if i < |q| then [Flat(q[|q| - 1 - i])] else [] {
      forall i: nat | i <= Kept(q, backups)
        ensures FileName(name, i) in fs && fs[FileName(name, i)] == Flat(q[|q| - 1 - i])
      {
        assert Slot(fs, name, i) == [Flat(q[|q| - 1 - i])];
      }
      forall i: nat | Kept(q, backups) < i <= backups ensures FileName(name, i) !in fs {
        assert Slot(fs, name, i) == [];
      }
    }
  }

  lemma RotatedSlot(fs: Files, name: string, backups: int, i: nat)
    requires 1 <= backups && Slot(fs, name, 0) != [] && i <= backups
    requires forall k: nat :: 1 <= k < backups && Slot(fs, name, k) == [] ==> Slot(fs, name, k + 1) == []
    ensures Slot(Rotated(fs, name, backups), name, i) == if i == 0 then [[]] else Slot(fs, name, i - 1)
  {
    var shifted := Shift(fs, name, backups - 1);
    ShiftSlots(fs, name, backups - 1, i);
    ShiftSlots(fs, name, backups - 1, 0);
    RenameSlots(shifted, name, 0, i);
    RenameSlots(shifted, name, 0, 0);
    if i != 0 && FileName(name, i) == FileName(name, 0) { FileNamesDiffer(name, i, 0); }
  }

  /** A rotation keeps the newest chunks and starts an empty one. */
  lemma RotationRefines(fs: Files, name: string, backups: int, q: seq<Chunk>)
    requires q != [] && 1 <= backups && Holds(fs, name, backups, q)
    ensures Holds(Rotated(fs, name, backups), name, backups, q + [[]])
  {
    var fs', q' := Rotated(fs, name, backups), q + [[]];
    forall i: nat | i <= backups
      ensures Slot(fs', name, i) == if i < |q'| then [Flat(q'[|q'| - 1 - i])] else []
    {
      RotatedSlotHolds(fs, name, backups, q, i);
    }
    HoldsSlots(fs', name, backups, q');
  }

  lemma RotatedSlotHolds(fs: Files, name: string, backups: int, q: seq<Chunk>, i: nat)
    requires q != [] && 1 <= backups && Holds(fs, name, backups, q) && i <= backups
    ensures var q' := q + [[]];
            Slot(Rotated(fs, name, backups), name, i) == if i < |q'| then [Flat(q'[|q'| - 1 - i])] else []
  {
    HeldSlot(fs, name, backups, q, 0);
    forall k: nat | 1 <= k < backups && Slot(fs, name, k) == [] ensures Slot(fs, name, k + 1) == [] {
      NoGap(fs, name, backups, q, k);
    }
    RotatedSlot(fs, name, backups, i);
    if i > 0 {
      HeldSlot(fs, name, backups, q, i - 1);
      OneOlder(q, i);
    }
  }

  lemma NoGap(fs: Files, name: string, backups: int, q: seq<Chunk>, k: nat)
    requires q != [] && k < backups && Holds(fs, name, backups, q) && Slot(fs, name, k) == []
    ensures Slot(fs, name, k + 1) == []
  {
    HeldSlot(fs, name, backups, q, k);
    HeldSlot(fs, name, backups, q, k + 1);
  }

  lemma OneOlder(q: seq<Chunk>, i: nat)
    requires i > 0
    ensures i <= |q| ==> (q + [[]])[|q + [[]]| - 1 - i] == q[|q| - 1 - (i - 1)]
  {
  }

  lemma HeldSlot(fs: Files, name: string, backups: int, q: seq<Chunk>, i: nat)
    requires q != [] && 0 <= i <= backups && Holds(fs, name, backups, q)
    ensures Slot(fs, name, i) == if i < |q| then [Flat(q[|q| - 1 - i])] else []
  {
    assert i <= Kept(q, backups) <==> i < |q|;
  }

  lemma AppendRefines(fs: Files, name: string, backups: int, q: seq<Chunk>, p: Bytes)
    requires q != [] && Holds(fs, name, backups, q) && name in fs
    ensures Holds(fs[name := fs[name] + p], name, backups, q[|q| - 1 := q[|q| - 1] + [p]])
  {
    var q' := q[|q| - 1 := q[|q| - 1] + [p]];
    var last := q[|q| - 1];
    assert (last + [p])[..|last|] == last;
    assert FileName(name, 0) == name && fs[name] == Flat(last);
    forall i: nat | i != 0 ensures FileName(name, i) != name {
      if FileName(name, i) == FileName(name, 0) { FileNamesDiffer(name, i, 0); }
    }
  }

  lemma EnqueueSplits(q: seq<Chunk>, p: Bytes, maxBytes: nat, backups: int)
    requires q != [] && Rotates(|Flat(q[|q| - 1])|, |p|, maxBytes, backups)
    ensures Enqueue(q, p, maxBytes, backups) == (q + [[]])[|q| := (q + [[]])[|q|] + [p]]
  {
    assert [] + [p] == [p];
  }

  // ---- Files that are not part of the log ----

  ghost predicate IsLogFile(name: string, backups: int, f: string) {
    exists i: nat :: (i == 0 || i <= backups) && f == FileName(name, i)
  }

  predicate SameFile(fs: Files, fs': Files, f: string) { (f in fs <==> f in fs') && (f in fs ==> fs[f] == fs'[f]) }

  lemma {:induction false} ShiftFrame(fs: Files, name: string, i: int, backups: int, f: string)
    requires i < backups && !IsLogFile(name, backups, f)
    ensures SameFile(fs, Shift(fs, name, i), f)
    decreases i
  {
    if i > 0 {
      assert f != FileName(name, i) && f != FileName(name, i + 1);
      ShiftFrame(Rename(fs, FileName(name, i), FileName(name, i + 1)), name, i - 1, backups, f);
    }
  }

  lemma RotatedFrame(fs: Files, name: string, backups: int, f: string)
    requires 1 <= backups && !IsLogFile(name, backups, f)
    ensures SameFile(fs, Rotated(fs, name, backups), f)
  {
    ShiftFrame(fs, name, backups - 1, backups, f);
    assert f != FileName(name, 0) && f != FileName(name, 1);
  }

  /** The files after a write. */
  function Written(fs: Files, name: string, backups: int, maxBytes: nat, p: Bytes): Files
    requires name in fs
  {
    var mid := if Rotates(|fs[name]|, |p|, maxBytes, backups) then Rotated(fs, name, backups) else fs;
    mid[name := mid[name] + p]
  }

  lemma WriteKeepsOthers(fs: Files, name: string, backups: int, maxBytes: nat, p: Bytes)
    requires name in fs
    ensures forall f :: !IsLogFile(name, backups, f) ==> SameFile(fs, Written(fs, name, backups, maxBytes, p), f)
  {
    forall f | !IsLogFile(name, backups, f) ensures SameFile(fs, Written(fs, name, backups, maxBytes, p), f) {
      assert f != FileName(name, 0);
      if backups >= 1 { RotatedFrame(fs, name, backups, f); }
    }
  }

  /** Whatever queue the files held before a write, they hold it with the write added afterwards. */
  lemma WriteRefines(fs: Files, name: string, backups: int, maxBytes: nat, q: seq<Chunk>, p: Bytes)
    requires name in fs && q != [] && Holds(fs, name, backups, q)
    ensures Holds(Written(fs, name, backups, maxBytes, p), name, backups, Enqueue(q, p, maxBytes, backups))
  {
    assert FileName(name, 0) == name && fs[name] == Flat(q[|q| - 1]);
    if Rotates(|fs[name]|, |p|, maxBytes, backups) {
      RotationRefines(fs, name, backups, q);
      AppendRefines(Rotated(fs, name, backups), name, backups, q + [[]], p);
      EnqueueSplits(q, p, maxBytes, backups);
    } else {
      AppendRefines(fs, name, backups, q, p);
    }
  }

  class RotatingFile {
    var files: Files
    const fileName: string
    const maxBytes: nat
    const backupCount: int

    /** The current file is open, so it exists. */
    ghost predicate Valid() reads this { fileName in files }

    /** Opens the log for appending, creating it if needed; on a fresh log the queue is one empty chunk. */
    constructor (fs: Files, name: string, bytes: nat, backups: int)
      ensures Valid() && fileName == name && maxBytes == bytes && backupCount == backups
      ensures files == if name in fs then fs else fs[name := []]
      ensures (forall i: nat :: i == 0 || i <= backups ==> FileName(name, i) !in fs) ==>
                Holds(files, name, backups, [[]])
      ensures forall q :: q != [] && Holds(fs, name, backups, q) ==> Holds(files, name, backups, q)
    {
      files := if name in fs then fs else fs[name := []];
      fileName, maxBytes, backupCount := name, bytes, backups;
      new;
      assert FileName(name, 0) == name;
      forall i: nat | i != 0 ensures FileName(name, i) != name {
        if FileName(name, i) == FileName(name, 0) { FileNamesDiffer(name, i, 0); }
      }
    }

    /** The renaming loop, run when the next write does not fit. */
    method Rotating(wn: nat)
      requires Valid()
      modifies this
      ensures Valid()
      ensures files == if Rotates(|old(files)[fileName]|, wn, maxBytes, backupCount)
                       then Rotated(old(files), fileName, backupCount) else old(files)
    {
      if backupCount < 1 || |files[fileName]| + wn < maxBytes {
        return;
      }
      var i := backupCount - 1;
      while i > 0
        invariant Shift(files, fileName, i) == Shift(old(files), fileName, backupCount - 1)
      {
        files := Rename(files, FileName(fileName, i), FileName(fileName, i + 1));
        i := i - 1;
      }
      files := Rename(files, fileName, FileName(fileName, 1));
      files := files[fileName := []];
    }

    /** Appends `p`, rotating first if needed: whatever queue the files held, they now hold it with `p` added. */
    method Write(p: Bytes) returns (n: nat)
      requires Valid()
      modifies this
      ensures Valid() && n == |p|
      ensures forall q :: q != [] && Holds(old(files), fileName, backupCount, q) ==>
                            Holds(files, fileName, backupCount, Enqueue(q, p, maxBytes, backupCount))
      ensures forall f :: !IsLogFile(fileName, backupCount, f) ==> SameFile(old(files), files, f)
    {
      Rotating(|p|);
      files := files[fileName := files[fileName] + p];
      n := |p|;
      WriteKeepsOthers(old(files), fileName, backupCount, maxBytes, p);
      forall q | q != [] && Holds(old(files), fileName, backupCount, q)
        ensures Holds(files, fileName, backupCount, Enqueue(q, p, maxBytes, backupCount))
      {
        WriteRefines(old(files), fileName, backupCount, maxBytes, q, p);
      }
    }

    /** A whole run of writes on a fresh log. */
    method WriteAll(ws: seq<Bytes>)
      requires Valid() && Holds(files, fileName, backupCount, [[]])
      modifies this
      ensures Valid() && Holds(files, fileName, backupCount, EnqueueAll(ws, maxBytes, backupCount))
    {
      for k := 0 to |ws|
        invariant Valid() && Holds(files, fileName, backupCount, EnqueueAll(ws[..k], maxBytes, backupCount))
      {
        var n := Write(ws[k]);
        assert ws[..k + 1][..k] == ws[..k];
      }
      assert ws[..|ws|] == ws;
    }
  }

  /** Refuses a size that is not positive. */
  method NewRotatingFile(fs: Files, name: string, bytes: int, backups: int) returns (rf: RotatingFile?)
    ensures rf == null <==> bytes <= 0
    ensures rf != null ==> fresh(rf) && rf.Valid()
    ensures rf != null ==> rf.fileName == name && rf.maxBytes == bytes && rf.backupCount == backups
    ensures rf != null && (forall i: nat :: i == 0 || i <= backups ==> FileName(name, i) !in fs) ==>
              Holds(rf.files, name, backups, [[]])
  {
    if bytes <= 0 { return null; }
    rf := new RotatingFile(fs, name, bytes, backups);
  }

  // ---- What the queue of chunks is, over any sequence of writes ----

  /** The writes of all chunks, in order. */
  function Writes(q: seq<Chunk>): seq<Bytes> {
    if q == [] then [] else Writes(q[..|q| - 1]) + q[|q| - 1]
  }

  lemma EnqueueAddsWrite(q: seq<Chunk>, p: Bytes, maxBytes: nat, backups: int)
    requires q != []
    ensures Writes(Enqueue(q, p, maxBytes, backups)) == Writes(q) + [p]
  {
    var q' := Enqueue(q, p, maxBytes, backups);
    if Rotates(|Flat(q[|q| - 1])|, |p|, maxBytes, backups) {
      assert q'[..|q'| - 1] == q;
    } else {
      assert q'[..|q'| - 1] == q[..|q| - 1];
    }
  }

  /** Nothing is lost, repeated or reordered on the way into the queue. */
  lemma {:induction false} QueueIsEverything(ws: seq<Bytes>, maxBytes: nat, backups: int)
    ensures Writes(EnqueueAll(ws, maxBytes, backups)) == ws
  {
    if ws == [] {
      assert Writes([[]]) == Writes([[]][..0]) + [];
    } else {
      QueueIsEverything(ws[..|ws| - 1], maxBytes, backups);
      EnqueueAddsWrite(EnqueueAll(ws[..|ws| - 1], maxBytes, backups), ws[|ws| - 1], maxBytes, backups);
    }
  }

  /** The bytes of file k, then of file k-1, down to the current file. */
  function Contents(fs: Files, name: string, k: int): Bytes {
    if k < 0 then [] else (if FileName(name, k) in fs then fs[FileName(name, k)] else []) + Contents(fs, name, k - 1)
  }

  lemma {:induction false} FlatAppend(a: seq<Bytes>, b: seq<Bytes>)
    ensures Flat(a + b) == Flat(a) + Flat(b)
  {
    if b == [] {
      assert a + b == a;
    } else {
      FlatAppend(a, b[..|b| - 1]);
      assert (a + b)[..|a + b| - 1] == a + b[..|b| - 1];
    }
  }

  lemma {:induction false} WritesAppend(a: seq<Chunk>, b: seq<Chunk>)
    ensures Writes(a + b) == Writes(a) + Writes(b)
  {
    if b == [] {
      assert a + b == a;
    } else {
      WritesAppend(a, b[..|b| - 1]);
      assert (a + b)[..|a + b| - 1] == a + b[..|b| - 1];
    }
  }

  lemma WritesPrepend(c: Chunk, q: seq<Chunk>)
    ensures Flat(Writes([c] + q)) == Flat(c) + Flat(Writes(q))
  {
    WritesAppend([c], q);
    assert Writes([c]) == c by { assert Writes([c]) == Writes([c][..0]) + c && [] + c == c; }
    FlatAppend(c, Writes(q));
  }

  /** The bytes of chunk `i` and all newer ones. */
  function BytesFrom(q: seq<Chunk>, i: nat): Bytes
    decreases |q| - i
  {
    if i >= |q| then [] else Flat(q[i]) + BytesFrom(q, i + 1)
  }

  lemma {:induction false} BytesFromAreWrites(q: seq<Chunk>, i: nat)
    requires i <= |q|
    ensures BytesFrom(q, i) == Flat(Writes(q[i..]))
    decreases |q| - i
  {
    if i < |q| {
      BytesFromAreWrites(q, i + 1);
      assert q[i..] == [q[i]] + q[i + 1..];
      WritesPrepend(q[i], q[i + 1..]);
    } else {
      assert q[i..] == [];
    }
  }

  lemma {:induction false} ContentsAreChunks(fs: Files, name: string, backups: int, q: seq<Chunk>, i: nat)
    requires q != [] && Holds(fs, name, backups, q) && i <= |q| && |q| - 1 - i <= Kept(q, backups)
    ensures Contents(fs, name, |q| - 1 - i) == BytesFrom(q, i)
    decreases |q| - i
  {
    if i < |q| {
      var k: nat := |q| - 1 - i;
      ContentsAreChunks(fs, name, backups, q, i + 1);
      assert FileName(name, k) in fs && fs[FileName(name, k)] == Flat(q[i]);
    }
  }

  /**
   After any writes to a fresh log the kept files, oldest first, are a suffix of everything written:
   they hold the bytes of all writes from some write on.
   */
  lemma LogIsSuffix(fs: Files, name: string, maxBytes: nat, backups: int, ws: seq<Bytes>) returns (n: nat)
    requires Holds(fs, name, backups, EnqueueAll(ws, maxBytes, backups))
    ensures n <= |ws| && Contents(fs, name, Kept(EnqueueAll(ws, maxBytes, backups), backups)) == Flat(ws[n..])
    ensures Flat(ws) == Flat(ws[..n]) + Contents(fs, name, Kept(EnqueueAll(ws, maxBytes, backups), backups))
  {
    var q := EnqueueAll(ws, maxBytes, backups);
    var k := Kept(q, backups);
    QueueIsEverything(ws, maxBytes, backups);
    ContentsAreChunks(fs, name, backups, q, |q| - 1 - k);
    BytesFromAreWrites(q, |q| - 1 - k);
    n := SuffixFrom(ws, q, |q| - 1 - k, Contents(fs, name, k));
  }

  lemma SuffixFrom(ws: seq<Bytes>, q: seq<Chunk>, m: nat, contents: Bytes) returns (n: nat)
    requires ws == Writes(q) && m <= |q| && contents == Flat(Writes(q[m..]))
    ensures n <= |ws| && contents == Flat(ws[n..]) && Flat(ws) == Flat(ws[..n]) + contents
  {
    n := SplitWrites(ws, q, m);
  }

  /** The writes of the newer chunks are the later writes. */
  lemma SplitWrites(ws: seq<Bytes>, q: seq<Chunk>, m: nat) returns (n: nat)
    requires ws == Writes(q) && m <= |q|
    ensures n <= |ws| && ws[n..] == Writes(q[m..])
    ensures Flat(ws) == Flat(ws[..n]) + Flat(ws[n..])
  {
    assert q == q[..m] + q[m..];
    WritesAppend(q[..m], q[m..]);
    n := |Writes(q[..m])|;
    assert ws == ws[..n] + ws[n..];
    FlatAppend(ws[..n], ws[n..]);
  }

  /** A file is closed only when the next write does not fit into it, and that write begins the next file. */
  lemma {:induction false} ClosedWhenFull(ws: seq<Bytes>, maxBytes: nat, backups: int, i: nat)
    requires i + 1 < |EnqueueAll(ws, maxBytes, backups)|
    ensures var q := EnqueueAll(ws, maxBytes, backups);
            q[i + 1] != [] && |Flat(q[i])| + |q[i + 1][0]| >= maxBytes
  {
    if ws != [] {
      var before := EnqueueAll(ws[..|ws| - 1], maxBytes, backups);
      if i + 1 < |before| { ClosedWhenFull(ws[..|ws| - 1], maxBytes, backups, i); }
    }
  }

  lemma {:induction false} FlatOfPart(ws: seq<Bytes>, k: nat)
    requires k <= |ws|
    ensures |Flat(ws[..k])| <= |Flat(ws)|
    decreases |ws|
  {
    if k < |ws| {
      assert ws[..|ws| - 1][..k] == ws[..k];
      FlatOfPart(ws[..|ws| - 1], k);
    } else {
      assert ws[..k] == ws;
    }
  }

  /** Writes that together stay below the limit all go to one file, and no backup is made. */
  lemma {:induction false} FittingWritesStay(ws: seq<Bytes>, maxBytes: nat, backups: int)
    requires |Flat(ws)| < maxBytes
    ensures EnqueueAll(ws, maxBytes, backups) == [ws]
  {
    if ws != [] {
      var front := ws[..|ws| - 1];
      FlatOfPart(ws, |front|);
      FittingWritesStay(front, maxBytes, backups);
      assert front + [ws[|ws| - 1]] == ws;
    }
  }

  /** With backups, a file as large as the limit holds a single write, however large the writes are. */
  lemma {:induction false} LargeFileIsOneWrite(ws: seq<Bytes>, maxBytes: nat, backups: int, i: nat)
    requires 1 <= backups && 0 < maxBytes && i < |EnqueueAll(ws, maxBytes, backups)|
    ensures var c := EnqueueAll(ws, maxBytes, backups)[i];
            |Flat(c)| >= maxBytes ==> |c| == 1
  {
    if ws != [] {
      var q := EnqueueAll(ws[..|ws| - 1], maxBytes, backups);
      var last, p := q[|q| - 1], ws[|ws| - 1];
      if i < |q| { LargeFileIsOneWrite(ws[..|ws| - 1], maxBytes, backups, i); }
      assert (last + [p])[..|last|] == last;
    }
  }

  /** If every write is shorter than the limit, every file stays below the limit. */
  lemma {:induction false} SmallWritesSmallFiles(ws: seq<Bytes>, maxBytes: nat, backups: int, i: nat)
    requires 1 <= backups && 0 < maxBytes && i < |EnqueueAll(ws, maxBytes, backups)|
    requires forall k :: 0 <= k < |ws| ==> |ws[k]| < maxBytes
    ensures |Flat(EnqueueAll(ws, maxBytes, backups)[i])| < maxBytes
  {
    if ws != [] {
      var q := EnqueueAll(ws[..|ws| - 1], maxBytes, backups);
      var last, p := q[|q| - 1], ws[|ws| - 1];
      if i < |q| { SmallWritesSmallFiles(ws[..|ws| - 1], maxBytes, backups, i); }
      assert (last + [p])[..|last|] == last;
      assert Flat([p]) == Flat([p][..0]) + p;
    }
  }

  lemma MulStep(k: int, m: int)
    ensures (k + 1) * m == k * m + m
  {
  }

  lemma {:induction false} ContentsBound(fs: Files, name: string, k: int, maxBytes: nat)
    requires forall i: nat :: i <= k && FileName(name, i) in fs ==> |fs[FileName(name, i)]| < maxBytes
    requires 0 < maxBytes && -1 <= k
    ensures |Contents(fs, name, k)| <= (k + 1) * (maxBytes - 1)
    decreases k + 1
  {
    if k >= 0 {
      ContentsBound(fs, name, k - 1, maxBytes);
      MulStep(k, maxBytes - 1);
    }
  }

  /** After any writes shorter than the limit, the log stays below (backups + 1) times the limit. */
  lemma LogSizeBound(fs: Files, name: string, maxBytes: nat, backups: int, ws: seq<Bytes>)
    requires 1 <= backups && 0 < maxBytes && Holds(fs, name, backups, EnqueueAll(ws, maxBytes, backups))
    requires forall k :: 0 <= k < |ws| ==> |ws[k]| < maxBytes
    ensures forall i: nat :: i <= backups && FileName(name, i) in fs ==> |fs[FileName(name, i)]| < maxBytes
    ensures |Contents(fs, name, backups)| < (backups + 1) * maxBytes
  {
    var q := EnqueueAll(ws, maxBytes, backups);
    forall i: nat | i <= backups && FileName(name, i) in fs ensures |fs[FileName(name, i)]| < maxBytes {
      if i <= Kept(q, backups) { SmallWritesSmallFiles(ws, maxBytes, backups, |q| - 1 - i); }
    }
    ContentsBound(fs, name, backups, maxBytes);
  }

  // ---- When short writes keep every file short ----

  lemma {:induction false} NoBackupsOneChunk(ws: seq<Bytes>, maxBytes: nat, backups: int)
    requires backups < 1
    ensures EnqueueAll(ws, maxBytes, backups) == [ws]
  {
    if ws != [] {
      NoBackupsOneChunk(ws[..|ws| - 1], maxBytes, backups);
      assert ws[..|ws| - 1] + [ws[|ws| - 1]] == ws;
    }
  }

  lemma {:induction false} EmptyWrites(ws: seq<Bytes>)
    requires forall k :: 0 <= k < |ws| ==> ws[k] == []
    ensures Flat(ws) == []
  {
    if ws != [] { EmptyWrites(ws[..|ws| - 1]); }
  }

  /** Every chunk is below the limit, for all writes below it. */
  ghost predicate StaysShort(maxBytes: nat, backups: int) {
    forall ws: seq<Bytes>, i: nat ::
      (forall k :: 0 <= k < |ws| ==> |ws[k]| < maxBytes) && i < |EnqueueAll(ws, maxBytes, backups)| ==>
        |Flat(EnqueueAll(ws, maxBytes, backups)[i])| < maxBytes
  }

  /** Short writes keep every file short if and only if there are backups or only empty writes are short. */
  lemma StaysShortIff(maxBytes: nat, backups: int)
    requires 0 < maxBytes
    ensures StaysShort(maxBytes, backups) <==> 1 <= backups || maxBytes == 1
  {
    if 1 <= backups || maxBytes == 1 {
      forall ws: seq<Bytes>, i: nat
        | (forall k :: 0 <= k < |ws| ==> |ws[k]| < maxBytes) && i < |EnqueueAll(ws, maxBytes, backups)|
        ensures |Flat(EnqueueAll(ws, maxBytes, backups)[i])| < maxBytes
      {
        if 1 <= backups {
          SmallWritesSmallFiles(ws, maxBytes, backups, i);
        } else {
          NoBackupsOneChunk(ws, maxBytes, backups);
          EmptyWrites(ws);
        }
      }
    } else {
      TwoWritesTooLong(maxBytes, backups);
    }
  }

  lemma TwoWritesTooLong(maxBytes: nat, backups: int)
    requires backups < 1 && 1 < maxBytes
    ensures !StaysShort(maxBytes, backups)
  {
    var p: Bytes := seq(maxBytes - 1, _ => 0);
    var ws := [p, p];
    NoBackupsOneChunk(ws, maxBytes, backups);
    assert EnqueueAll(ws, maxBytes, backups)[0] == ws;
    assert ws[..1] == [p] && [p][..0] == [];
    assert Flat([p]) == [] + p;
    assert Flat(ws) == Flat([p]) + p;
  }
}
