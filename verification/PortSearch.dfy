/**
 The search for an available port: draws from an endless stream of random permutations of the port
 range, and the pigeonhole bound on how many draws are needed.
 */
module PortSearch {
  import opened Basics
  import opened Options

  /** The permutations that the producer goroutine will send, the n-th given by `perms(n)`. */
  type Perms = nat -> seq<int>

  /** Where the stream stands: the unread part of the current permutation and the number of the next one. */
  datatype Stream = Stream(rest: seq<int>, next: nat)

  ghost predicate Within(s: seq<int>, start: int, end: int) { forall i :: 0 <= i < |s| ==> start <= s[i] < end }

  ghost predicate IsPermutation(s: seq<int>, start: int, end: int) {
    |s| == end - start && Distinct(s) && Within(s, start, end)
  }

  ghost predicate ValidStream(perms: Perms, st: Stream, start: int, end: int) {
    && start < end
    && (forall n :: IsPermutation(perms(n), start, end))
    && (exists p :: IsPermutation(p, start, end) && |st.rest| <= |p| && st.rest == p[|p| - |st.rest|..])
  }

  /** The stream with a permutation loaded if the last one is used up. */
  function Loaded(perms: Perms, st: Stream): Stream {
    if st.rest != [] then st else Stream(perms(st.next), st.next + 1)
  }

  function Advance(perms: Perms, st: Stream): Stream {
    var l := Loaded(perms, st);
    if l.rest == [] then l else l.(rest := l.rest[1..])
  }

  function Head(perms: Perms, st: Stream): int {
    var l := Loaded(perms, st);
    if l.rest == [] then 0 else l.rest[0]
  }

  /** The next `w` draws. */
  function Draws(perms: Perms, st: Stream, w: nat): seq<int>
    decreases w
  {
    if w == 0 then [] else [Head(perms, st)] + Draws(perms, Advance(perms, st), w - 1)
  }

  /** Probes up to `w` draws and stops at the first free one: the port, if any, and where the stream then stands. */
  function Search(perms: Perms, st: Stream, busy: set<int>, w: nat): (Option<int>, Stream)
    decreases w
  {
    if w == 0 then (None, st)
    else if Head(perms, st) !in busy then (Some(Head(perms, st)), Advance(perms, st))
    else Search(perms, Advance(perms, st), busy, w - 1)
  }

  lemma {:induction false} SearchIsFirstFree(perms: Perms, st: Stream, busy: set<int>, w: nat)
    ensures Search(perms, st, busy, w).0 == FirstFree(Draws(perms, st, w), busy)
    decreases w
  {
    if w > 0 {
      SearchIsFirstFree(perms, Advance(perms, st), busy, w - 1);
      assert Draws(perms, st, w)[1..] == Draws(perms, Advance(perms, st), w - 1);
    }
  }

  /** The first of these ports that is free. */
  function FirstFree(ports: seq<int>, busy: set<int>): Option<int> {
    if ports == [] then None
    else if ports[0] !in busy then Some(ports[0])
    else FirstFree(ports[1..], busy)
  }

  lemma {:induction false} FirstFreeFinds(ports: seq<int>, busy: set<int>)
    ensures FirstFree(ports, busy).None? <==> forall i :: 0 <= i < |ports| ==> ports[i] in busy
    ensures FirstFree(ports, busy).Some? ==>
              FirstFree(ports, busy).value in ports && FirstFree(ports, busy).value !in busy
  {
    if ports != [] {
      FirstFreeFinds(ports[1..], busy);
      assert forall i :: 0 <= i < |ports[1..]| ==> ports[1..][i] == ports[i + 1];
      assert ports == [ports[0]] + ports[1..];
    }
  }

  // ---- Any window of draws is a piece of one permutation and a piece of the next ----

  lemma {:induction false} DrawsFromRest(perms: Perms, st: Stream, w: nat)
    requires w <= |st.rest|
    ensures Draws(perms, st, w) == st.rest[..w]
    decreases w
  {
    if w > 0 {
      DrawsFromRest(perms, Advance(perms, st), w - 1);
      assert st.rest[..w] == [st.rest[0]] + st.rest[1..][..w - 1];
    }
  }

  lemma {:induction false} DrawsPastRest(perms: Perms, st: Stream, w: nat)
    requires w >= |st.rest|
    ensures Draws(perms, st, w) == st.rest + Draws(perms, Stream([], st.next), w - |st.rest|)
    decreases w
  {
    if st.rest == [] {
      assert st == Stream([], st.next);
    } else {
      DrawsPastRest(perms, Advance(perms, st), w - 1);
      assert st.rest == [st.rest[0]] + st.rest[1..];
    }
  }

  /** From an empty rest, drawing is drawing from the next permutation. */
  lemma DrawsReload(perms: Perms, next: nat, w: nat)
    requires perms(next) != []
    ensures Draws(perms, Stream([], next), w) == Draws(perms, Stream(perms(next), next + 1), w)
  {
  }

  lemma RestIsDistinct(perms: Perms, st: Stream, start: int, end: int)
    requires ValidStream(perms, st, start, end)
    ensures Distinct(st.rest) && Within(st.rest, start, end)
  {
  }

  /** A window that ends within the next permutation is a piece of the current one and a piece of the next. */
  lemma TwoPieces(perms: Perms, st: Stream, start: int, end: int, w: nat) returns (a: seq<int>, b: seq<int>)
    requires ValidStream(perms, st, start, end) && w <= |st.rest| + (end - start)
    ensures Draws(perms, st, w) == a + b && |a| == Min(w, |st.rest|)
    ensures Distinct(a) && Distinct(b) && Within(a, start, end) && Within(b, start, end)
  {
    RestIsDistinct(perms, st, start, end);
    if w <= |st.rest| {
      DrawsFromRest(perms, st, w);
      a, b := st.rest[..w], [];
      assert a + b == a;
    } else {
      var v, p := w - |st.rest|, perms(st.next);
      assert IsPermutation(p, start, end);
      DrawsPastRest(perms, st, w);
      DrawsReload(perms, st.next, v);
      DrawsFromRest(perms, Stream(p, st.next + 1), v);
      a, b := st.rest, p[..v];
    }
  }

  /** At most one permutation boundary falls inside a window of at most L + 1 draws. */
  lemma WindowSplits(perms: Perms, st: Stream, start: int, end: int, w: nat) returns (a: seq<int>, b: seq<int>)
    requires ValidStream(perms, st, start, end) && w <= end - start + 1
    ensures Draws(perms, st, w) == a + b
    ensures Distinct(a) && Distinct(b) && Within(a, start, end) && Within(b, start, end)
  {
    if st.rest != [] {
      a, b := TwoPieces(perms, st, start, end, w);
    } else {
      var p := perms(st.next);
      assert IsPermutation(p, start, end) && p == p[|p| - |p|..];
      DrawsReload(perms, st.next, w);
      a, b := TwoPieces(perms, Stream(p, st.next + 1), start, end, w);
    }
  }

  lemma {:induction false} DistinctCount(s: seq<int>, x: int)
    requires Distinct(s)
    ensures multiset(s)[x] <= 1
  {
    if s != [] {
      DistinctCount(s[1..], x);
      assert s == [s[0]] + s[1..];
      if x == s[0] { assert x !in s[1..]; }
    }
  }

  /** Any window of at most L + 1 consecutive draws hits each port at most twice. */
  lemma EachPortAtMostTwice(perms: Perms, st: Stream, start: int, end: int, w: nat, port: int)
    requires ValidStream(perms, st, start, end) && w <= end - start + 1
    ensures multiset(Draws(perms, st, w))[port] <= 2
  {
    var a, b := WindowSplits(perms, st, start, end, w);
    DistinctCount(a, port);
    DistinctCount(b, port);
  }

  // ---- The pigeonhole bound ----

  function BusyIn(busy: set<int>, start: int, end: int): set<int> { set p | p in busy && start <= p < end }

  lemma {:induction false} DistinctFits(s: seq<int>, t: set<int>)
    requires Distinct(s) && forall i :: 0 <= i < |s| ==> s[i] in t
    ensures |s| <= |t|
  {
    if s != [] {
      DistinctFits(s[1..], t - {s[0]});
    }
  }

  lemma {:induction false} DrawsLength(perms: Perms, st: Stream, w: nat)
    ensures |Draws(perms, st, w)| == w
    decreases w
  {
    if w > 0 { DrawsLength(perms, Advance(perms, st), w - 1); }
  }

  /** A shorter search that succeeds is a longer one too. */
  lemma {:induction false} SearchExtends(perms: Perms, st: Stream, busy: set<int>, v: nat, w: nat)
    requires v <= w && Search(perms, st, busy, v).0.Some?
    ensures Search(perms, st, busy, w) == Search(perms, st, busy, v)
    decreases v
  {
    if Head(perms, st) in busy { SearchExtends(perms, Advance(perms, st), busy, v - 1, w - 1); }
  }

  /** The part of a window up to the end of the next permutation holds a free port. */
  lemma WindowHasFree(perms: Perms, st: Stream, start: int, end: int, busy: set<int>, w: nat)
    requires ValidStream(perms, st, start, end) && w <= |st.rest| + (end - start)
    requires |BusyIn(busy, start, end)| < end - start
    requires 2 * |BusyIn(busy, start, end)| < w || w == |st.rest| + (end - start)
    ensures var port := Search(perms, st, busy, w).0;
            port.Some? && start <= port.value < end && port.value !in busy
  {
    var d, all := Draws(perms, st, w), BusyIn(busy, start, end);
    var a, b := TwoPieces(perms, st, start, end, w);
    DrawsLength(perms, st, w);
    SearchIsFirstFree(perms, st, busy, w);
    FirstFreeFinds(d, busy);
    if FirstFree(d, busy).None? {
      forall i | 0 <= i < |a| ensures a[i] in all { assert d[i] == a[i]; }
      forall i | 0 <= i < |b| ensures b[i] in all { assert d[|a| + i] == b[i]; }
      DistinctFits(a, all);
      DistinctFits(b, all);
      assert false;
    }
    var port := FirstFree(d, busy).value;
    var i :| 0 <= i < |d| && d[i] == port;
    assert if i < |a| then d[i] == a[i] else d[i] == b[i - |a|];
  }

  /** A search of `w` draws finds a free port of the range if there is one and `w` exceeds twice the busy ones. */
  lemma SearchSucceeds(perms: Perms, st: Stream, start: int, end: int, busy: set<int>, w: nat)
    requires ValidStream(perms, st, start, end)
    requires |BusyIn(busy, start, end)| < end - start && 2 * |BusyIn(busy, start, end)| < w
    ensures var port := Search(perms, st, busy, w).0;
            port.Some? && start <= port.value < end && port.value !in busy
  {
    var v := Min(w, |st.rest| + (end - start));
    WindowHasFree(perms, st, start, end, busy, v);
    SearchExtends(perms, st, busy, v, w);
  }

  // ---- The bound is exact ----

  /** The ports of the range that are, or are not, in a set, in increasing order. */
  function Listing(s: set<int>, inside: bool, start: int, end: int): (l: seq<int>)
    ensures forall i :: 0 <= i < |l| ==> start <= l[i] < end && (l[i] in s <==> inside)
    ensures Distinct(l)
    decreases end - start
  {
    if start >= end then []
    else (if (start in s) == inside then [start] else []) + Listing(s, inside, start + 1, end)
  }

  lemma {:induction false} ListingSizes(s: set<int>, start: int, end: int)
    requires start <= end
    ensures |Listing(s, true, start, end)| + |Listing(s, false, start, end)| == end - start
    ensures |Listing(s, true, start, end)| == |BusyIn(s, start, end)|
    decreases end - start
  {
    if start < end {
      ListingSizes(s, start + 1, end);
      assert BusyIn(s, start, end) == BusyIn(s, start + 1, end) + (if start in s then {start} else {});
    } else {
      assert BusyIn(s, start, end) == {};
    }
  }

  lemma ListingsJoin(s: set<int>, inside: bool, start: int, end: int)
    requires start <= end
    ensures IsPermutation(Listing(s, inside, start, end) + Listing(s, !inside, start, end), start, end)
  {
    ListingSizes(s, start, end);
  }

  /** If all ports are busy, or twice the busy ports are at least `w`, some stream makes a search of `w` draws fail. */
  lemma SearchCanFail(start: int, end: int, busy: set<int>, w: nat) returns (perms: Perms, st: Stream)
    requires start < end && (w <= 2 * |BusyIn(busy, start, end)| || |BusyIn(busy, start, end)| == end - start)
    ensures ValidStream(perms, st, start, end) && Search(perms, st, busy, w).0 == None
  {
    var a, b := Listing(busy, true, start, end), Listing(busy, false, start, end);
    ListingSizes(busy, start, end);
    ListingsJoin(busy, true, start, end);
    ListingsJoin(busy, false, start, end);
    perms, st := (n: nat) => a + b, Stream(a, 0);
    assert (b + a)[|b + a| - |a|..] == a;
    if w <= 2 * |a| {
      FailingDraws(perms, a, b, busy, w);
    } else {
      assert b == [] && a + b == a;
      AllBusyFails(perms, st, busy, w);
    }
  }

  lemma {:induction false} AllBusyFails(perms: Perms, st: Stream, busy: set<int>, w: nat)
    requires forall x :: x in st.rest ==> x in busy
    requires forall n, x :: x in perms(n) ==> x in busy
    requires forall n :: perms(n) != []
    ensures Search(perms, st, busy, w).0 == None
    decreases w
  {
    if w > 0 {
      var l := Loaded(perms, st);
      assert l.rest[0] in l.rest && l.rest == [l.rest[0]] + l.rest[1..];
      AllBusyFails(perms, Advance(perms, st), busy, w - 1);
    }
  }

  lemma FailingDraws(perms: Perms, a: seq<int>, b: seq<int>, busy: set<int>, w: nat)
    requires perms(0) == a + b && w <= 2 * |a| && forall x :: x in a ==> x in busy
    ensures Search(perms, Stream(a, 0), busy, w).0 == None
  {
    SearchIsFirstFree(perms, Stream(a, 0), busy, w);
    var d := Draws(perms, Stream(a, 0), w);
    if w <= |a| {
      DrawsFromRest(perms, Stream(a, 0), w);
    } else {
      DrawsPastRest(perms, Stream(a, 0), w);
      DrawsReload(perms, 0, w - |a|);
      DrawsFromRest(perms, Stream(a + b, 1), w - |a|);
      assert (a + b)[..w - |a|] == a[..w - |a|];
    }
    forall i | 0 <= i < |d| ensures d[i] in busy {
      assert d[i] == if i < |a| then a[i] else a[i - |a|];
    }
    FirstFreeFinds(d, busy);
  }

  /**
   A search of `w` draws succeeds on every stream if and only if some port of the range is free and twice
   the busy ports are fewer than `w`.
   */
  lemma SearchBoundIsExact(start: int, end: int, busy: set<int>, w: nat)
    requires start < end
    ensures (forall perms, st :: ValidStream(perms, st, start, end) ==> Search(perms, st, busy, w).0.Some?)
            <==> |BusyIn(busy, start, end)| < end - start && 2 * |BusyIn(busy, start, end)| < w
  {
    ListingSizes(busy, start, end);
    if |BusyIn(busy, start, end)| < end - start && 2 * |BusyIn(busy, start, end)| < w {
      forall perms, st | ValidStream(perms, st, start, end) ensures Search(perms, st, busy, w).0.Some? {
        SearchSucceeds(perms, st, start, end, busy, w);
      }
    } else {
      var perms, st := SearchCanFail(start, end, busy, w);
      assert ValidStream(perms, st, start, end);
    }
  }

  // ---- The search itself ----

  class PortFinder {
    const sPort: int
    const ePort: int
    const force: bool
    const perms: Perms
    var stream: Stream

    ghost predicate Valid() reads this { ValidStream(perms, stream, sPort, ePort) }

    /** SetPortRange: a new producer for the range. */
    constructor (startPort: int, endPort: int, forceRange: bool, ps: Perms)
      requires startPort < endPort && forall n :: IsPermutation(ps(n), startPort, endPort)
      ensures Valid() && sPort == startPort && ePort == endPort && force == forceRange
      ensures perms == ps && stream == Stream([], 0)
    {
      sPort, ePort, force, perms := startPort, endPort, forceRange, ps;
      stream := Stream([], 0);
      new;
      assert IsPermutation(ps(0), startPort, endPort) && ps(0)[|ps(0)|..] == [];
    }

    /** One receive from the producer's channel. */
    method Draw() returns (port: int)
      requires Valid()
      modifies this
      ensures Valid() && stream == Advance(perms, old(stream)) && port == Head(perms, old(stream))
    {
      if stream.rest == [] {
        assert IsPermutation(perms(stream.next), sPort, ePort);
        stream := Stream(perms(stream.next), stream.next + 1);
        assert stream.rest == stream.rest[|stream.rest| - |stream.rest|..];
      }
      port := stream.rest[0];
      ghost var p :| IsPermutation(p, sPort, ePort) && |stream.rest| <= |p| && stream.rest == p[|p| - |stream.rest|..];
      stream := stream.(rest := stream.rest[1..]);
      assert stream.rest == p[|p| - |stream.rest|..];
    }

    /** The port asked for, after a forced range has been applied. */
    function Wanted(init: int): int { if force && (init < sPort || init > ePort) then 0 else init }

    /** How many draws the search may make. */
    function Budget(init: int): nat {
      var from := if Wanted(init) > 0 then Wanted(init) else sPort;
      if from <= ePort then ePort - from + 1 else 0
    }

    /** The port asked for if it is free, else the outcome of a search over the budget of draws, 0 if it fails. */
    method FindAvailablePort(init: int, busy: set<int>) returns (port: int)
      requires Valid()
      modifies this
      ensures Valid()
      ensures var (found, st) := Search(perms, old(stream), busy, Budget(init));
              if Wanted(init) > 0 && Wanted(init) !in busy then port == Wanted(init) && stream == old(stream)
              else port == (if found.Some? then found.value else 0) && stream == st
    {
      var from := Wanted(init);
      if from > 0 {
        if from !in busy { return from; }
      } else {
        from := sPort;
      }
      var i := from;
      while i <= ePort
        invariant Valid()
        invariant Search(perms, old(stream), busy, Budget(init))
                  == Search(perms, stream, busy, if i <= ePort then ePort - i + 1 else 0)
      {
        port := Draw();
        if port !in busy { return; }
        i := i + 1;
      }
      port := 0;
    }
  }

  /** A wish that a forced range does not allow counts as none. */
  predicate NoWish(f: PortFinder, init: int) { init <= 0 || (f.force && !(f.sPort <= init <= f.ePort)) }

  /** Without a wish the search always succeeds iff at most half the range is busy. */
  lemma HalfFreeSuffices(f: PortFinder, init: int, busy: set<int>)
    requires f.sPort < f.ePort && NoWish(f, init)
    ensures f.Wanted(init) <= 0 && f.Budget(init) == f.ePort - f.sPort + 1
    ensures (forall perms, st :: ValidStream(perms, st, f.sPort, f.ePort) ==>
                                   Search(perms, st, busy, f.Budget(init)).0.Some?)
            <==> 2 * |BusyIn(busy, f.sPort, f.ePort)| <= f.ePort - f.sPort
  {
    SearchBoundIsExact(f.sPort, f.ePort, busy, f.Budget(init));
  }

  /** With a wish that turns out busy, the search draws once per port from the wish up to the end of the range. */
  lemma BusyWishIff(f: PortFinder, init: int, busy: set<int>)
    requires f.sPort < f.ePort && !NoWish(f, init)
    ensures f.Wanted(init) == init
    ensures (forall perms, st :: ValidStream(perms, st, f.sPort, f.ePort) ==>
                                   Search(perms, st, busy, f.Budget(init)).0.Some?)
            <==> && |BusyIn(busy, f.sPort, f.ePort)| < f.ePort - f.sPort
                 && 2 * |BusyIn(busy, f.sPort, f.ePort)| <= f.ePort - init
  {
    SearchBoundIsExact(f.sPort, f.ePort, busy, f.Budget(init));
  }
}
