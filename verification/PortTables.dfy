/** The ports in use according to the four socket tables, gathered in three ways. */
module PortTables {
  import opened Basics
  import opened Socktab

  // ---- util.DeDuplicate ----

  /** Every element at its first occurrence. */
  function DeDup(s: seq<nat>): seq<nat> {
    if s == [] then []
    else
      var d := DeDup(s[..|s| - 1]);
      if s[|s| - 1] in d then d else d + [s[|s| - 1]]
  }

  lemma {:induction false} DeDupKeepsElements(s: seq<nat>)
    ensures Distinct(DeDup(s)) && forall x :: x in DeDup(s) <==> x in s
  {
    if s != [] {
      DeDupKeepsElements(s[..|s| - 1]);
      assert s == s[..|s| - 1] + [s[|s| - 1]];
    }
  }

  /** Marks what it has seen in a set and appends what is new. */
  method DeDuplicate(s: seq<nat>) returns (list: seq<nat>)
    ensures list == DeDup(s)
  {
    var seen: set<nat> := {};
    list := [];
    for i := 0 to |s|
      invariant list == DeDup(s[..i]) && forall x :: x in seen <==> x in list
    {
      assert s[..i + 1][..i] == s[..i];
      if s[i] !in seen {
        seen := seen + {s[i]};
        list := list + [s[i]];
      }
    }
    assert s[..|s|] == s;
  }

  // ---- The tables ----

  /** One table under /proc/net, if it can be opened. */
  datatype Source = Unreadable | Readable(t: Table)

  function NilOnError<T>(r: Parsed<T>): Parsed<T> { if r.ok then r else Parsed([], false) }

  function SocksOf(src: Source, accept: Entry -> bool): Parsed<Entry> {
    match src
    case Unreadable => Parsed([], false)
    case Readable(t) => NilOnError(Tabulate(Entries(Body(t), accept), t))
  }

  function PortsIn(src: Source): Parsed<nat> {
    match src
    case Unreadable => Parsed([], false)
    case Readable(t) => NilOnError(Tabulate(PortsOf(Body(t)), t))
  }

  method DoNetstat(src: Source, accept: Entry -> bool) returns (r: Parsed<Entry>)
    ensures r == SocksOf(src, accept)
  {
    if src.Unreadable? { return Parsed([], false); }
    r := ParseSocktab(src.t, accept);
    if !r.ok { return Parsed([], false); }
  }

  method ListPorts(src: Source) returns (r: Parsed<nat>)
    ensures r == PortsIn(src)
  {
    if src.Unreadable? { return Parsed([], false); }
    r := ParseSockPort(src.t);
    if !r.ok { return Parsed([], false); }
  }

  /** The items of all results before the first failure. */
  function Gather<T>(rs: seq<Parsed<T>>): seq<T> {
    if rs == [] || !rs[0].ok then [] else rs[0].items + Gather(rs[1..])
  }

  function AllOk<T>(rs: seq<Parsed<T>>): bool { rs == [] || (rs[0].ok && AllOk(rs[1..])) }

  /** tcp, tcp6, udp and udp6. */
  datatype Tables = Tables(tcp: Source, tcp6: Source, udp: Source, udp6: Source)

  function SockResults(ts: Tables, accept: Entry -> bool): seq<Parsed<Entry>> {
    [SocksOf(ts.tcp, accept), SocksOf(ts.tcp6, accept), SocksOf(ts.udp, accept), SocksOf(ts.udp6, accept)]
  }

  function PortResults(ts: Tables): seq<Parsed<nat>> {
    [PortsIn(ts.tcp), PortsIn(ts.tcp6), PortsIn(ts.udp), PortsIn(ts.udp6)]
  }

  lemma GatherFour<T>(a: Parsed<T>, b: Parsed<T>, c: Parsed<T>, d: Parsed<T>)
    ensures Gather([a, b, c, d])
            == if !a.ok then [] else if !b.ok then a.items else if !c.ok then a.items + b.items
               else if !d.ok then a.items + b.items + c.items else a.items + b.items + c.items + d.items
    ensures AllOk([a, b, c, d]) == (a.ok && b.ok && c.ok && d.ok)
  {
    var g1, g2, g3 := [b, c, d], [c, d], [d];
    assert [a, b, c, d][1..] == g1 && g1[1..] == g2 && g2[1..] == g3 && g3[1..] == [];
    assert Gather(g3) == if d.ok then d.items + [] else [];
    assert Gather(g2) == if c.ok then c.items + Gather(g3) else [];
    assert Gather(g1) == if b.ok then b.items + Gather(g2) else [];
    assert AllOk(g3) == d.ok && AllOk(g2) == (c.ok && AllOk(g3)) && AllOk(g1) == (b.ok && AllOk(g2));
  }

  method GetAllSocks(ts: Tables, accept: Entry -> bool) returns (r: Parsed<Entry>)
    ensures r == Parsed(Gather(SockResults(ts, accept)), AllOk(SockResults(ts, accept)))
  {
    GatherFour(SocksOf(ts.tcp, accept), SocksOf(ts.tcp6, accept), SocksOf(ts.udp, accept), SocksOf(ts.udp6, accept));
    var tab := DoNetstat(ts.tcp, accept);
    if !tab.ok { return Parsed([], false); }
    var all := tab.items;
    tab := DoNetstat(ts.tcp6, accept);
    if !tab.ok { return Parsed(all, false); }
    all := all + tab.items;
    tab := DoNetstat(ts.udp, accept);
    if !tab.ok { return Parsed(all, false); }
    all := all + tab.items;
    tab := DoNetstat(ts.udp6, accept);
    if !tab.ok { return Parsed(all, false); }
    r := Parsed(all + tab.items, true);
  }

  method GetAllPorts(ts: Tables) returns (ports: seq<nat>)
    ensures ports == DeDup(Gather(PortResults(ts)))
  {
    GatherFour(PortsIn(ts.tcp), PortsIn(ts.tcp6), PortsIn(ts.udp), PortsIn(ts.udp6));
    var got := ListPorts(ts.tcp);
    if !got.ok { return []; }
    ports := got.items;
    got := ListPorts(ts.tcp6);
    if !got.ok { ports := DeDuplicate(ports); return; }
    ports := ports + got.items;
    got := ListPorts(ts.udp);
    if !got.ok { ports := DeDuplicate(ports); return; }
    ports := ports + got.items;
    got := ListPorts(ts.udp6);
    if !got.ok { ports := DeDuplicate(ports); return; }
    ports := ports + got.items;
    ports := DeDuplicate(ports);
  }

  method ToPorts(es: seq<Entry>) returns (ports: seq<nat>)
    ensures ports == DeDup(LocalPorts(es))
  {
    var all: seq<nat> := [];
    for i := 0 to |es|
      invariant all == LocalPorts(es[..i])
    {
      assert es[..i + 1][..i] == es[..i];
      all := all + [es[i].local.port];
    }
    assert es[..|es|] == es;
    ports := DeDuplicate(all);
  }

  // ---- The bitmap ----

  ghost predicate Ascending(s: seq<nat>) { forall i, j :: 0 <= i < j < |s| ==> s[i] < s[j] }

  /** Adding a port to a bitmap listed in increasing order. */
  function Insert(s: seq<nat>, v: nat): seq<nat> {
    if s == [] then [v]
    else if v < s[0] then [v] + s
    else if v == s[0] then s
    else [s[0]] + Insert(s[1..], v)
  }

  lemma {:induction false} InsertKeepsOrder(s: seq<nat>, v: nat)
    requires Ascending(s)
    ensures Ascending(Insert(s, v)) && forall x :: x in Insert(s, v) <==> x in s || x == v
  {
    if s != [] && v > s[0] {
      InsertKeepsOrder(s[1..], v);
      assert s == [s[0]] + s[1..];
      var r := Insert(s[1..], v);
      forall i | 0 <= i < |r| ensures s[0] < r[i] { assert r[i] in r; }
    }
  }

  /** All elements of a list added to a bitmap. */
  method AddAll(bitmap: seq<nat>, vs: seq<nat>) returns (r: seq<nat>)
    requires Ascending(bitmap)
    ensures Ascending(r) && forall x :: x in r <==> x in bitmap || x in vs
  {
    r := bitmap;
    for i := 0 to |vs|
      invariant Ascending(r) && forall x :: x in r <==> x in bitmap || x in vs[..i]
    {
      InsertKeepsOrder(r, vs[i]);
      assert vs[..i + 1] == vs[..i] + [vs[i]];
      r := Insert(r, vs[i]);
    }
    assert vs[..|vs|] == vs;
  }

  /** The sorted form of the ports gathered before the first failure. */
  method GetAllPortSet(ts: Tables) returns (ports: seq<nat>)
    ensures Ascending(ports) && forall x :: x in ports <==> x in Gather(PortResults(ts))
  {
    GatherFour(PortsIn(ts.tcp), PortsIn(ts.tcp6), PortsIn(ts.udp), PortsIn(ts.udp6));
    ports := [];
    var got := ListPorts(ts.tcp);
    if !got.ok { return; }
    ports := AddAll(ports, got.items);
    got := ListPorts(ts.tcp6);
    if !got.ok { return; }
    ports := AddAll(ports, got.items);
    got := ListPorts(ts.udp);
    if !got.ok { return; }
    ports := AddAll(ports, got.items);
    got := ListPorts(ts.udp6);
    if !got.ok { return; }
    ports := AddAll(ports, got.items);
  }

  // ---- How the three agree ----

  lemma {:induction false} DistinctMultiset(s: seq<nat>, x: nat)
    requires Distinct(s)
    ensures multiset(s)[x] == if x in s then 1 else 0
  {
    if s != [] {
      DistinctMultiset(s[1..], x);
      assert s == [s[0]] + s[1..];
    }
  }

  lemma SameElements(a: seq<nat>, b: seq<nat>)
    requires Distinct(a) && Distinct(b) && forall x :: x in a <==> x in b
    ensures multiset(a) == multiset(b)
  {
    forall x: nat ensures multiset(a)[x] == multiset(b)[x] {
      DistinctMultiset(a, x);
      DistinctMultiset(b, x);
    }
  }

  /** At every failure point the bitmap is a sorted permutation of the de-duplicated list. */
  lemma PortSetIsSortedPorts(ts: Tables, sorted: seq<nat>)
    requires Ascending(sorted) && forall x :: x in sorted <==> x in Gather(PortResults(ts))
    ensures multiset(sorted) == multiset(DeDup(Gather(PortResults(ts))))
  {
    DeDupKeepsElements(Gather(PortResults(ts)));
    SameElements(sorted, DeDup(Gather(PortResults(ts))));
  }

  lemma {:induction false} LocalPortsAppend(a: seq<Entry>, b: seq<Entry>)
    ensures LocalPorts(a + b) == LocalPorts(a) + LocalPorts(b)
  {
    if b == [] {
      assert a + b == a;
    } else {
      LocalPortsAppend(a, b[..|b| - 1]);
      assert (a + b)[..|a + b| - 1] == a + b[..|b| - 1];
    }
  }

  lemma TableRefines(src: Source)
    ensures SocksOf(src, NOOP_FILTER).ok ==>
              PortsIn(src).ok && PortsIn(src).items == LocalPorts(SocksOf(src, NOOP_FILTER).items)
  {
    if src.Readable? { FastParserRefines(Body(src.t)); }
  }

  /** When all four tables parse fully, the fast way and the full way give the same list of ports. */
  lemma FastPortsAgree(ts: Tables)
    requires AllOk(SockResults(ts, NOOP_FILTER))
    ensures DeDup(Gather(PortResults(ts))) == DeDup(LocalPorts(Gather(SockResults(ts, NOOP_FILTER))))
  {
    var a, b := SocksOf(ts.tcp, NOOP_FILTER), SocksOf(ts.tcp6, NOOP_FILTER);
    var c, d := SocksOf(ts.udp, NOOP_FILTER), SocksOf(ts.udp6, NOOP_FILTER);
    GatherFour(a, b, c, d);
    GatherFour(PortsIn(ts.tcp), PortsIn(ts.tcp6), PortsIn(ts.udp), PortsIn(ts.udp6));
    TableRefines(ts.tcp);
    TableRefines(ts.tcp6);
    TableRefines(ts.udp);
    TableRefines(ts.udp6);
    LocalPortsAppend(a.items, b.items);
    LocalPortsAppend(a.items + b.items, c.items);
    LocalPortsAppend(a.items + b.items + c.items, d.items);
  }

  /** When all tables can be read, a port is listed if and only if it is in one of the four. */
  lemma AllPortsListed(ts: Tables, port: nat)
    requires AllOk(PortResults(ts))
    ensures port in DeDup(Gather(PortResults(ts))) <==>
            || port in PortsIn(ts.tcp).items || port in PortsIn(ts.tcp6).items
            || port in PortsIn(ts.udp).items || port in PortsIn(ts.udp6).items
  {
    GatherFour(PortsIn(ts.tcp), PortsIn(ts.tcp6), PortsIn(ts.udp), PortsIn(ts.udp6));
    DeDupKeepsElements(Gather(PortResults(ts)));
  }
}
