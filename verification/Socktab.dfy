/** Parsing of the kernel's socket tables: the full parser, the fast port-only parser, and address fields. */
module Socktab {
  import opened Basics
  import opened Bytes
  import opened Options

  // ---- strconv and strings ----

  function DigitValue(c: char): Option<nat> {
    if '0' <= c <= '9' then Some(c as int - '0' as int)
    else if 'a' <= c <= 'z' then Some(c as int - 'a' as int + 10)
    else if 'A' <= c <= 'Z' then Some(c as int - 'A' as int + 10)
    else None
  }

  /** The value of a digit string in a base, most significant digit first. */
  function Number(s: string, base: nat): Option<nat> {
    if s == [] then Some(0)
    else
      match (Number(s[..|s| - 1], base), DigitValue(s[|s| - 1]))
      case (Some(v), Some(d)) => if d < base then Some(v * base + d) else None
      case _ => None
  }

  /** ParseUint: digits of the base only, at least one, and a value below the limit. */
  function ParseUint(s: string, base: nat, limit: nat): Option<nat> {
    if s == [] then None
    else
      match Number(s, base)
      case Some(v) => if v < limit then Some(v) else None
      case None => None
  }

  const LIMIT8: nat := 0x100
  const LIMIT16: nat := 0x1_0000
  const LIMIT32: nat := 0x1_0000_0000

  /** strings.Split with a one-character separator; never empty. */
  function Split(s: string, sep: char): (r: seq<string>)
    ensures |r| >= 1
  {
    if s == [] then [[]]
    else
      var rest := Split(s[1..], sep);
      if s[0] == sep then [[]] + rest else [[s[0]] + rest[0]] + rest[1..]
  }

  predicate IsSpace(c: char) { c == ' ' || c == '\t' || c == '\n' || c == '\r' || c as int == 11 || c as int == 12 }

  /** strings.Fields: the maximal runs of characters that are not white space. */
  function Fields(s: string): seq<string> {
    if s == [] then []
    else if IsSpace(s[0]) then Fields(s[1..])
    else
      var rest := Fields(s[1..]);
      if |s| > 1 && !IsSpace(s[1]) && rest != [] then [[s[0]] + rest[0]] + rest[1..] else [[s[0]]] + rest
  }

  function StripComment(line: string): string {
    if line == [] || line[0] == '#' then [] else [line[0]] + StripComment(line[1..])
  }

  // ---- Addresses ----

  datatype SockAddr = SockAddr(ip: Bytes, port: nat)

  function LittleEndian(v: nat): Bytes
    requires v < LIMIT32
  {
    [v % 0x100, v / 0x100 % 0x100, v / 0x1_0000 % 0x100, v / 0x100_0000]
  }

  function ParseIPv4(s: string): Option<Bytes> {
    match ParseUint(s, 16, LIMIT32)
    case Some(v) => Some(LittleEndian(v))
    case None => None
  }

  /** The words of eight hex digits, one after the other. */
  function IPv6Words(s: string): Option<Bytes>
    requires |s| % 8 == 0
  {
    if s == [] then Some([]) else Both(ParseIPv4(s[..8]), IPv6Words(s[8..]))
  }

  function Both(a: Option<Bytes>, b: Option<Bytes>): Option<Bytes> {
    if a.Some? && b.Some? then Some(a.value + b.value) else None
  }

  function ParseAddr(s: string): Option<SockAddr> {
    var fields := Split(s, ':');
    if |fields| < 2 then None
    else
      var ip := if |fields[0]| == 8 then ParseIPv4(fields[0])
                else if |fields[0]| == 32 then IPv6Words(fields[0])
                else None;
      match (ip, ParseUint(fields[1], 16, LIMIT16))
      case (Some(b), Some(p)) => Some(SockAddr(b, p))
      case _ => None
  }

  function ParsePort(s: string): Option<nat> {
    var fields := Split(s, ':');
    if |fields| < 2 then None else ParseUint(fields[1], 16, LIMIT16)
  }

  /** Whenever the full address parses, the fast parser finds its port. */
  lemma ParsePortAgrees(s: string)
    ensures ParseAddr(s).Some? ==> ParsePort(s) == Some(ParseAddr(s).value.port)
  {
  }

  /** binary.LittleEndian.PutUint32 on the four bytes from `i`. */
  method PutUint32(ip: array<byte>, i: nat, v: nat)
    requires i + 4 <= ip.Length && v < LIMIT32
    modifies ip
    ensures ip[..i + 4] == old(ip[..i]) + LittleEndian(v)
  {
    var w := LittleEndian(v);
    ip[i] := w[0];
    ip[i + 1] := w[1];
    ip[i + 2] := w[2];
    ip[i + 3] := w[3];
    assert ip[..i] == old(ip[..i]);
    assert ip[..i + 4] == ip[..i] + w;
  }

  function After(done: Bytes, rest: Option<Bytes>): Option<Bytes> {
    match rest
    case Some(b) => Some(done + b)
    case None => None
  }

  lemma OneMoreWord(done: Bytes, s: string)
    requires |s| % 8 == 0 && s != []
    ensures After(done, IPv6Words(s))
            == if ParseIPv4(s[..8]).Some? then After(done + ParseIPv4(s[..8]).value, IPv6Words(s[8..])) else None
  {
    AfterBoth(done, ParseIPv4(s[..8]), IPv6Words(s[8..]));
  }

  lemma AfterBoth(done: Bytes, w: Option<Bytes>, rest: Option<Bytes>)
    ensures After(done, Both(w, rest)) == if w.Some? then After(done + w.value, rest) else None
  {
    if w.Some? && rest.Some? { assert done + (w.value + rest.value) == (done + w.value) + rest.value; }
  }

  lemma NothingDone(r: Option<Bytes>)
    ensures After([], r) == r
  {
    if r.Some? { assert [] + r.value == r.value; }
  }

  lemma AllDone(done: Bytes, t: string)
    requires t == []
    ensures After(done, IPv6Words(t)) == Some(done)
  {
    assert done + [] == done;
  }

  /** One round of the loop below: a group of eight digits becomes four bytes. */
  method PutGroup(ip: array<byte>, i: nat, grp: string) returns (ok: bool)
    requires i + 4 <= ip.Length
    modifies ip
    ensures ok <==> ParseIPv4(grp).Some?
    ensures ok ==> ip[..i + 4] == old(ip[..i]) + ParseIPv4(grp).value
  {
    var u := ParseUint(grp, 16, LIMIT32);
    if u.None? { return false; }
    PutUint32(ip, i, u.value);
    ok := true;
  }

  /** The bytes `done` and what is left to parse make up the address. */
  ghost predicate Parsing(s: string, done: Bytes, t: string)
    requires |s| % 8 == 0 && |t| % 8 == 0
  {
    IPv6Words(s) == After(done, IPv6Words(t))
  }

  lemma ParsingStep(s: string, done: Bytes, t: string)
    requires |s| % 8 == 0 && |t| % 8 == 0 && t != [] && Parsing(s, done, t)
    ensures var w := ParseIPv4(t[..8]);
            if w.Some? then Parsing(s, done + w.value, t[8..]) else IPv6Words(s) == None
  {
    OneMoreWord(done, t);
  }

  lemma ParsingEnds(s: string, done: Bytes, t: string)
    requires |s| % 8 == 0 && t == [] && Parsing(s, done, t)
    ensures IPv6Words(s) == Some(done)
  {
    AllDone(done, t);
  }

  /** The in-place form: four bytes of a 16-byte buffer per group of eight characters. */
  method ParseIPv6(s: string) returns (r: Option<Bytes>)
    requires |s| == 32
    ensures r == IPv6Words(s)
    ensures r.Some? ==> |r.value| == 16
  {
    var ip := new byte[16](_ => 0);
    var i, t := 0, s;
    ghost var done: Bytes := [];
    NothingDone(IPv6Words(s));
    while |t| != 0
      invariant |t| % 8 == 0 && 0 <= i <= 16 && 2 * i + |t| == 32
      invariant ip[..i] == done
      invariant Parsing(s, done, t)
      decreases |t|
    {
      ParsingStep(s, done, t);
      var grp := t[..8];
      var ok := PutGroup(ip, i, grp);
      if !ok { return None; }
      done := done + ParseIPv4(grp).value;
      i, t := i + 4, t[8..];
    }
    ParsingEnds(s, done, t);
    assert ip[..16] == ip[..];
    r := Some(ip[..]);
  }

  // ---- Printing an address the way the kernel does, and parsing it back ----

  function HexDigit(d: nat): char
    requires d < 16
  {
    if d < 10 then '0' + d as char else 'A' + (d - 10) as char
  }

  /** Exactly `n` hex digits, most significant first. */
  function Hex(v: nat, n: nat): (s: string)
    ensures |s| == n
  {
    if n == 0 then [] else Hex(v / 16, n - 1) + [HexDigit(v % 16)]
  }

  function Pow16(n: nat): nat { if n == 0 then 1 else 16 * Pow16(n - 1) }

  lemma HexDigitValue(d: nat)
    requires d < 16
    ensures DigitValue(HexDigit(d)) == Some(d) && HexDigit(d) != ':'
  {
  }

  lemma {:induction false} NumberOfHex(v: nat, n: nat)
    requires v < Pow16(n)
    ensures Number(Hex(v, n), 16) == Some(v)
    ensures forall i :: 0 <= i < n ==> Hex(v, n)[i] != ':'
    decreases n
  {
    if n > 0 {
      NumberOfHex(v / 16, n - 1);
      HexDigitValue(v % 16);
      assert Hex(v, n)[..n - 1] == Hex(v / 16, n - 1);
      assert v / 16 * 16 + v % 16 == v;
    }
  }

  lemma Pow16Values()
    ensures Pow16(4) == LIMIT16 && Pow16(8) == LIMIT32
  {
    assert Pow16(2) == 256 && Pow16(4) == 65536 && Pow16(6) == 0x100_0000;
  }

  /** The value whose little-endian bytes are these. */
  function Word(b: Bytes): nat
    requires |b| == 4
  {
    var b0: int, b1: int, b2: int, b3: int := b[0], b[1], b[2], b[3];
    b0 + b1 * 0x100 + b2 * 0x1_0000 + b3 * 0x100_0000
  }

  lemma WordRoundTrip(b: Bytes)
    requires |b| == 4
    ensures Word(b) < LIMIT32 && LittleEndian(Word(b)) == b
  {
    var b0: int, b1: int, b2: int, b3: int := b[0], b[1], b[2], b[3];
    var v := Word(b);
    var v1, v2 := b1 + b2 * 0x100 + b3 * 0x1_0000, b2 + b3 * 0x100;
    assert v == v1 * 0x100 + b0 && v1 == v2 * 0x100 + b1 && v2 == b3 * 0x100 + b2;
    assert v / 0x100 == v1 && v1 / 0x100 == v2 && v2 / 0x100 == b3;
    assert v / 0x1_0000 == v2 && v / 0x100_0000 == b3;
  }

  /** Each group of four bytes as one little-endian word in eight hex digits. */
  function PrintWords(ip: Bytes): string
    requires |ip| % 4 == 0
  {
    if ip == [] then [] else Hex(Word(ip[..4]), 8) + PrintWords(ip[4..])
  }

  function PrintAddr(a: SockAddr): string
    requires |a.ip| % 4 == 0
  {
    PrintWords(a.ip) + ":" + Hex(a.port, 4)
  }

  lemma {:induction false} WordsRoundTrip(ip: Bytes)
    requires |ip| % 4 == 0
    ensures |PrintWords(ip)| == 2 * |ip| && IPv6Words(PrintWords(ip)) == Some(ip)
    ensures forall i :: 0 <= i < |PrintWords(ip)| ==> PrintWords(ip)[i] != ':'
    decreases |ip|
  {
    if ip != [] {
      var w, s := Word(ip[..4]), PrintWords(ip);
      WordRoundTrip(ip[..4]);
      Pow16Values();
      NumberOfHex(w, 8);
      WordsRoundTrip(ip[4..]);
      assert s[..8] == Hex(w, 8) && s[8..] == PrintWords(ip[4..]);
      assert ip == ip[..4] + ip[4..];
    }
  }

  lemma {:induction false} SplitAtColon(a: string, b: string)
    requires forall i :: 0 <= i < |a| ==> a[i] != ':'
    ensures Split(a + ":" + b, ':') == [a] + Split(b, ':')
  {
    var s := a + ":" + b;
    if a == [] {
      assert s[0] == ':' && s[1..] == b;
    } else {
      SplitAtColon(a[1..], b);
      assert s[0] == a[0] && s[1..] == a[1..] + ":" + b;
      assert [a[0]] + a[1..] == a;
    }
  }

  lemma {:induction false} SplitNoColon(b: string)
    requires forall i :: 0 <= i < |b| ==> b[i] != ':'
    ensures Split(b, ':') == [b]
  {
    if b != [] {
      SplitNoColon(b[1..]);
      assert [b[0]] + b[1..] == b;
    }
  }

  /** For every IPv4 or IPv6 address and 16-bit port, parsing inverts printing. */
  lemma AddressRoundTrip(a: SockAddr)
    requires (|a.ip| == 4 || |a.ip| == 16) && a.port < LIMIT16
    ensures ParseAddr(PrintAddr(a)) == Some(a) && ParsePort(PrintAddr(a)) == Some(a.port)
  {
    Pow16Values();
    NumberOfHex(a.port, 4);
    WordsRoundTrip(a.ip);
    SplitAtColon(PrintWords(a.ip), Hex(a.port, 4));
    SplitNoColon(Hex(a.port, 4));
    if |a.ip| == 4 { SingleWord(PrintWords(a.ip)); }
  }

  lemma SingleWord(s: string)
    requires |s| == 8
    ensures IPv6Words(s) == ParseIPv4(s)
  {
    assert s[..8] == s && s[8..] == [];
    if ParseIPv4(s).Some? { assert ParseIPv4(s).value + [] == ParseIPv4(s).value; }
  }

  // ---- Tables ----

  datatype Entry = Entry(ino: string, local: SockAddr, remote: SockAddr, state: nat, uid: nat)

  /** The lines a scanner yields, and whether it stopped on an error. */
  datatype Table = Table(lines: seq<string>, scanFailed: bool)

  /** The items parsed and whether the error result is nil. */
  datatype Parsed<T> = Parsed(items: seq<T>, ok: bool)

  const NOOP_FILTER: Entry -> bool := e => true

  const MIN_FIELDS: nat := 12

  function ParseEntry(line: string): Option<Entry> {
    var f := Fields(StripComment(line));
    if |f| < MIN_FIELDS then None
    else
      match (ParseAddr(f[1]), ParseAddr(f[2]), ParseUint(f[3], 16, LIMIT8), ParseUint(f[7], 10, LIMIT32))
      case (Some(local), Some(remote), Some(state), Some(uid)) => Some(Entry(f[9], local, remote, state, uid))
      case _ => None
  }

  function ParseLinePort(line: string): Option<nat> {
    var f := Fields(StripComment(line));
    if |f| < MIN_FIELDS then None else ParsePort(f[1])
  }

  /** The lines after the title. */
  function Body(t: Table): seq<string> { if t.lines == [] then [] else t.lines[1..] }

  /** All lines parsed, keeping the accepted entries; `None` if some line does not parse. */
  function Entries(lines: seq<string>, accept: Entry -> bool): Option<seq<Entry>> {
    if lines == [] then Some([])
    else AddEntry(Entries(lines[..|lines| - 1], accept), ParseEntry(lines[|lines| - 1]), accept)
  }

  function AddEntry(es: Option<seq<Entry>>, e: Option<Entry>, accept: Entry -> bool): Option<seq<Entry>> {
    if es.None? || e.None? then None else Some(if accept(e.value) then es.value + [e.value] else es.value)
  }

  function PortsOf(lines: seq<string>): Option<seq<nat>> {
    if lines == [] then Some([])
    else AddPort(PortsOf(lines[..|lines| - 1]), ParseLinePort(lines[|lines| - 1]))
  }

  function AddPort(ps: Option<seq<nat>>, p: Option<nat>): Option<seq<nat>> {
    if ps.None? || p.None? then None else Some(ps.value + [p.value])
  }

  lemma EntriesStep(lines: seq<string>, accept: Entry -> bool, k: nat)
    requires k < |lines|
    ensures Entries(lines[..k + 1], accept) == AddEntry(Entries(lines[..k], accept), ParseEntry(lines[k]), accept)
  {
    assert lines[..k + 1][..k] == lines[..k];
  }

  lemma PortsStep(lines: seq<string>, k: nat)
    requires k < |lines|
    ensures PortsOf(lines[..k + 1]) == AddPort(PortsOf(lines[..k]), ParseLinePort(lines[k]))
  {
    assert lines[..k + 1][..k] == lines[..k];
  }

  function Tabulate<T>(r: Option<seq<T>>, t: Table): Parsed<T> {
    match r
    case Some(items) => Parsed(items, !t.scanFailed)
    case None => Parsed([], false)
  }

  lemma {:induction false} EntriesPrefix(lines: seq<string>, accept: Entry -> bool, k: nat)
    requires k <= |lines| && Entries(lines[..k], accept).None?
    ensures Entries(lines, accept).None?
    decreases |lines| - k
  {
    if k < |lines| {
      assert lines[..k + 1][..k] == lines[..k];
      EntriesPrefix(lines, accept, k + 1);
    } else {
      assert lines[..k] == lines;
    }
  }

  lemma {:induction false} PortsPrefix(lines: seq<string>, k: nat)
    requires k <= |lines| && PortsOf(lines[..k]).None?
    ensures PortsOf(lines).None?
    decreases |lines| - k
  {
    if k < |lines| {
      assert lines[..k + 1][..k] == lines[..k];
      PortsPrefix(lines, k + 1);
    } else {
      assert lines[..k] == lines;
    }
  }

  method ParseSocktab(t: Table, accept: Entry -> bool) returns (r: Parsed<Entry>)
    ensures r == Tabulate(Entries(Body(t), accept), t)
  {
    var tab: seq<Entry> := [];
    var lines := Body(t);
    for k := 0 to |lines|
      invariant Entries(lines[..k], accept) == Some(tab)
    {
      EntriesStep(lines, accept, k);
      var e := ParseEntry(lines[k]);
      if e.None? {
        EntriesPrefix(lines, accept, k + 1);
        return Parsed([], false);
      }
      if accept(e.value) { tab := tab + [e.value]; }
    }
    assert lines[..|lines|] == lines;
    r := Parsed(tab, !t.scanFailed);
  }

  method ParseSockPort(t: Table) returns (r: Parsed<nat>)
    ensures r == Tabulate(PortsOf(Body(t)), t)
  {
    var ports: seq<nat> := [];
    var lines := Body(t);
    for k := 0 to |lines|
      invariant PortsOf(lines[..k]) == Some(ports)
    {
      PortsStep(lines, k);
      var p := ParseLinePort(lines[k]);
      if p.None? {
        PortsPrefix(lines, k + 1);
        return Parsed([], false);
      }
      ports := ports + [p.value];
    }
    assert lines[..|lines|] == lines;
    r := Parsed(ports, !t.scanFailed);
  }

  function LocalPorts(es: seq<Entry>): seq<nat> {
    if es == [] then [] else LocalPorts(es[..|es| - 1]) + [es[|es| - 1].local.port]
  }

  /** Whenever the full parser accepts every line, the fast parser yields exactly its local ports, in order. */
  lemma {:induction false} FastParserRefines(lines: seq<string>)
    ensures Entries(lines, NOOP_FILTER).Some? ==> PortsOf(lines) == Some(LocalPorts(Entries(lines, NOOP_FILTER).value))
  {
    if lines != [] {
      FastParserRefines(lines[..|lines| - 1]);
      var f := Fields(StripComment(lines[|lines| - 1]));
      if |f| >= MIN_FIELDS { ParsePortAgrees(f[1]); }
      var r := Entries(lines[..|lines| - 1], NOOP_FILTER);
      if r.Some? && ParseEntry(lines[|lines| - 1]).Some? {
        var e := ParseEntry(lines[|lines| - 1]).value;
        assert (r.value + [e])[..|r.value|] == r.value;
      }
    }
  }

  // ---- Printing a line of a table, and parsing it back ----

  predicate IsWord(w: string) { w != [] && forall i :: 0 <= i < |w| ==> !IsSpace(w[i]) && w[i] != '#' }

  predicate IsBlank(g: string) { forall i :: 0 <= i < |g| ==> IsSpace(g[i]) }

  /** Words with a gap before each; only the first gap may be empty. */
  function Spread(words: seq<string>, gaps: seq<string>): string
    requires |gaps| == |words|
  {
    if words == [] then [] else gaps[0] + words[0] + Spread(words[1..], gaps[1..])
  }

  predicate Spaced(words: seq<string>, gaps: seq<string>) {
    && |gaps| == |words|
    && (forall i :: 0 <= i < |words| ==> IsWord(words[i]) && IsBlank(gaps[i]))
    && (forall i :: 1 <= i < |gaps| ==> gaps[i] != [])
  }

  lemma {:induction false} BlankSkipped(g: string, s: string)
    requires IsBlank(g)
    ensures Fields(g + s) == Fields(s)
  {
    if g == [] {
      assert g + s == s;
    } else {
      BlankSkipped(g[1..], s);
      assert (g + s)[1..] == g[1..] + s;
    }
  }

  lemma {:induction false} WordSplitOff(w: string, s: string)
    requires IsWord(w) && (s == [] || IsSpace(s[0]))
    ensures Fields(w + s) == [w] + Fields(s)
    decreases |w|
  {
    assert (w + s)[1..] == w[1..] + s;
    if |w| == 1 {
      assert w[1..] + s == s && w == [w[0]];
    } else {
      WordSplitOff(w[1..], s);
      assert [w[0]] + w[1..] == w;
    }
  }

  lemma {:induction false} FieldsOfSpread(words: seq<string>, gaps: seq<string>)
    requires Spaced(words, gaps)
    ensures Fields(Spread(words, gaps)) == words
    decreases |words|
  {
    if words != [] {
      var rest := Spread(words[1..], gaps[1..]);
      FieldsOfSpread(words[1..], gaps[1..]);
      if |words| > 1 { assert rest[0] == gaps[1][0]; }
      WordSplitOff(words[0], rest);
      BlankSkipped(gaps[0], words[0] + rest);
      assert gaps[0] + words[0] + rest == gaps[0] + (words[0] + rest);
      assert [words[0]] + words[1..] == words;
    }
  }

  lemma {:induction false} NothingToStrip(line: string)
    requires forall i :: 0 <= i < |line| ==> line[i] != '#'
    ensures StripComment(line) == line
  {
    if line != [] {
      NothingToStrip(line[1..]);
      assert [line[0]] + line[1..] == line;
    }
  }

  lemma {:induction false} NoComment(words: seq<string>, gaps: seq<string>)
    requires Spaced(words, gaps)
    ensures forall i :: 0 <= i < |Spread(words, gaps)| ==> Spread(words, gaps)[i] != '#'
    decreases |words|
  {
    if words != [] { NoComment(words[1..], gaps[1..]); }
  }

  lemma {:induction false} NumberOfDecimal(n: nat)
    ensures Number(Decimal(n), 10) == Some(n)
  {
    var s := Decimal(n);
    var last := s[|s| - 1];
    assert last == '0' + (n % 10) as char && DigitValue(last) == Some(n % 10);
    if n >= 10 {
      NumberOfDecimal(n / 10);
      assert s[..|s| - 1] == Decimal(n / 10);
      assert n == n / 10 * 10 + n % 10;
    } else {
      assert s[..|s| - 1] == [];
    }
  }

  /** The words of a line that the parsers look at: addresses in 1 and 2, state in 3, user in 7 and inode in 9. */
  predicate Describes(words: seq<string>, e: Entry) {
    && |words| >= MIN_FIELDS
    && |e.local.ip| % 4 == 0 && words[1] == PrintAddr(e.local)
    && |e.remote.ip| % 4 == 0 && words[2] == PrintAddr(e.remote)
    && words[3] == Hex(e.state, 2)
    && words[7] == Decimal(e.uid)
    && words[9] == e.ino
  }

  predicate InRange(e: Entry) {
    && (|e.local.ip| == 4 || |e.local.ip| == 16) && e.local.port < LIMIT16
    && (|e.remote.ip| == 4 || |e.remote.ip| == 16) && e.remote.port < LIMIT16
    && e.state < LIMIT8 && e.uid < LIMIT32
  }

  /** Any line that describes an entry parses back to it, however it is spaced and whatever else it holds. */
  lemma LineRoundTrip(words: seq<string>, gaps: seq<string>, e: Entry)
    requires Spaced(words, gaps) && Describes(words, e) && InRange(e)
    ensures ParseEntry(Spread(words, gaps)) == Some(e)
    ensures ParseLinePort(Spread(words, gaps)) == Some(e.local.port)
  {
    NoComment(words, gaps);
    NothingToStrip(Spread(words, gaps));
    FieldsOfSpread(words, gaps);
    AddressRoundTrip(e.local);
    AddressRoundTrip(e.remote);
    StateRoundTrip(e.state);
    NumberOfDecimal(e.uid);
  }

  lemma StateRoundTrip(state: nat)
    requires state < LIMIT8
    ensures ParseUint(Hex(state, 2), 16, LIMIT8) == Some(state)
  {
    assert Pow16(2) == 256;
    NumberOfHex(state, 2);
  }

  /** A title and one line per entry parse back to exactly the entries that the filter accepts, in order. */
  lemma TableRoundTrip(title: string, lines: seq<string>, es: seq<Entry>, accept: Entry -> bool)
    requires |lines| == |es| && forall i :: 0 <= i < |es| ==> ParseEntry(lines[i]) == Some(es[i])
    ensures Entries(Body(Table([title] + lines, false)), accept) == Some(Accepted(es, accept))
  {
    assert Body(Table([title] + lines, false)) == lines;
    LinesRoundTrip(lines, es, accept);
  }

  function Accepted(es: seq<Entry>, accept: Entry -> bool): seq<Entry> {
    if es == [] then []
    else
      var front := Accepted(es[..|es| - 1], accept);
      if accept(es[|es| - 1]) then front + [es[|es| - 1]] else front
  }

  lemma {:induction false} LinesRoundTrip(lines: seq<string>, es: seq<Entry>, accept: Entry -> bool)
    requires |lines| == |es| && forall i :: 0 <= i < |es| ==> ParseEntry(lines[i]) == Some(es[i])
    ensures Entries(lines, accept) == Some(Accepted(es, accept))
    decreases |es|
  {
    if es != [] { LinesRoundTrip(lines[..|lines| - 1], es[..|es| - 1], accept); }
  }

  // ---- What does not parse ----

  /** A comment is not looked at. */
  lemma {:induction false} CommentIgnored(line: string, comment: string)
    requires forall i :: 0 <= i < |line| ==> line[i] != '#'
    ensures StripComment(line + "#" + comment) == line
  {
    var s := line + "#" + comment;
    if line == [] {
      assert s[0] == '#';
    } else {
      CommentIgnored(line[1..], comment);
      assert s[0] == line[0] && s[1..] == line[1..] + "#" + comment;
      assert [line[0]] + line[1..] == line;
    }
  }

  /** A line of fewer than twelve words is an error for both parsers. */
  lemma ShortLineFails(words: seq<string>, gaps: seq<string>)
    requires Spaced(words, gaps) && |words| < 12
    ensures ParseEntry(Spread(words, gaps)) == None && ParseLinePort(Spread(words, gaps)) == None
  {
    NoComment(words, gaps);
    NothingToStrip(Spread(words, gaps));
    FieldsOfSpread(words, gaps);
  }

  lemma {:induction false} WordsLength(s: string)
    requires |s| % 8 == 0
    ensures IPv6Words(s).Some? ==> 2 * |IPv6Words(s).value| == |s|
    decreases |s|
  {
    if s != [] { WordsLength(s[8..]); }
  }

  /** An address that parses had 8 or 32 digits before the colon and a 16-bit port after it. */
  lemma ParsedInRange(s: string)
    ensures ParseAddr(s).Some? ==>
              && |Split(s, ':')| >= 2
              && (|Split(s, ':')[0]| == 8 || |Split(s, ':')[0]| == 32)
              && 2 * |ParseAddr(s).value.ip| == |Split(s, ':')[0]|
              && ParseAddr(s).value.port < LIMIT16
  {
    var fields := Split(s, ':');
    if |fields| >= 2 && |fields[0]| == 32 { WordsLength(fields[0]); }
  }
}
