/**
 Typed messages: eight kinds, each a list of typed fields, marshalled to a JSON object from which
 zero-valued fields are left out, and framed with the flag and type byte of the kind.
 */
module Messages {
  import opened Bytes
  import opened Framing
  import opened Options

  type uint8 = x: int | 0 <= x < 256
  type int64 = x: int | -0x8000_0000_0000_0000 <= x < 0x8000_0000_0000_0000

  datatype Message =
    | LoginRequest(version: uint8, authCode: string, poolSize: int64, hostName: string, os: string, tag: string)
    | LoginResponse(clientId: string, result: string)
    | ProxyRequest(name: string, kind: string, port: string, target: string, enable: bool)
    | ProxyResponse(name: string, port: string, enable: bool, result: string)
    | HeartbeatRequest(timestamp: int64)
    | HeartbeatResponse(timeSend: int64, timeRecv: int64)
    | PipeRequest(clientId: string)
    | ConnRequest(proxyName: string, srcIp: string, srcPort: string, dstIp: string, dstPort: string)

  datatype Kind = KLoginReq | KLoginResp | KProxyReq | KProxyResp | KBeatReq | KBeatResp | KPipeReq | KConnReq

  // ---- The type tables ----

  const REQUEST: byte := '<' as int
  const RESPONSE: byte := '>' as int
  const LOGIN: byte := 'l' as int
  const PROXY: byte := 'p' as int
  const HEARTBEAT: byte := 'h' as int
  const PIPE: byte := 'q' as int
  const CONN: byte := 'w' as int

  /** getMsgInfo. */
  function Info(k: Kind): (byte, byte) {
    match k
    case KLoginReq => (REQUEST, LOGIN)
    case KLoginResp => (RESPONSE, LOGIN)
    case KBeatReq => (REQUEST, HEARTBEAT)
    case KBeatResp => (RESPONSE, HEARTBEAT)
    case KProxyReq => (REQUEST, PROXY)
    case KProxyResp => (RESPONSE, PROXY)
    case KPipeReq => (REQUEST, PIPE)
    case KConnReq => (REQUEST, CONN)
  }

  /** TypeReqMap and TypeRespMap, chosen by the flag. */
  function KindOf(flag: byte, typ: byte): Option<Kind> {
    if flag == REQUEST then
      (if typ == HEARTBEAT then Some(KBeatReq) else if typ == LOGIN then Some(KLoginReq)
       else if typ == PROXY then Some(KProxyReq) else if typ == PIPE then Some(KPipeReq)
       else if typ == CONN then Some(KConnReq) else None)
    else if flag == RESPONSE then
      (if typ == HEARTBEAT then Some(KBeatResp) else if typ == LOGIN then Some(KLoginResp)
       else if typ == PROXY then Some(KProxyResp) else None)
    else None
  }

  /** The tables and the case analysis are inverse to each other. */
  lemma TablesInverse(flag: byte, typ: byte, k: Kind)
    ensures KindOf(flag, typ) == Some(k) <==> Info(k) == (flag, typ)
  {
  }

  // ---- JSON objects as ordered key/value lists ----

  datatype Value = Str(s: string) | Num(n: int) | Bool(b: bool)

  datatype FieldType = TStr | TUint8 | TInt64 | TBool

  type Object = seq<(string, Value)>

  function Zero(t: FieldType): Value {
    match t
    case TStr => Str("")
    case TUint8 => Num(0)
    case TInt64 => Num(0)
    case TBool => Bool(false)
  }

  predicate Fits(t: FieldType, v: Value) {
    match t
    case TStr => v.Str?
    case TUint8 => v.Num? && 0 <= v.n < 256
    case TInt64 => v.Num? && -0x8000_0000_0000_0000 <= v.n < 0x8000_0000_0000_0000
    case TBool => v.Bool?
  }

  type Schema = seq<(string, FieldType)>

  predicate AllFit(sc: Schema, vs: seq<Value>) { |sc| == |vs| && forall i :: 0 <= i < |sc| ==> Fits(sc[i].1, vs[i]) }

  ghost predicate DistinctKeys(sc: Schema) { forall i, j :: 0 <= i < j < |sc| ==> sc[i].0 != sc[j].0 }

  /** Fields in order, leaving out those with a zero value. */
  function Marshal(sc: Schema, vs: seq<Value>): Object
    requires |sc| == |vs|
  {
    if sc == [] then []
    else (if vs[0] == Zero(sc[0].1) then [] else [(sc[0].0, vs[0])]) + Marshal(sc[1..], vs[1..])
  }

  /** The last value given for a key. */
  function Lookup(o: Object, key: string): Option<Value> {
    if o == [] then None
    else if o[|o| - 1].0 == key then Some(o[|o| - 1].1)
    else Lookup(o[..|o| - 1], key)
  }

  /** Each field gets its value, or stays zero if absent; a value of the wrong type is an error. */
  function Unmarshal(sc: Schema, o: Object): Option<seq<Value>> {
    if sc == [] then Some([])
    else
      var v := match Lookup(o, sc[0].0) case None => Zero(sc[0].1) case Some(v) => v;
      match Unmarshal(sc[1..], o)
      case None => None
      case Some(vs) => if Fits(sc[0].1, v) then Some([v] + vs) else None
  }

  lemma {:induction false} LookupAppend(a: Object, b: Object, key: string)
    ensures Lookup(a + b, key) == if Lookup(b, key).Some? then Lookup(b, key) else Lookup(a, key)
  {
    if b == [] {
      assert a + b == a;
    } else {
      LookupAppend(a, b[..|b| - 1], key);
      assert (a + b)[..|a + b| - 1] == a + b[..|b| - 1];
    }
  }

  lemma {:induction false} LookupAbsent(sc: Schema, vs: seq<Value>, key: string)
    requires |sc| == |vs| && forall i :: 0 <= i < |sc| ==> sc[i].0 != key
    ensures Lookup(Marshal(sc, vs), key) == None
  {
    if sc != [] {
      LookupAbsent(sc[1..], vs[1..], key);
      if vs[0] != Zero(sc[0].1) {
        LookupAppend([(sc[0].0, vs[0])], Marshal(sc[1..], vs[1..]), key);
        assert Lookup([(sc[0].0, vs[0])], key) == Lookup([(sc[0].0, vs[0])][..0], key);
      } else {
        assert Marshal(sc, vs) == Marshal(sc[1..], vs[1..]);
      }
    }
  }

  /** Every field of a marshalled object is found, or absent and zero. */
  lemma {:induction false} LookupField(sc: Schema, vs: seq<Value>, i: nat)
    requires AllFit(sc, vs) && DistinctKeys(sc) && i < |sc|
    ensures Lookup(Marshal(sc, vs), sc[i].0) == if vs[i] == Zero(sc[i].1) then None else Some(vs[i])
  {
    var head: Object := if vs[0] == Zero(sc[0].1) then [] else [(sc[0].0, vs[0])];
    LookupAppend(head, Marshal(sc[1..], vs[1..]), sc[i].0);
    assert head != [] ==> head[..0] == [];
    if i == 0 {
      LookupAbsent(sc[1..], vs[1..], sc[0].0);
    } else {
      LookupField(sc[1..], vs[1..], i - 1);
      assert Lookup(head, sc[i].0) == None;
    }
  }

  lemma {:induction false} UnmarshalFields(sc: Schema, o: Object, vs: seq<Value>)
    requires AllFit(sc, vs)
    requires forall i :: 0 <= i < |sc| ==> Lookup(o, sc[i].0) == if vs[i] == Zero(sc[i].1) then None else Some(vs[i])
    ensures Unmarshal(sc, o) == Some(vs)
  {
    if sc != [] {
      UnmarshalFields(sc[1..], o, vs[1..]);
      assert [vs[0]] + vs[1..] == vs;
      assert Lookup(o, sc[0].0) == if vs[0] == Zero(sc[0].1) then None else Some(vs[0]);
    }
  }

  /** Leaving out zero fields loses nothing. */
  lemma ObjectRoundTrip(sc: Schema, vs: seq<Value>)
    requires AllFit(sc, vs) && DistinctKeys(sc)
    ensures Unmarshal(sc, Marshal(sc, vs)) == Some(vs)
  {
    forall i | 0 <= i < |sc|
      ensures Lookup(Marshal(sc, vs), sc[i].0) == if vs[i] == Zero(sc[i].1) then None else Some(vs[i])
    {
      LookupField(sc, vs, i);
    }
    UnmarshalFields(sc, Marshal(sc, vs), vs);
  }

  // ---- The eight message structs ----

  function SchemaOf(k: Kind): Schema {
    match k
    case KLoginReq => [("ver", TUint8), ("xcode", TStr), ("pool", TInt64), ("host", TStr), ("os", TStr), ("tag", TStr)]
    case KLoginResp => [("cid", TStr), ("result", TStr)]
    case KProxyReq => [("name", TStr), ("type", TStr), ("port", TStr), ("trgt", TStr), ("enable", TBool)]
    case KProxyResp => [("name", TStr), ("port", TStr), ("enable", TBool), ("result", TStr)]
    case KBeatReq => [("t", TInt64)]
    case KBeatResp => [("t_send", TInt64), ("t_recv", TInt64)]
    case KPipeReq => [("cid", TStr)]
    case KConnReq => [("name", TStr), ("src_ip", TStr), ("src_port", TStr), ("dst_ip", TStr), ("dst_port", TStr)]
  }

  function KindOfMessage(m: Message): Kind {
    match m
    case LoginRequest(_, _, _, _, _, _) => KLoginReq
    case LoginResponse(_, _) => KLoginResp
    case ProxyRequest(_, _, _, _, _) => KProxyReq
    case ProxyResponse(_, _, _, _) => KProxyResp
    case HeartbeatRequest(_) => KBeatReq
    case HeartbeatResponse(_, _) => KBeatResp
    case PipeRequest(_) => KPipeReq
    case ConnRequest(_, _, _, _, _) => KConnReq
  }

  function Values(m: Message): seq<Value> {
    match m
    case LoginRequest(v, x, p, h, o, t) => [Num(v), Str(x), Num(p), Str(h), Str(o), Str(t)]
    case LoginResponse(c, r) => [Str(c), Str(r)]
    case ProxyRequest(n, t, p, g, e) => [Str(n), Str(t), Str(p), Str(g), Bool(e)]
    case ProxyResponse(n, p, e, r) => [Str(n), Str(p), Bool(e), Str(r)]
    case HeartbeatRequest(t) => [Num(t)]
    case HeartbeatResponse(s, r) => [Num(s), Num(r)]
    case PipeRequest(c) => [Str(c)]
    case ConnRequest(n, si, sp, di, dp) => [Str(n), Str(si), Str(sp), Str(di), Str(dp)]
  }

  function Build(k: Kind, vs: seq<Value>): Message
    requires AllFit(SchemaOf(k), vs)
  {
    var sc := SchemaOf(k);
    assert forall i :: 0 <= i < |sc| ==> Fits(sc[i].1, vs[i]);
    match k
    case KLoginReq => LoginRequest(vs[0].n, vs[1].s, vs[2].n, vs[3].s, vs[4].s, vs[5].s)
    case KLoginResp => LoginResponse(vs[0].s, vs[1].s)
    case KProxyReq => ProxyRequest(vs[0].s, vs[1].s, vs[2].s, vs[3].s, vs[4].b)
    case KProxyResp => ProxyResponse(vs[0].s, vs[1].s, vs[2].b, vs[3].s)
    case KBeatReq => HeartbeatRequest(vs[0].n)
    case KBeatResp => HeartbeatResponse(vs[0].n, vs[1].n)
    case KPipeReq => PipeRequest(vs[0].s)
    case KConnReq => ConnRequest(vs[0].s, vs[1].s, vs[2].s, vs[3].s, vs[4].s)
  }

  /** The structs and the field lists carry the same information, for every kind. */
  lemma ValuesRoundTrip(m: Message)
    ensures AllFit(SchemaOf(KindOfMessage(m)), Values(m))
    ensures Build(KindOfMessage(m), Values(m)) == m
  {
  }

  lemma SchemasDistinct(k: Kind)
    ensures DistinctKeys(SchemaOf(k))
  {
    match k
    case KLoginReq =>
      assert "ver"[0] == 'v' && "xcode"[0] == 'x' && "pool"[0] == 'p';
      assert "host"[0] == 'h' && "os"[0] == 'o' && "tag"[0] == 't';
    case KLoginResp => assert "cid"[0] == 'c' && "result"[0] == 'r';
    case KProxyReq =>
      assert "name"[0] == 'n' && "type"[0] == 't' && "type"[1] == 'y';
      assert "port"[0] == 'p' && "trgt"[0] == 't' && "trgt"[1] == 'r' && "enable"[0] == 'e';
    case KProxyResp => assert "name"[0] == 'n' && "port"[0] == 'p' && "enable"[0] == 'e' && "result"[0] == 'r';
    case KBeatReq =>
    case KBeatResp => assert "t_send"[2] == 's' && "t_recv"[2] == 'r';
    case KPipeReq =>
    case KConnReq =>
      assert "name"[0] == 'n' && "src_ip"[0] == 's' && "dst_ip"[0] == 'd'
             && |"src_ip"| != |"src_port"| && |"dst_ip"| != |"dst_port"|
             && "src_port"[0] == 's' && "dst_port"[0] == 'd';
  }

  // ---- Send and Get ----

  /** The JSON library, given by what it does to key/value objects. */
  datatype JsonLib = JsonLib(marshal: Object -> Bytes, unmarshal: Bytes -> Option<Object>)

  /** The library reads back what it wrote. */
  ghost predicate Faithful(lib: JsonLib) { forall o :: lib.unmarshal(lib.marshal(o)) == Some(o) }

  datatype GetError = ReadFailed | UnknownType | BadJson

  datatype GetResult = Got(msg: Message, left: Chunks) | Failed(why: GetError)

  function ObjectOf(m: Message): Object {
    ValuesRoundTrip(m);
    Marshal(SchemaOf(KindOfMessage(m)), Values(m))
  }

  /** The frame that `Send` writes. */
  function Sent(lib: JsonLib, m: Message): Frame {
    var (flag, typ) := Info(KindOfMessage(m));
    Frame(flag, typ, lib.marshal(ObjectOf(m)))
  }

  lemma {:induction false} UnmarshalFits(sc: Schema, o: Object)
    ensures Unmarshal(sc, o).Some? ==> AllFit(sc, Unmarshal(sc, o).value)
  {
    if sc != [] { UnmarshalFits(sc[1..], o); }
  }

  /** The message in a frame, if its type is known and its data parses. */
  function Parse(lib: JsonLib, f: Frame, left: Chunks): GetResult {
    match KindOf(f.flag, f.typ)
    case None => Failed(UnknownType)
    case Some(k) =>
      match lib.unmarshal(f.data)
      case None => Failed(BadJson)
      case Some(o) =>
        UnmarshalFits(SchemaOf(k), o);
        match Unmarshal(SchemaOf(k), o)
        case None => Failed(BadJson)
        case Some(vs) => Got(Build(k, vs), left)
  }

  function Get(lib: JsonLib, cs: Chunks): GetResult {
    match ReadFrame(cs)
    case Err(_) => Failed(ReadFailed)
    case Ok((f, left)) => Parse(lib, f, left)
  }

  lemma ParseSent(lib: JsonLib, m: Message, left: Chunks)
    requires Faithful(lib)
    ensures Parse(lib, Sent(lib, m), left) == Got(m, left)
  {
    var k := KindOfMessage(m);
    TablesInverse(Info(k).0, Info(k).1, k);
    ValuesRoundTrip(m);
    SchemasDistinct(k);
    ObjectRoundTrip(SchemaOf(k), Values(m));
    assert lib.unmarshal(lib.marshal(ObjectOf(m))) == Some(ObjectOf(m));
  }

  /**
   For every message of every kind, `Get` after `Send` returns the same message and leaves the rest of
   the stream, whatever fields are zero and however the bytes are chunked after the two header bytes.
   */
  lemma MessageRoundTrip(lib: JsonLib, m: Message, cs: Chunks, tail: Bytes)
    requires Faithful(lib) && |lib.marshal(ObjectOf(m))| < TWO_TO_31
    requires cs != [] && |cs[0]| >= 2 && Flatten(cs) == Encode(Sent(lib, m)) + tail
    ensures Get(lib, cs).Got? && Get(lib, cs).msg == m && Flatten(Get(lib, cs).left) == tail
  {
    WholeHeaderFrame(cs, Sent(lib, m), tail);
    ParseSent(lib, m, ReadFrame(cs).value.1);
  }

  /** A message cut short anywhere, in whatever chunks it comes, is an error and never a message. */
  lemma TruncatedMessageFails(lib: JsonLib, m: Message, cs: Chunks)
    requires |lib.marshal(ObjectOf(m))| < TWO_TO_31 && Flatten(cs) < Encode(Sent(lib, m))
    ensures Get(lib, cs).Failed?
  {
    PrefixIsNotAFrame(cs, Sent(lib, m));
  }
}
