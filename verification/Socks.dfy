// tunnel/cmd/tunnel/socks5.go: the SOCKS5 server side (RFC 1928): no authentication, CONNECT only.
// What a connection delivers is a list of chunks; where they are cut is arbitrary. A read that fails or
// times out is the end of the list; a write may fail at any time, and then the connection is not intact.
module Socks {
  import opened Options
  import opened Wire

  const VERSION: Byte := 5
  const NO_AUTH: Byte := 0
  const NO_ACCEPT: Byte := 0xFF
  const CONNECT: Byte := 1
  const ATYP_IPV4: Byte := 1
  const ATYP_DOMAIN: Byte := 3
  const ATYP_IPV6: Byte := 4
  const REPLY_OK: Byte := 0
  const REPLY_HOST_UNREACHABLE: Byte := 4
  const REPLY_CMD_NOT_SUPPORTED: Byte := 7
  const REPLY_ATYP_NOT_SUPPORTED: Byte := 8

  // ----- The wire format, sections 3 to 6 of RFC 1928 -----

  datatype Host = IPv4(address: Chunk) | Domain(name: Chunk) | IPv6(address: Chunk)
  datatype Target = Target(host: Host, port: int)

  // A destination a request can name.
  predicate WellFormed(t: Target) {
    && 1 <= t.port <= 65535
    && match t.host
       case IPv4(a) => |a| == 4
       case IPv6(a) => |a| == 16
       case Domain(n) => 1 <= |n| <= 255
  }

  function Greeting(methods: Chunk): Chunk
    requires |methods| <= 255
  {
    [VERSION, |methods| as Byte] + methods
  }

  function Atyp(h: Host): Byte {
    match h
    case IPv4(_) => ATYP_IPV4
    case Domain(_) => ATYP_DOMAIN
    case IPv6(_) => ATYP_IPV6
  }

  function HostBytes(h: Host): Chunk
    requires h.Domain? ==> |h.name| <= 255
  {
    match h
    case IPv4(a) => a
    case IPv6(a) => a
    case Domain(n) => [|n| as Byte] + n
  }

  function PortBytes(port: int): Chunk
    requires 0 <= port <= 65535
  {
    [(port / 256) as Byte, (port % 256) as Byte]
  }

  function Address(t: Target): Chunk
    requires WellFormed(t)
  {
    HostBytes(t.host) + PortBytes(t.port)
  }

  function Request(rsv: Byte, t: Target): Chunk
    requires WellFormed(t)
  {
    [VERSION, CONNECT, rsv, Atyp(t.host)] + Address(t)
  }

  function Reply(code: Byte): Chunk {
    [VERSION, code, 0, ATYP_IPV4, 0, 0, 0, 0, 0, 0]
  }

  // The formats byte by byte; numbers are in network byte order.
  lemma PortReads(port: int)
    requires 0 <= port <= 65535
    ensures |PortBytes(port)| == 2 && PortBytes(port)[0] as int * 256 + PortBytes(port)[1] as int == port
  {
  }

  lemma GreetingReads(methods: Chunk)
    requires |methods| <= 255
    ensures |Greeting(methods)| == |methods| + 2 && Greeting(methods)[0] == 5
    ensures Greeting(methods)[1] as int == |methods| && Greeting(methods)[2..] == methods
  {
  }

  lemma RequestReads(rsv: Byte, t: Target)
    requires WellFormed(t)
    ensures var r := Request(rsv, t); var n := |r|;
            && n >= 6 && r[..3] == [5, 1, rsv] && r[n - 2] as int * 256 + r[n - 1] as int == t.port
            && (t.host.IPv4? ==> r[3] == 1 && r[4..n - 2] == t.host.address)
            && (t.host.IPv6? ==> r[3] == 4 && r[4..n - 2] == t.host.address)
            && (t.host.Domain? ==> r[3] == 3 && r[4] as int == |t.host.name| && r[5..n - 2] == t.host.name)
  {
    var r, h := Request(rsv, t), HostBytes(t.host);
    PortReads(t.port);
    assert r == [5, 1, rsv, Atyp(t.host)] + h + PortBytes(t.port);
    assert |r| == 6 + |h| && r[4..|r| - 2] == h;
    if t.host.Domain? { assert r[5..|r| - 2] == h[1..]; }
  }

  // The answers: to a greeting, and to a request.
  lemma AnswersRead()
    ensures [VERSION, NO_AUTH] == [5, 0] && [VERSION, NO_ACCEPT] == [5, 255]
    ensures Reply(REPLY_OK) == [5, 0, 0, 1, 0, 0, 0, 0, 0, 0]
    ensures Reply(REPLY_HOST_UNREACHABLE) == [5, 4, 0, 1, 0, 0, 0, 0, 0, 0]
    ensures forall s :: Refusal(s) ==
              if |s| < 4 || s[0] != 5 then [] else if s[1] != 1 then [5, 7, 0, 1, 0, 0, 0, 0, 0, 0] else [5, 8, 0, 1, 0, 0, 0, 0, 0, 0]
  {
  }

  // How a stream is taken apart.
  predicate Greets(s: Chunk, methods: Chunk, rest: Chunk) {
    |methods| <= 255 && s == Greeting(methods) + rest
  }

  predicate Names(s: Chunk, t: Target, rest: Chunk) {
    WellFormed(t) && s == Address(t) + rest
  }

  predicate Requests(s: Chunk, rsv: Byte, t: Target, rest: Chunk) {
    WellFormed(t) && s == Request(rsv, t) + rest
  }

  // A whole client: greeting, request, and what it pipelines or sends later.
  ghost predicate Client(s: Chunk, methods: Chunk, rsv: Byte, t: Target, payload: Chunk) {
    exists afterGreeting :: Greets(s, methods, afterGreeting) && Requests(afterGreeting, rsv, t, payload)
  }

  // ----- Each stream can be taken apart in only one way -----

  lemma GreetsOnce(s: Chunk, m1: Chunk, r1: Chunk, m2: Chunk, r2: Chunk)
    requires Greets(s, m1, r1) && Greets(s, m2, r2)
    ensures m1 == m2 && r1 == r2
  {
    assert s[1] == |m1| as Byte && s[1] == |m2| as Byte;
    assert m1 == s[2..2 + |m1|] && m2 == s[2..2 + |m2|];
    assert r1 == s[2 + |m1|..] && r2 == s[2 + |m2|..];
  }

  lemma PortOnce(p: int, q: int)
    requires 0 <= p <= 65535 && 0 <= q <= 65535 && PortBytes(p) == PortBytes(q)
    ensures p == q
  {
    assert PortBytes(p)[0] == PortBytes(q)[0] && PortBytes(p)[1] == PortBytes(q)[1];
  }

  lemma NamesOnce(s: Chunk, t1: Target, r1: Chunk, t2: Target, r2: Chunk)
    requires Names(s, t1, r1) && Names(s, t2, r2) && Atyp(t1.host) == Atyp(t2.host)
    ensures t1 == t2 && r1 == r2
  {
    var h1, h2 := HostBytes(t1.host), HostBytes(t2.host);
    var n := |h1|;
    assert t1.host.Domain? ==> s[0] == |t1.host.name| as Byte && s[0] == |t2.host.name| as Byte;
    assert |h2| == n;
    assert s[..n] == h1 && s[..n] == h2;
    assert s[n..n + 2] == PortBytes(t1.port) && s[n..n + 2] == PortBytes(t2.port);
    PortOnce(t1.port, t2.port);
    assert s[n + 2..] == r1 && s[n + 2..] == r2;
    if t1.host.Domain? {
      assert h1[1..] == t1.host.name && h2[1..] == t2.host.name;
    }
  }

  lemma RequestsOnce(s: Chunk, v1: Byte, t1: Target, r1: Chunk, v2: Byte, t2: Target, r2: Chunk)
    requires Requests(s, v1, t1, r1) && Requests(s, v2, t2, r2)
    ensures v1 == v2 && t1 == t2 && r1 == r2
  {
    assert s[2] == v1 && s[2] == v2 && s[3] == Atyp(t1.host) && s[3] == Atyp(t2.host);
    assert s[4..] == Address(t1) + r1 && s[4..] == Address(t2) + r2;
    NamesOnce(s[4..], t1, r1, t2, r2);
  }

  // So a stream says at most one thing.
  lemma ClientOnce(s: Chunk, m1: Chunk, v1: Byte, t1: Target, p1: Chunk, m2: Chunk, v2: Byte, t2: Target, p2: Chunk)
    requires Client(s, m1, v1, t1, p1) && Client(s, m2, v2, t2, p2)
    ensures m1 == m2 && v1 == v2 && t1 == t2 && p1 == p2
  {
    var a1 :| Greets(s, m1, a1) && Requests(a1, v1, t1, p1);
    var a2 :| Greets(s, m2, a2) && Requests(a2, v2, t2, p2);
    GreetsOnce(s, m1, a1, m2, a2);
    RequestsOnce(a1, v1, t1, p1, v2, t2, p2);
  }

  // ----- Connections and the buffered reader -----

  lemma FirstChunk(cs: seq<Chunk>)
    requires cs != []
    ensures Bytes(cs) == cs[0] + Bytes(cs[1..])
  {
    assert cs == [cs[0]] + cs[1..];
    BytesConcat([cs[0]], cs[1..]);
    assert [cs[0]][..0] == [];
  }

  class Conn {
    var incoming: seq<Chunk> // what will still arrive from the other side
    var sent: Chunk          // what was written to it
    var intact: bool         // no write has failed

    // A write that fails may have put part of the data on the wire.
    method Write(data: Chunk) returns (ok: bool)
      modifies this`sent, this`intact
      ensures intact == (old(intact) && ok)
      ensures ok ==> sent == old(sent) + data
      ensures old(sent) <= sent <= old(sent) + data
    {
      ok := *;
      var k: int := |data|;
      if !ok {
        k := *;
        if k < 0 || k > |data| { k := 0; }
      }
      intact := intact && ok;
      assert data[..k] + data[k..] == data;
      assert sent + data == sent + data[..k] + data[k..];
      sent := sent + data[..k];
      if ok { assert data[..k] == data; }
    }
  }

  class Reader {
    const conn: Conn
    var buffered: Chunk

    constructor (conn: Conn, buffered: Chunk)
      ensures this.conn == conn && this.buffered == buffered
    {
      this.conn, this.buffered := conn, buffered;
    }

    // Everything the client has sent or will send and nobody has taken yet.
    ghost function Stream(): Chunk
      reads this, conn
    {
      buffered + Bytes(conn.incoming)
    }

    // io.ReadFull: all n bytes, however many reads it takes; or nothing more is coming.
    method ReadFull(n: nat) returns (ok: bool, data: Chunk)
      modifies this, conn`incoming
      ensures ok <==> |old(Stream())| >= n
      ensures ok ==> data == old(Stream())[..n] && Stream() == old(Stream())[n..]
    {
      data := [];
      hide Bytes;
      while |data| < n
        invariant |data| <= n && data + Stream() == old(Stream())
        decreases |conn.incoming|, n - |data|
      {
        if buffered == [] {
          if conn.incoming == [] {
            NoBytes();
            return false, data;
          }
          FirstChunk(conn.incoming);
          buffered, conn.incoming := conn.incoming[0], conn.incoming[1..];
        }
        var k := if |buffered| < n - |data| then |buffered| else n - |data|;
        assert buffered == buffered[..k] + buffered[k..];
        Shift(data, buffered[..k], buffered[k..], Bytes(conn.incoming));
        data, buffered := data + buffered[..k], buffered[k..];
      }
      return true, data;
    }
  }

  lemma Shift(a: Chunk, b: Chunk, c: Chunk, d: Chunk)
    ensures a + ((b + c) + d) == (a + b) + (c + d)
  {
  }

  lemma NoBytes()
    ensures Bytes([]) == []
  {
  }

  // ----- The handshake -----

  // socksNegotiate accepts exactly the complete greetings that offer "no authentication".
  method Negotiate(br: Reader) returns (ok: bool, ghost methods: Chunk)
    modifies br, br.conn
    ensures br.conn.intact ==> old(br.conn.intact)
    ensures ok ==> Greets(old(br.Stream()), methods, br.Stream()) && NO_AUTH in methods
    ensures ok ==> br.conn.sent == old(br.conn.sent) + [VERSION, NO_AUTH] && br.conn.intact == old(br.conn.intact)
    ensures !ok && br.conn.intact ==> forall m, rest :: Greets(old(br.Stream()), m, rest) ==> NO_AUTH !in m
    ensures !ok && br.conn.intact ==>
      || br.conn.sent == old(br.conn.sent)
      || (br.conn.sent == old(br.conn.sent) + [VERSION, NO_ACCEPT] && Greets(old(br.Stream()), methods, br.Stream()))
  {
    ghost var s := br.Stream();
    methods := [];
    var full, header := br.ReadFull(2);
    if !full || header[0] != VERSION {
      return false, [];
    }
    ghost var s2 := br.Stream();
    var offers;
    full, offers := br.ReadFull(header[1] as int);
    if !full {
      forall m, rest ensures !Greets(s, m, rest) { GreetingLength(s, m, rest); }
      return false, [];
    }
    assert s == header + s2 && s2 == offers + br.Stream();
    GreetingRead(s, header, offers, br.Stream());
    methods := offers;
    forall m, rest | Greets(s, m, rest) ensures m == offers {
      GreetsOnce(s, m, rest, offers, br.Stream());
    }
    var offered := false;
    var i := 0;
    while i < |offers|
      invariant 0 <= i <= |offers| && !offered && NO_AUTH !in offers[..i]
    {
      if offers[i] == NO_AUTH {
        offered := true;
        break;
      }
      i := i + 1;
    }
    assert offers == offers[..i] + offers[i..];
    if !offered {
      var _ := br.conn.Write([VERSION, NO_ACCEPT]);
      return false, methods;
    }
    ok := br.conn.Write([VERSION, NO_AUTH]);
  }

  lemma GreetingLength(s: Chunk, m: Chunk, rest: Chunk)
    ensures Greets(s, m, rest) ==> |s| >= 2 && s[0] == VERSION && |s| - 2 >= s[1] as int
  {
  }

  lemma GreetingRead(s: Chunk, header: Chunk, offers: Chunk, rest: Chunk)
    requires |header| == 2 && header[0] == VERSION && |offers| == header[1] as int
    requires s == header + (offers + rest)
    ensures Greets(s, offers, rest)
  {
    assert header == [VERSION, |offers| as Byte];
    assert s == header + offers + rest;
  }

  method WriteReply(conn: Conn, code: Byte) returns (ok: bool)
    modifies conn`sent, conn`intact
    ensures conn.intact == (old(conn.intact) && ok)
    ensures ok ==> conn.sent == old(conn.sent) + Reply(code)
  {
    ok := conn.Write(Reply(code));
  }

  // socksReadAddr reads exactly the well-formed addresses of the announced type. Running out of bytes, an
  // unknown type, an empty name and port 0 are all refused.
  method ReadAddr(br: Reader, atyp: Byte) returns (t: Option<Target>)
    modifies br, br.conn`incoming
    ensures t.Some? ==> Names(old(br.Stream()), t.value, br.Stream()) && Atyp(t.value.host) == atyp
    ensures t.None? ==> forall u, rest :: Names(old(br.Stream()), u, rest) ==> Atyp(u.host) != atyp
  {
    ghost var s := br.Stream();
    var host := ReadHost(br, atyp);
    forall u, rest | Names(s, u, rest) ensures HostShape(u.host) && s == HostBytes(u.host) + (PortBytes(u.port) + rest) {
      AddressSplit(s, u, rest);
    }
    if host.None? { return None; }
    ghost var h, s2 := HostBytes(host.value), br.Stream();
    var full, portBuf := br.ReadFull(2);
    if !full || portBuf == [0, 0] || host.value == Domain([]) {
      forall u, rest | Names(s, u, rest) ensures Atyp(u.host) != atyp {
        NotThisAddress(s, host.value, s2, u, rest);
      }
      return None;
    }
    var port := portBuf[0] as int * 256 + portBuf[1] as int;
    assert portBuf == PortBytes(port);
    assert s == h + (portBuf + br.Stream());
    assert s == h + portBuf + br.Stream();
    return Some(Target(host.value, port));
  }

  // With a host read and no acceptable port after it, nothing of that type is named.
  lemma NotThisAddress(s: Chunk, h: Host, s2: Chunk, u: Target, rest: Chunk)
    requires HostShape(h) && s == HostBytes(h) + s2 && Names(s, u, rest)
    requires |s2| < 2 || s2[..2] == [0, 0] || h == Domain([])
    ensures Atyp(u.host) != Atyp(h)
  {
    AddressSplit(s, u, rest);
    if Atyp(u.host) == Atyp(h) {
      HostOnce(s, h, s2, u.host, PortBytes(u.port) + rest);
    }
  }

  ghost predicate HostShape(h: Host) {
    match h
    case IPv4(a) => |a| == 4
    case IPv6(a) => |a| == 16
    case Domain(n) => |n| <= 255
  }

  method ReadHost(br: Reader, atyp: Byte) returns (host: Option<Host>)
    modifies br, br.conn`incoming
    ensures host.Some? ==>
      && HostShape(host.value) && Atyp(host.value) == atyp
      && old(br.Stream()) == HostBytes(host.value) + br.Stream()
    ensures host.None? ==> forall h, rest :: HostShape(h) && Atyp(h) == atyp ==> old(br.Stream()) != HostBytes(h) + rest
  {
    ghost var s := br.Stream();
    if atyp == ATYP_IPV4 {
      var full, buf := br.ReadFull(4);
      if !full { return None; }
      return Some(IPv4(buf));
    } else if atyp == ATYP_IPV6 {
      var full, buf := br.ReadFull(16);
      if !full { return None; }
      return Some(IPv6(buf));
    } else if atyp == ATYP_DOMAIN {
      var name := ReadName(br);
      if name.None? {
        forall h, rest | HostShape(h) && Atyp(h) == atyp ensures s != HostBytes(h) + rest { NameLength(s, h, rest); }
        return None;
      }
      return Some(Domain(name.value));
    }
    return None;
  }

  // A length and as many bytes.
  method ReadName(br: Reader) returns (name: Option<Chunk>)
    modifies br, br.conn`incoming
    ensures name.Some? ==> |name.value| <= 255 && old(br.Stream()) == [|name.value| as Byte] + name.value + br.Stream()
    ensures name.None? ==> |old(br.Stream())| < 1 || |old(br.Stream())| - 1 < old(br.Stream())[0] as int
  {
    ghost var s := br.Stream();
    var full, length := br.ReadFull(1);
    if !full { return None; }
    var text;
    full, text := br.ReadFull(length[0] as int);
    if !full { return None; }
    assert length == [|text| as Byte];
    assert s == length + (text + br.Stream());
    assert s == length + text + br.Stream();
    return Some(text);
  }

  lemma NameLength(s: Chunk, h: Host, rest: Chunk)
    requires HostShape(h)
    ensures h.Domain? && s == HostBytes(h) + rest ==> |s| >= 1 && |s| - 1 >= s[0] as int
  {
    if h.Domain? && s == HostBytes(h) + rest { assert s[0] == |h.name| as Byte; }
  }

  lemma AddressSplit(s: Chunk, u: Target, rest: Chunk)
    requires Names(s, u, rest)
    ensures HostShape(u.host) && u.host != Domain([]) && s == HostBytes(u.host) + (PortBytes(u.port) + rest)
    ensures PortBytes(u.port) != [0, 0]
  {
    assert PortBytes(u.port)[0] as int * 256 + PortBytes(u.port)[1] as int == u.port;
  }

  lemma HostOnce(s: Chunk, h1: Host, r1: Chunk, h2: Host, r2: Chunk)
    requires HostShape(h1) && HostShape(h2) && Atyp(h1) == Atyp(h2)
    requires s == HostBytes(h1) + r1 && s == HostBytes(h2) + r2
    ensures h1 == h2 && r1 == r2
  {
    assert h1.Domain? ==> s[0] == |h1.name| as Byte && s[0] == |h2.name| as Byte;
    var n := |HostBytes(h1)|;
    assert |HostBytes(h2)| == n && s[..n] == HostBytes(h1) && s[..n] == HostBytes(h2);
    assert s[n..] == r1 && s[n..] == r2;
    if h1.Domain? { assert HostBytes(h1)[1..] == h1.name && HostBytes(h2)[1..] == h2.name; }
  }

  // What a request that is not accepted is answered with. Every address that is refused, also one with
  // port 0 or without a name, gets the "address type" reply.
  function Refusal(s: Chunk): Chunk {
    if |s| < 4 || s[0] != VERSION then []
    else if s[1] != CONNECT then Reply(REPLY_CMD_NOT_SUPPORTED)
    else Reply(REPLY_ATYP_NOT_SUPPORTED)
  }

  // socksReadRequest accepts exactly the well-formed CONNECT requests.
  method ReadRequest(br: Reader) returns (t: Option<Target>, ghost rsv: Byte)
    modifies br, br.conn
    ensures br.conn.intact ==> old(br.conn.intact)
    ensures t.Some? ==> Requests(old(br.Stream()), rsv, t.value, br.Stream())
    ensures t.Some? ==> br.conn.sent == old(br.conn.sent) && br.conn.intact == old(br.conn.intact)
    ensures t.None? ==> forall v, u, rest :: !Requests(old(br.Stream()), v, u, rest)
    ensures t.None? && br.conn.intact ==> br.conn.sent == old(br.conn.sent) + Refusal(old(br.Stream()))
  {
    ghost var s := br.Stream();
    rsv := 0;
    forall v, u, rest | Requests(s, v, u, rest)
      ensures |s| >= 4 && s[0] == VERSION && s[1] == CONNECT && s[3] == Atyp(u.host) && Names(s[4..], u, rest)
    {
      RequestSplit(s, v, u, rest);
    }
    var full, head := br.ReadFull(4);
    if !full || head[0] != VERSION {
      assert br.conn.sent + [] == br.conn.sent;
      return None, 0;
    }
    assert s == head + br.Stream();
    if head[1] != CONNECT {
      var _ := WriteReply(br.conn, REPLY_CMD_NOT_SUPPORTED);
      return None, 0;
    }
    rsv := head[2];
    ghost var s4 := br.Stream();
    assert s[4..] == s4;
    t := ReadAddr(br, head[3]);
    if t.None? {
      var _ := WriteReply(br.conn, REPLY_ATYP_NOT_SUPPORTED);
      return None, rsv;
    }
    assert head == [VERSION, CONNECT, rsv, Atyp(t.value.host)];
    RequestJoin(s, head, s4, t.value, br.Stream(), rsv);
  }

  lemma RequestSplit(s: Chunk, v: Byte, u: Target, rest: Chunk)
    requires Requests(s, v, u, rest)
    ensures |s| >= 4 && s[0] == VERSION && s[1] == CONNECT && s[3] == Atyp(u.host) && Names(s[4..], u, rest)
  {
    assert s[4..] == Address(u) + rest;
  }

  lemma RequestJoin(s: Chunk, head: Chunk, s4: Chunk, t: Target, rest: Chunk, rsv: Byte)
    requires s == head + s4 && Names(s4, t, rest) && head == [VERSION, CONNECT, rsv, Atyp(t.host)]
    ensures Requests(s, rsv, t, rest)
  {
    assert s == head + Address(t) + rest;
  }

  // io.Copy: everything that arrives from one side is written to the other, until a write fails.
  method Copy(dst: Conn, src: Conn)
    requires dst != src && dst.intact
    modifies dst`sent, dst`intact, src`incoming
    ensures old(dst.sent) <= dst.sent <= old(dst.sent) + Bytes(old(src.incoming))
    ensures dst.intact ==> dst.sent == old(dst.sent) + Bytes(old(src.incoming))
  {
    NoBytes();
    ghost var start, done: Chunk, total := dst.sent, [], Bytes(src.incoming);
    hide Bytes;
    while src.incoming != []
      invariant dst.intact && dst.sent == start + done && total == done + Bytes(src.incoming)
      decreases |src.incoming|
    {
      FirstChunk(src.incoming);
      var chunk := src.incoming[0];
      src.incoming := src.incoming[1..];
      ghost var rest := Bytes(src.incoming);
      Shift(start, done, chunk, rest);
      assert done + (chunk + rest) == (done + chunk) + rest;
      var ok := dst.Write(chunk);
      if !ok {
        PrefixOf(start, done, chunk, rest, dst.sent);
        return;
      }
      assert start + done + chunk == start + (done + chunk);
      done := done + chunk;
    }
    assert done + [] == done;
  }

  lemma PrefixOf(start: Chunk, done: Chunk, chunk: Chunk, rest: Chunk, sent: Chunk)
    requires start + done <= sent <= start + done + chunk
    ensures start <= sent <= start + (done + (chunk + rest))
  {
    assert start + (done + (chunk + rest)) == start + done + chunk + rest;
  }

  // What the reader holds already goes up first, then both directions are copied.
  method Tunnel(br: Reader, up: Conn)
    requires up != br.conn && br.conn.intact && up.intact && up.sent == []
    modifies br`buffered, br.conn, up
    ensures up.sent <= old(br.Stream())
    ensures up.intact ==> up.sent == old(br.Stream())
    ensures br.conn.intact && up.intact ==> br.conn.sent == old(br.conn.sent) + Bytes(old(up.incoming))
  {
    hide Bytes;
    ghost var rest := Bytes(br.conn.incoming);
    if br.buffered != [] {
      var ok := up.Write(br.buffered);
      assert [] + br.buffered == br.buffered;
      if !ok {
        PrefixOf([], [], br.buffered, rest, up.sent);
        assert [] + ([] + (br.buffered + rest)) == br.Stream();
        return;
      }
      br.buffered := [];
    } else {
      assert br.buffered + rest == rest;
    }
    Copy(up, br.conn);
    if up.intact { Copy(br.conn, up); }
  }

  // handleSOCKS5, with the outcome of the dial as an input. A tunnel is route exactly to the destination
  // the client named; the bytes it pipelined go up first and the rest follows, so that upstream gets a
  // prefix of what followed the request, and all of it if no write fails.
  method HandleSOCKS5(br: Reader, upstream: Option<Conn>)
    returns (route: Option<Target>, ghost methods: Chunk, ghost rsv: Byte, ghost payload: Chunk)
    requires br.conn.intact && br.conn.sent == []
    requires upstream.Some? ==> upstream.value != br.conn && upstream.value.intact && upstream.value.sent == []
    modifies br, br.conn, if upstream.Some? then {upstream.value} else {}
    ensures route.Some? ==>
      && upstream.Some? && Client(old(br.Stream()), methods, rsv, route.value, payload) && NO_AUTH in methods
      && upstream.value.sent <= payload
      && (upstream.value.intact ==> upstream.value.sent == payload)
    ensures route.Some? && br.conn.intact && upstream.value.intact ==>
      br.conn.sent == [VERSION, NO_AUTH] + Reply(REPLY_OK) + Bytes(old(upstream.value.incoming))
    ensures route.None? && upstream.Some? ==> upstream.value.sent == []
    ensures route.None? && br.conn.intact ==>
      || br.conn.sent == [] || br.conn.sent == [VERSION, NO_ACCEPT]
      || (exists rest :: Greets(old(br.Stream()), methods, rest) && NO_AUTH in methods
            && br.conn.sent == [VERSION, NO_AUTH] + Refusal(rest))
      || (upstream.None? && br.conn.sent == [VERSION, NO_AUTH] + Reply(REPLY_HOST_UNREACHABLE))
    ensures upstream.None? && br.conn.intact ==> forall m, v, t, p ::
      Client(old(br.Stream()), m, v, t, p) && NO_AUTH in m ==>
        br.conn.sent == [VERSION, NO_AUTH] + Reply(REPLY_HOST_UNREACHABLE)
    ensures upstream.Some? && route.None? && br.conn.intact ==>
      forall m, v, t, p :: Client(old(br.Stream()), m, v, t, p) ==> NO_AUTH !in m
  {
    hide Greets, Requests, Reply, Refusal, Bytes, WellFormed;
    ghost var s := br.Stream();
    route, rsv, payload := None, 0, [];
    var ok;
    ok, methods := Negotiate(br);
    if !ok { return; }
    ghost var afterGreeting := br.Stream();
    forall m, a | Greets(s, m, a) ensures a == afterGreeting { GreetsOnce(s, m, a, methods, afterGreeting); }
    var target;
    target, rsv := ReadRequest(br);
    if target.None? { return; }
    payload := br.Stream();
    assert Client(s, methods, rsv, target.value, payload);
    if upstream.None? {
      var _ := WriteReply(br.conn, REPLY_HOST_UNREACHABLE);
      return;
    }
    ok := WriteReply(br.conn, REPLY_OK);
    if !ok { return; }
    route := target;
    Tunnel(br, upstream.value);
  }

  // For every well-formed greeting that offers "no authentication", every request, every payload and every
  // chunking, absent errors upstream receives exactly the payload and the tunnel goes where it was asked to.
  method RoundTrip(methods: Chunk, rsv: Byte, t: Target, payload: Chunk, chunks: seq<Chunk>, buffered: Chunk, up: Conn)
    returns (route: Option<Target>, errors: bool)
    requires |methods| <= 255 && NO_AUTH in methods && WellFormed(t)
    requires buffered + Bytes(chunks) == Greeting(methods) + (Request(rsv, t) + payload)
    requires up.intact && up.sent == []
    modifies up
    ensures up.sent <= payload
    ensures !errors ==> route == Some(t) && up.sent == payload
  {
    var conn := new Conn;
    conn.incoming, conn.sent, conn.intact := chunks, [], true;
    var br := new Reader(conn, buffered);
    ghost var s := br.Stream();
    assert Greets(s, methods, Request(rsv, t) + payload);
    assert Requests(Request(rsv, t) + payload, rsv, t, payload);
    assert Client(s, methods, rsv, t, payload);
    ghost var m, v, p;
    route, m, v, p := HandleSOCKS5(br, Some(up));
    if route.Some? { ClientOnce(s, methods, rsv, t, payload, m, v, route.value, p); }
    errors := !conn.intact || !up.intact;
  }
}
