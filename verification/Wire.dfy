// What host and probe say to each other about tunnels, and the two loops both sides run per tunnel:
// a source that reads chunks and sends them as messages, and an outlet that takes queued chunks and
// writes them to a connection.
module Wire {
  import opened Options

  type Id = string
  newtype Byte = x: int | 0 <= x < 256
  type Chunk = seq<Byte>

  // Garbled stands for a Data message whose payload is not valid base64.
  datatype Msg =
    | Open(id: Id, host: string, port: int)
    | OpenResult(id: Id, ok: bool)
    | Data(id: Id, chunk: Chunk)
    | Garbled(id: Id)
    | Close(id: Id)

  const CHUNK_SIZE: nat := 16 * 1024
  const MAX_PAYLOAD: nat := 4 * CHUNK_SIZE
  const QUEUE_SIZE: nat := 32

  function Bytes(cs: seq<Chunk>): Chunk {
    if cs == [] then [] else Bytes(cs[..|cs| - 1]) + cs[|cs| - 1]
  }

  // The chunks of tunnel id among queued messages, in order.
  function DataOf(q: seq<Msg>, id: Id): seq<Chunk> {
    if q == [] then []
    else (if q[0].Data? && q[0].id == id then [q[0].chunk] else []) + DataOf(q[1..], id)
  }

  // A message after which the receiver no longer knows the tunnel.
  predicate Ends(m: Msg, id: Id) { m.id == id && (m.Close? || m.Garbled?) }

  // The chunks of tunnel id that will still find the tunnel.
  function DataBefore(q: seq<Msg>, id: Id): seq<Chunk> {
    if q == [] || Ends(q[0], id) then []
    else (if q[0].Data? && q[0].id == id then [q[0].chunk] else []) + DataBefore(q[1..], id)
  }

  // Whether a good dial result is among the messages that will still find the tunnel.
  predicate AnswerIn(q: seq<Msg>, id: Id) {
    q != [] && !Ends(q[0], id) && (q[0] == OpenResult(id, true) || AnswerIn(q[1..], id))
  }

  // Whether a ProxyClose is among the messages that will still find the tunnel.
  predicate CloseIn(q: seq<Msg>, id: Id) {
    q != [] && (q[0] == Close(id) || (!Ends(q[0], id) && CloseIn(q[1..], id)))
  }

  ghost predicate NoDataAfterClose(q: seq<Msg>, id: Id) {
    forall k, l :: 0 <= k < l < |q| && q[k] == Close(id) ==> !(q[l].Data? && q[l].id == id)
  }

  lemma {:induction false} DataOfAppend(q: seq<Msg>, m: Msg, id: Id)
    ensures DataOf(q + [m], id) == DataOf(q, id) + if m.Data? && m.id == id then [m.chunk] else []
  {
    if q == [] {
      assert q + [m] == [m];
      assert [m][1..] == [];
    } else {
      DataOfAppend(q[1..], m, id);
      assert (q + [m])[1..] == q[1..] + [m];
    }
  }

  lemma {:induction false} DataBeforeWithin(q: seq<Msg>, id: Id)
    ensures DataBefore(q, id) <= DataOf(q, id)
  {
    if q != [] { DataBeforeWithin(q[1..], id); }
  }

  // A longer queue only adds.
  lemma {:induction false} DataAppend(q: seq<Msg>, more: seq<Msg>, id: Id)
    ensures DataOf(q, id) <= DataOf(q + more, id)
    ensures DataBefore(q, id) <= DataBefore(q + more, id)
    ensures AnswerIn(q, id) ==> AnswerIn(q + more, id)
  {
    if q == [] {
      assert q + more == more;
    } else {
      DataAppend(q[1..], more, id);
      assert (q + more)[1..] == q[1..] + more;
    }
  }

  lemma {:induction false} DataBeforeAppend(q: seq<Msg>, m: Msg, id: Id)
    ensures DataBefore(q + [m], id) <= DataBefore(q, id) + if m.Data? && m.id == id then [m.chunk] else []
    ensures !(m.Data? && m.id == id) ==> DataBefore(q + [m], id) == DataBefore(q, id)
    ensures AnswerIn(q + [m], id) ==> AnswerIn(q, id) || m == OpenResult(id, true)
  {
    if q == [] {
      assert q + [m] == [m];
      assert [m][1..] == [];
    } else {
      DataBeforeAppend(q[1..], m, id);
      assert (q + [m])[1..] == q[1..] + [m];
    }
  }

  lemma {:induction false} CloseInside(q: seq<Msg>, id: Id)
    requires CloseIn(q, id)
    ensures Close(id) in q
  {
    if q[0] != Close(id) { CloseInside(q[1..], id); }
  }

  // Nothing behind a ProxyClose matters.
  lemma {:induction false} CloseFirst(q: seq<Msg>, more: seq<Msg>, id: Id)
    requires CloseIn(q, id)
    ensures CloseIn(q + more, id) && DataBefore(q + more, id) == DataBefore(q, id)
  {
    assert (q + more)[1..] == q[1..] + more;
    if q[0] != Close(id) { CloseFirst(q[1..], more, id); }
  }

  lemma {:induction false} CloseInAppend(q: seq<Msg>, m: Msg, id: Id)
    ensures CloseIn(q + [m], id) ==> CloseIn(q, id) || (m == Close(id) && DataBefore(q, id) == DataOf(q, id))
  {
    if q == [] {
      assert q + [m] == [m];
    } else {
      CloseInAppend(q[1..], m, id);
      assert (q + [m])[1..] == q[1..] + [m];
    }
  }

  lemma {:induction false} DataOfNone(q: seq<Msg>, id: Id)
    requires forall k :: 0 <= k < |q| ==> !(q[k].Data? && q[k].id == id)
    ensures DataOf(q, id) == []
  {
    if q != [] { DataOfNone(q[1..], id); }
  }

  lemma {:induction false} BytesConcat(a: seq<Chunk>, b: seq<Chunk>)
    ensures Bytes(a + b) == Bytes(a) + Bytes(b)
  {
    if b == [] {
      assert a + b == a;
    } else {
      BytesConcat(a, b[..|b| - 1]);
      assert (a + b)[..|a + b| - 1] == a + b[..|b| - 1];
    }
  }

  // ---- sources ----

  datatype SourcePc = SrcNotStarted | SrcReading | SrcSending(chunk: Chunk) | SrcEnded

  // read and sent are the chunks returned by Read and the chunks whose message was accepted.
  datatype Source = Source(pc: SourcePc, read: seq<Chunk>, sent: seq<Chunk>)

  const NEW_SOURCE := Source(SrcNotStarted, [], [])

  function SrcRead(s: Source, c: Chunk): Source { Source(SrcSending(c), s.read + [c], s.sent) }

  function SrcSend(s: Source, ok: bool): Source
    requires s.pc.SrcSending?
  {
    if ok then Source(SrcReading, s.read, s.sent + [s.pc.chunk]) else s.(pc := SrcEnded)
  }

  ghost predicate SourceInv(s: Source) {
    && s.sent <= s.read
    && (s.pc.SrcNotStarted? ==> s.read == [])
    && (s.pc.SrcReading? ==> s.sent == s.read)
    && (s.pc.SrcSending? ==> s.sent + [s.pc.chunk] == s.read)
    && (forall k :: 0 <= k < |s.read| ==> 0 < |s.read[k]| <= CHUNK_SIZE)
  }

  // ---- outlets ----

  datatype OutletPc =
    | OutNotStarted | OutSelecting | OutDraining
    | OutWriting(chunk: Chunk, draining: bool)
    | OutEnded(clean: bool)

  // accepted are the chunks put on the queue, written those handed to the connection in full, and part
  // what a failed last write still got through.
  datatype Outlet = Outlet(pc: OutletPc, accepted: seq<Chunk>, written: seq<Chunk>, part: Chunk)

  const NEW_OUTLET := Outlet(OutNotStarted, [], [], [])

  function OutTake(o: Outlet, c: Chunk): Outlet { o.(pc := OutWriting(c, o.pc.OutDraining?)) }

  function OutWrote(o: Outlet): Outlet
    requires o.pc.OutWriting?
  {
    o.(pc := if o.pc.draining then OutDraining else OutSelecting, written := o.written + [o.pc.chunk])
  }

  function OutFailed(o: Outlet, n: nat): Outlet
    requires o.pc.OutWriting? && n <= |o.pc.chunk|
  {
    o.(pc := OutEnded(false), part := o.pc.chunk[..n])
  }

  function Held(o: Outlet): seq<Chunk> { if o.pc.OutWriting? then [o.pc.chunk] else [] }

  // The bytes the connection has received.
  function Delivered(o: Outlet): Chunk { Bytes(o.written) + o.part }

  ghost predicate OutletInv(o: Outlet, queue: seq<Chunk>) {
    && (!o.pc.OutEnded? ==> o.accepted == o.written + Held(o) + queue && o.part == [])
    && (o.pc.OutNotStarted? ==> o.written == [])
    && o.written <= o.accepted
    && (o.part != [] ==> |o.written| < |o.accepted| && o.part <= o.accepted[|o.written|])
    && (o.pc == OutEnded(true) ==> o.accepted == o.written + queue && o.part == [])
    && (o.pc == OutEnded(false) ==> |o.accepted| == |o.written| + 1 + |queue|)
  }

  // The steps of a write loop keep the invariant.
  lemma OutletTakes(o: Outlet, queue: seq<Chunk>)
    requires OutletInv(o, queue) && (o.pc.OutSelecting? || o.pc.OutDraining?) && queue != []
    ensures OutletInv(OutTake(o, queue[0]), queue[1..])
  {
    assert queue == [queue[0]] + queue[1..];
    assert o.accepted == o.written + [queue[0]] + queue[1..];
  }

  lemma OutletWrites(o: Outlet, queue: seq<Chunk>, n: nat)
    requires OutletInv(o, queue) && o.pc.OutWriting? && n <= |o.pc.chunk|
    ensures OutletInv(OutWrote(o), queue) && OutletInv(OutFailed(o, n), queue)
  {
    assert o.accepted == o.written + [o.pc.chunk] + queue;
  }

  lemma OutletMoves(o: Outlet, queue: seq<Chunk>)
    requires OutletInv(o, queue)
    ensures o.pc.OutNotStarted? || o.pc.OutSelecting? ==>
      OutletInv(o.(pc := OutSelecting), queue) && OutletInv(o.(pc := OutDraining), queue)
    ensures o.pc.OutSelecting? || o.pc.OutDraining? ==> OutletInv(o.(pc := OutEnded(true)), queue)
  {
  }

  // Whatever is delivered is a prefix of what was accepted.
  lemma DeliveredPrefix(o: Outlet, queue: seq<Chunk>)
    requires OutletInv(o, queue)
    ensures Delivered(o) <= Bytes(o.accepted)
  {
    var n := |o.written|;
    if n < |o.accepted| {
      var rest := o.accepted[n + 1..];
      assert o.accepted == o.written + [o.accepted[n]] + rest;
      BytesConcat(o.written + [o.accepted[n]], rest);
      BytesConcat(o.written, [o.accepted[n]]);
      assert Bytes([o.accepted[n]]) == o.accepted[n] by { assert [o.accepted[n]][..0] == []; }
    } else {
      assert o.written == o.accepted;
    }
  }

  lemma BytesPrefix(a: seq<Chunk>, b: seq<Chunk>)
    requires a <= b
    ensures Bytes(a) <= Bytes(b)
  {
    assert b == a + b[|a|..];
    BytesConcat(a, b[|a|..]);
  }
}
