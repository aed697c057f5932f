// shared/wsutil/conn.go: a WebSocket as a byte stream. One end's Write sends one message; the other end's
// Read hands out the payloads of the messages that arrived, in order, in pieces of the library's choosing.
// The library's write errors are final: after one, every later write fails.
module Stream {
  import opened Options
  import opened Wire

  datatype ReadResult = ReadResult(data: Chunk, error: bool)

  // Everything that will still be read, if nothing breaks.
  function Unread(reader: Option<Chunk>, incoming: seq<Chunk>): Chunk {
    (if reader.Some? then reader.value else []) + Bytes(incoming)
  }

  lemma UnreadNext(incoming: seq<Chunk>)
    requires incoming != []
    ensures Unread(Some(incoming[0]), incoming[1..]) == Unread(None, incoming)
  {
    assert incoming == [incoming[0]] + incoming[1..];
    BytesConcat([incoming[0]], incoming[1..]);
    assert [incoming[0]][..0] == [];
    assert Bytes([incoming[0]]) == incoming[0];
  }

  lemma UnreadPart(data: Chunk, rest: Chunk, incoming: seq<Chunk>)
    ensures Unread(Some(data + rest), incoming) == data + Unread(Some(rest), incoming)
    ensures Unread(Some([]), incoming) == Unread(None, incoming)
    ensures Unread(None, []) == []
  {
    hide Bytes;
    assert data + rest + Bytes(incoming) == data + (rest + Bytes(incoming));
    assert [] + Bytes(incoming) == Bytes(incoming);
    assert Bytes([]) == [] by { NoBytes(); }
  }

  lemma NoBytes()
    ensures Bytes([]) == []
  {
  }

  class Conn {
    var outgoing: seq<Chunk>    // messages sent
    var stuck: bool             // a write has failed
    var torn: Chunk             // what that write still put on the wire of its message
    var incoming: seq<Chunk>    // messages that arrive before the connection ends
    var reader: Option<Chunk>   // what is left of the current message
    var broken: bool            // the library has reported an error on the current message

    constructor (incoming: seq<Chunk>)
      ensures outgoing == [] && !stuck && torn == [] && this.incoming == incoming && reader == None && !broken
    {
      outgoing, stuck, torn, this.incoming, reader, broken := [], false, [], incoming, None, false;
    }

    // Everything put on the wire, in whole messages and, last, in a torn one.
    ghost function OnWire(): Chunk
      reads this
    {
      Bytes(outgoing) + torn
    }

    ghost function Pending(): Chunk
      reads this
    {
      Unread(reader, incoming)
    }

    // The library's reader of one message: at least one byte or the end of the message, which may come
    // together with the last bytes; or an error, possibly after some bytes.
    method ReadMessage(n: nat) returns (data: Chunk, eof: bool, error: bool)
      requires n > 0 && reader.Some?
      modifies this`reader, this`broken
      ensures reader.Some? && old(reader.value) == data + reader.value && |data| <= n
      ensures eof ==> reader.value == [] && !error
      ensures !eof && !error ==> |data| > 0
      ensures broken == (old(broken) || error)
    {
      var left := reader.value;
      var k: int := *;
      if k < 0 { k := 0; }
      if k > n { k := n; }
      if k > |left| { k := |left|; }
      error := *;
      eof := false;
      if !error {
        if |left| == 0 { eof := true; }
        else {
          if k == 0 { k := 1; }
          if k == |left| { eof := *; }
        }
      }
      data := left[..k];
      reader := Some(left[k..]);
      broken := broken || error;
    }

    // Read returns the next bytes of the stream. It never reports the end of a message, empty or not: it
    // fails only once nothing is left of any message, or when the library does.
    method Read(n: nat) returns (r: ReadResult)
      requires n > 0
      modifies this`incoming, this`reader, this`broken
      ensures old(Pending()) == r.data + Pending() && |r.data| <= n
      ensures !r.error ==> |r.data| > 0
      ensures r.error && !broken ==> r.data == [] && old(Pending()) == []
      ensures r.error ==> old(broken) || broken || (reader == None && incoming == [])
      ensures old(broken) ==> broken
      ensures broken && !old(broken) ==> r.error
    {
      hide Unread, Bytes;
      while true
        invariant Pending() == old(Pending()) && broken == old(broken)
        decreases |incoming|, reader.Some?
      {
        if reader == None {
          UnreadPart([], [], incoming);
          if incoming == [] { return ReadResult([], true); }
          UnreadNext(incoming);
          reader, incoming := Some(incoming[0]), incoming[1..];
        }
        var data, eof, error := ReadMessage(n);
        UnreadPart(data, reader.value, incoming);
        if eof {
          reader := None;
          if |data| > 0 { return ReadResult(data, false); }
          continue;
        }
        return ReadResult(data, error);
      }
    }

    // Write sends one message. The first one that fails may leave the beginning of its message on the wire,
    // of any length; after that nothing more goes out.
    method Write(p: Chunk, works: bool) returns (ok: bool)
      requires !stuck ==> torn == []
      modifies this`outgoing, this`stuck, this`torn
      ensures ok <==> works && !old(stuck)
      ensures stuck == !ok && outgoing == if ok then old(outgoing) + [p] else old(outgoing)
      ensures if ok then OnWire() == old(OnWire()) + p && torn == []
              else old(OnWire()) <= OnWire() <= old(OnWire()) + p && torn <= if old(stuck) then old(torn) else p
      ensures old(stuck) ==> OnWire() == old(OnWire())
    {
      if stuck { return false; }
      if !works {
        var k: int := *;
        torn := if 0 <= k <= |p| then p[..k] else [];
        stuck := true;
        return false;
      }
      assert (outgoing + [p])[..|outgoing|] == outgoing;
      outgoing := outgoing + [p];
      return true;
    }
  }

  // A byte pump over the adapter, as io.Copy runs it: read with any buffers until one read fails.
  // Whatever the buffers and however the library cuts the messages, what was read and what is left make
  // up exactly what was written; and if nothing broke and the pump stopped early, everything was read.
  method Pump(conn: Conn, buffers: seq<nat>) returns (chunks: seq<Chunk>, failed: bool)
    requires conn.reader == None && !conn.broken
    requires forall i :: 0 <= i < |buffers| ==> buffers[i] > 0
    modifies conn
    ensures Bytes(old(conn.incoming)) == Bytes(chunks) + conn.Pending()
    ensures failed && !conn.broken ==> Bytes(chunks) == Bytes(old(conn.incoming))
    ensures !failed ==> |chunks| == |buffers| && !conn.broken && forall i :: 0 <= i < |chunks| ==> chunks[i] != []
  {
    chunks, failed := [], false;
    var i := 0;
    while i < |buffers| && !failed
      invariant 0 <= i <= |buffers|
      invariant Bytes(old(conn.incoming)) == Bytes(chunks) + conn.Pending()
      invariant failed && !conn.broken ==> conn.Pending() == []
      invariant !failed ==> |chunks| == i && !conn.broken && forall j :: 0 <= j < |chunks| ==> chunks[j] != []
      decreases |buffers| - i, !failed
    {
      var before := chunks;
      var r := conn.Read(buffers[i]);
      assert (chunks + [r.data])[..|chunks|] == chunks;
      chunks := chunks + [r.data];
      failed := r.error;
      i := i + 1;
    }
  }

  // All the writes of one end, of which any may fail.
  method WriteAll(conn: Conn, writes: seq<Chunk>, works: seq<bool>)
    requires |works| == |writes| && !conn.stuck && conn.torn == [] && conn.outgoing == []
    modifies conn
    ensures conn.OnWire() <= Bytes(writes)
    ensures (forall i :: 0 <= i < |works| ==> works[i]) ==> conn.OnWire() == Bytes(writes)
  {
    for i := 0 to |writes|
      invariant conn.OnWire() <= Bytes(writes[..i]) && (!conn.stuck ==> conn.torn == [])
      invariant conn.stuck ==> exists j :: 0 <= j < i && !works[j]
      invariant !conn.stuck ==> conn.OnWire() == Bytes(writes[..i])
    {
      assert writes[..i + 1] == writes[..i] + [writes[i]];
      assert writes[..i + 1][..i] == writes[..i];
      var _ := conn.Write(writes[i], works[i]);
    }
    assert writes[..|writes|] == writes;
  }

  // Both ends together: what one end's writes put on the wire is what the other end reads, so the reads give
  // a prefix of the writes, whatever empty messages are among them and wherever a write fails. A torn message
  // is one more message for the reader, which may report it as broken.
  method RoundTrip(writes: seq<Chunk>, works: seq<bool>, buffers: seq<nat>)
    returns (chunks: seq<Chunk>, failed: bool, broke: bool)
    requires |works| == |writes| && forall i :: 0 <= i < |buffers| ==> buffers[i] > 0
    ensures Bytes(chunks) <= Bytes(writes)
    ensures (forall i :: 0 <= i < |works| ==> works[i]) && failed && !broke ==> Bytes(chunks) == Bytes(writes)
    ensures (forall i :: 0 <= i < |works| ==> works[i]) && !failed && |buffers| >= |Bytes(writes)| ==>
              Bytes(chunks) == Bytes(writes)
  {
    var a := new Conn([]);
    assert a.OnWire() == [];
    WriteAll(a, writes, works);
    var b := new Conn(a.outgoing + [a.torn]);
    assert (a.outgoing + [a.torn])[..|a.outgoing|] == a.outgoing;
    chunks, failed := Pump(b, buffers);
    broke := b.broken;
    if !failed { NonEmptyBytes(chunks); }
  }

  lemma {:induction false} NonEmptyBytes(cs: seq<Chunk>)
    requires forall i :: 0 <= i < |cs| ==> cs[i] != []
    ensures |Bytes(cs)| >= |cs|
  {
    if cs != [] { NonEmptyBytes(cs[..|cs| - 1]); }
  }
}
