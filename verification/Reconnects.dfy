// The streams towards the clients, over every reconnect of the probe: as long as every reconnect was
// harmless, no client gets a hole.
module Reconnects {
  import opened Options
  import opened Wire
  import opened Relay
  import H = Host
  import A = Agent

  // ---- interleavings ----

  // Parts that have lost some of their ends still fit.
  lemma {:induction false} FitsCut(taken: Chunk, parts: seq<seq<Chunk>>, fewer: seq<seq<Chunk>>, read: Chunk)
    requires Fits(taken, parts, read) && |fewer| == |parts|
    requires forall e :: 0 <= e < |parts| ==> fewer[e] <= parts[e]
    ensures Fits(taken, fewer, read)
    decreases Total(parts)
  {
    forall e | 0 <= e < |fewer| && fewer[e] != []
      ensures Fits(taken + fewer[e][0], fewer[e := fewer[e][1..]], read)
    {
      TotalUpdate(parts, e, parts[e][1..]);
      FitsCut(taken + fewer[e][0], parts[e := parts[e][1..]], fewer[e := fewer[e][1..]], read);
    }
  }

  lemma {:induction false} FitsMore(taken: Chunk, parts: seq<seq<Chunk>>, read: Chunk, more: Chunk)
    requires Fits(taken, parts, read) && read <= more
    ensures Fits(taken, parts, more)
    decreases Total(parts)
  {
    forall e | 0 <= e < |parts| && parts[e] != []
      ensures Fits(taken + parts[e][0], parts[e := parts[e][1..]], more)
    {
      TotalUpdate(parts, e, parts[e][1..]);
      FitsMore(taken + parts[e][0], parts[e := parts[e][1..]], read, more);
    }
  }

  // With only one part left there is only one order.
  lemma {:induction false} FitsOne(taken: Chunk, parts: seq<seq<Chunk>>, i: nat, read: Chunk)
    requires i < |parts| && taken + Bytes(parts[i]) <= read
    requires forall e :: 0 <= e < |parts| && e != i ==> parts[e] == []
    ensures Fits(taken, parts, read)
    decreases |parts[i]|
  {
    assert taken <= taken + Bytes(parts[i]);
    if parts[i] != [] {
      FirstBytes(parts[i]);
      assert taken + Bytes(parts[i]) == taken + parts[i][0] + Bytes(parts[i][1..]);
      FitsOne(taken + parts[i][0], parts[i := parts[i][1..]], i, read);
    }
  }

  lemma {:induction false} FitsExtend(taken: Chunk, parts: seq<seq<Chunk>>, read: Chunk)
    requires Fits(taken, parts, read)
    ensures Fits(taken, parts + [[]], read)
    decreases Total(parts)
  {
    var longer := parts + [[]];
    forall e | 0 <= e < |longer| && longer[e] != []
      ensures Fits(taken + longer[e][0], longer[e := longer[e][1..]], read)
    {
      TotalUpdate(parts, e, parts[e][1..]);
      FitsExtend(taken + parts[e][0], parts[e := parts[e][1..]], read);
      assert longer[e := longer[e][1..]] == parts[e := parts[e][1..]] + [[]];
    }
  }

  lemma BytesOne(c: Chunk)
    ensures Bytes([c]) == c
  {
    assert [c][..0] == [];
  }

  lemma FirstBytes(cs: seq<Chunk>)
    requires cs != []
    ensures Bytes(cs) == cs[0] + Bytes(cs[1..])
  {
    assert cs == [cs[0]] + cs[1..];
    BytesConcat([cs[0]], cs[1..]);
    BytesOne(cs[0]);
  }

  // One part taken in full.
  lemma {:induction false} FitsPart(taken: Chunk, parts: seq<seq<Chunk>>, i: nat, read: Chunk)
    requires i < |parts| && Fits(taken, parts, read)
    ensures Fits(taken + Bytes(parts[i]), parts[i := []], read)
    decreases |parts[i]|
  {
    if parts[i] == [] {
      assert parts[i := []] == parts && taken + Bytes([]) == taken;
    } else {
      FirstBytes(parts[i]);
      var rest := parts[i := parts[i][1..]];
      FitsPart(taken + parts[i][0], rest, i, read);
      assert rest[i := []] == parts[i := []];
      assert taken + parts[i][0] + Bytes(parts[i][1..]) == taken + Bytes(parts[i]);
    }
  }

  lemma FitsTaken(taken: Chunk, parts: seq<seq<Chunk>>, read: Chunk)
    requires Fits(taken, parts, read)
    ensures taken <= read
  {
  }

  // Two parts fit only if their first chunks can be swapped.
  lemma FitsSwap(taken: Chunk, parts: seq<seq<Chunk>>, i: nat, j: nat, read: Chunk)
    requires i < |parts| && j < |parts| && i != j && parts[i] != [] && parts[j] != [] && Fits(taken, parts, read)
    ensures taken + parts[i][0] + parts[j][0] <= read
  {
    var rest := parts[i := parts[i][1..]];
    assert Fits(taken + parts[i][0], rest, read) && rest[j] == parts[j];
    FitsTaken(taken + parts[i][0] + rest[j][0], rest[j := rest[j][1..]], read);
  }

  // At most one part is not empty, and it continues what is taken within what was read.
  predicate Single(taken: Chunk, parts: seq<seq<Chunk>>, read: Chunk) {
    && taken <= read
    && forall i :: 0 <= i < |parts| && parts[i] != [] ==>
         taken + Bytes(parts[i]) <= read && forall j :: 0 <= j < |parts| && j != i ==> parts[j] == []
  }

  // Unless first chunks can be swapped, the parts fit exactly if there is at most one that is not empty.
  lemma FitsExactly(taken: Chunk, parts: seq<seq<Chunk>>, read: Chunk)
    requires forall i, j :: 0 <= i < j < |parts| && parts[i] != [] && parts[j] != [] ==>
               parts[i][0] + parts[j][0] != parts[j][0] + parts[i][0]
    ensures Fits(taken, parts, read) <==> Single(taken, parts, read)
  {
    if Fits(taken, parts, read) {
      forall i | 0 <= i < |parts| && parts[i] != []
        ensures taken + Bytes(parts[i]) <= read && forall j :: 0 <= j < |parts| && j != i ==> parts[j] == []
      {
        FitsPart(taken, parts, i, read);
        FitsTaken(taken + Bytes(parts[i]), parts[i := []], read);
        forall j | 0 <= j < |parts| && j != i ensures parts[j] == [] {
          if parts[j] != [] {
            FitsSwap(taken, parts, i, j, read);
            FitsSwap(taken, parts, j, i, read);
            SamePrefix(taken, parts[i][0], parts[j][0], read);
          }
        }
      }
    } else if Single(taken, parts, read) {
      OnlyPart(taken, parts, read);
    }
  }

  lemma SamePrefix(taken: Chunk, c: Chunk, d: Chunk, read: Chunk)
    requires taken + c + d <= read && taken + d + c <= read
    ensures c + d == d + c
  {
    var n := |taken|;
    assert c + d == read[n..n + |c| + |d|] && d + c == read[n..n + |c| + |d|];
  }

  lemma OnlyPart(taken: Chunk, parts: seq<seq<Chunk>>, read: Chunk)
    requires Single(taken, parts, read)
    ensures Fits(taken, parts, read)
  {
    if i: nat :| i < |parts| && parts[i] != [] { FitsOne(taken, parts, i, read); }
  }

  // ---- what holds of every tunnel ----

  function Taken(s: State, id: Id): Chunk
    requires id in s.host.tuns
  {
    Bytes(s.host.tuns[id].out.accepted)
  }

  // What the probe sent on the current connection and the host has not queued yet.
  function Coming(s: State, id: Id): seq<Chunk>
    requires s.lines != []
  {
    Holding(s, |s.lines| - 1, id) + DataOf(s.lines[|s.lines| - 1], id)
  }

  // What the client gets if everything on the current connection arrives.
  function Bound(s: State, id: Id): Chunk
    requires s.lines != [] && id in s.host.tuns
  {
    Taken(s, id) + Bytes(Coming(s, id))
  }

  // Nothing of the tunnel is missing or elsewhere: the host has, in order, what the probe sent for it, the
  // last of it on the current connection. While that is down, its end may be lost.
  ghost predicate Whole(s: State, t: A.Tab)
    requires s.lines != [] && t.id in s.host.tuns
  {
    && (forall e :: 0 <= e < |s.lines| - 1 ==> Left(s, e, t.id) == [])
    && (if s.up then Bound(s, t.id) == Bytes(t.src.sent) else Bound(s, t.id) <= Bytes(t.src.sent))
  }

  // Everything that can still come, the chunk the probe holds last on the current connection.
  function Onward(s: State, t: A.Tab): seq<seq<Chunk>>
    requires s.lines != [] && t.id in s.host.tuns
  {
    var n := |s.lines| - 1;
    if s.up then Rest(s, t.id)[n := Rest(s, t.id)[n] + A.Pending(t)] else Rest(s, t.id)
  }

  ghost predicate Sound(s: State, t: A.Tab)
    requires s.lines != [] && t.id in s.host.tuns
  {
    if s.host.tuns[t.id].finish.Live? then
      Whole(s, t) || (A.Still(t) && Fits(Taken(s, t.id), Onward(s, t), Bytes(t.src.read)))
    else
      Fits(Taken(s, t.id), Rest(s, t.id), Bytes(t.src.read))
  }

  ghost predicate DownLink(s: State, t: A.Tab)
    requires s.lines != [] && t.id in s.host.tuns
  {
    && (s.harmless && Answerable(s, t.id) ==> Sound(s, t))
    && (t.drop.InTable? && s.host.tuns[t.id].finish.Live? ==> Whole(s, t))
  }

  // A tunnel for which the probe has sent nothing has nothing on its way.
  ghost predicate Unsent(s: State, id: Id) {
    forall r :: 0 <= r < |s.agent.heap| && s.agent.heap[r].id == id ==> s.agent.heap[r].src.sent == []
  }

  ghost predicate Silent(s: State, id: Id) {
    && (forall e :: 0 <= e < |s.lines| ==> DataOf(s.lines[e], id) == [] && Holding(s, e, id) == [])
    && (id in s.host.tuns && Mine(s, id) ==> s.host.tuns[id].out.accepted == [])
  }

  ghost predicate DownInv(s: State) {
    && Inv(s) && (s.orderly ==> s.harmless && s.lossless)
    && (forall id :: Unsent(s, id) ==> Silent(s, id))
    && (forall r :: 0 <= r < |s.agent.heap| ==> s.agent.heap[r].id in s.host.tuns && DownLink(s, s.agent.heap[r]))
  }

  // ---- consequences ----

  lemma SentIsRead(a: A.Agent, r: A.Ref)
    requires A.Inv(a) && r < |a.heap|
    ensures a.heap[r].src.sent <= a.heap[r].src.read && Bytes(a.heap[r].src.sent) <= Bytes(a.heap[r].src.read)
    ensures a.heap[r].src.sent + A.Pending(a.heap[r]) <= a.heap[r].src.read
    ensures a.heap[r].src.pc.SrcSending? ==> 0 < |a.heap[r].src.pc.chunk| <= CHUNK_SIZE
  {
    assert A.TabInv(a, r);
    var src := a.heap[r].src;
    assert src.pc.SrcSending? ==> src.read[|src.read| - 1] == src.pc.chunk;
    BytesPrefix(src.sent, src.read);
  }

  // Either way of being sound bounds what the host may still queue.
  lemma SoundFits(s: State, t: A.Tab)
    requires s.lines != [] && t.id in s.host.tuns && Sound(s, t) && Bytes(t.src.sent) <= Bytes(t.src.read)
    ensures Fits(Taken(s, t.id), Rest(s, t.id), Bytes(t.src.read))
  {
    hide Fits, Bytes, DataOf, DataBefore;
    var n := |s.lines| - 1;
    var rest := Rest(s, t.id);
    if s.host.tuns[t.id].finish.Live? {
      if Whole(s, t) {
        DataBeforeWithin(s.lines[n], t.id);
        assert rest[n] <= Coming(s, t.id);
        BytesPrefix(rest[n], Coming(s, t.id));
        PrefixTrans(Taken(s, t.id) + Bytes(rest[n]), Taken(s, t.id) + Bytes(Coming(s, t.id)), Bytes(t.src.sent));
        FitsOne(Taken(s, t.id), rest, n, Bytes(t.src.read));
      } else {
        FitsCut(Taken(s, t.id), Onward(s, t), rest, Bytes(t.src.read));
      }
    }
  }

  lemma PrefixTrans(a: Chunk, b: Chunk, c: Chunk)
    requires a <= b <= c
    ensures a <= c
  {
  }

  lemma SomeLine(s: State)
    requires Inv(s)
    ensures s.lines != []
  {
    hide A.Inv, H.Inv, Opening, Established, Linked, Unopened, Sized;
  }

  // ---- the host's steps ----

  lemma TakenMore(cs: seq<Chunk>, c: Chunk)
    ensures Bytes(cs + [c]) == Bytes(cs) + c
  {
    assert (cs + [c])[..|cs + [c]| - 1] == cs;
  }

  // The chunk a host step queues for the client of tunnel id comes from one of the probe's connections.
  lemma QueuedFrom(s: State, h: H.Action, id: Id)
    requires Inv(s) && Can(s, HostStep(h)) && Mine(s, id) && H.QueuedNow(s.host, h, id) != []
    ensures h.DeliverOk? && h.conn == Conn(h.conn.number) && h.conn.number < |s.lines|
    ensures H.QueuedNow(s.host, h, id) == Holding(s, h.conn.number, id) && |Holding(s, h.conn.number, id)| == 1
  {
    hide A.Inv, H.Inv, Opening, Linked, Unopened, Sized, H.Step;
    H.StreamOwner(s.host, h, id);
  }

  lemma HostLeft(s: State, h: H.Action, id: Id, e: nat)
    requires Inv(s) && Can(s, HostStep(h)) && Mine(s, id) && e < |s.lines|
    ensures var s' := Step(s, HostStep(h)); var now := H.QueuedNow(s.host, h, id);
            && id in s'.host.tuns && s'.host.tuns[id].out.accepted == s.host.tuns[id].out.accepted + now
            && (s'.host.tuns[id].finish.Live? ==> s.host.tuns[id].finish.Live?)
            && (now == [] || h.conn != Conn(e) ==> Left(s', e, id) <= Left(s, e, id))
            && (now != [] && h.conn == Conn(e) ==>
                  Left(s, e, id) != [] && Left(s, e, id)[0] == now[0] && Left(s', e, id) <= Left(s, e, id)[1..])
            && (s'.host.tuns[id].finish.Live? ==> Left(s, e, id) == (if now != [] && h.conn == Conn(e) then now else []) + Left(s', e, id))
  {
    hide A.Inv, H.Inv, Opening, Established, Linked, Unopened, Sized, H.Step, H.OutputOf, Sends, DataBefore;
    H.StreamStep(s.host, h, id);
    H.StreamOwner(s.host, h, id);
    HostHandlers(s, h);
  }

  // One chunk has been taken from part q, or none; some ends may be lost.
  lemma FitsMoves(taken: Chunk, taken': Chunk, parts: seq<seq<Chunk>>, parts': seq<seq<Chunk>>, q: nat, now: seq<Chunk>, read: Chunk)
    requires Fits(taken, parts, read) && |parts'| == |parts| && |now| <= 1
    requires now == [] ==> taken' == taken && forall e :: 0 <= e < |parts| ==> parts'[e] <= parts[e]
    requires now != [] ==>
      && q < |parts| && parts[q] != [] && parts[q][0] == now[0] && taken' == taken + now[0] && parts'[q] <= parts[q][1..]
      && forall e :: 0 <= e < |parts| && e != q ==> parts'[e] <= parts[e]
    ensures Fits(taken', parts', read)
  {
    FitsCut(taken', if now == [] then parts else parts[q := parts[q][1..]], parts', read);
  }

  lemma SomeQueued(h: H.Host, act: H.Action, id: Id)
    requires H.Can(h, act)
    ensures |H.QueuedNow(h, act, id)| <= 1
  {
  }

  lemma HostTaken(s: State, h: H.Action, id: Id)
    requires Inv(s) && Can(s, HostStep(h)) && Mine(s, id)
    ensures var s' := Step(s, HostStep(h)); var now := H.QueuedNow(s.host, h, id);
            && |now| <= 1 && id in s'.host.tuns
            && Taken(s', id) == if now == [] then Taken(s, id) else Taken(s, id) + now[0]
  {
    hide A.Inv, H.Inv, Opening, Established, Linked, Unopened, Sized, H.Step, H.OutputOf, Sends;
    H.StreamStep(s.host, h, id);
    var now, had := H.QueuedNow(s.host, h, id), s.host.tuns[id].out.accepted;
    SomeQueued(s.host, h, id);
    if now != [] {
      TakenMore(had, now[0]);
      assert now == [now[0]];
    } else {
      assert had + now == had;
    }
  }

  // From s to s' at most one chunk of the tunnel has been queued, the first of part q; ends may be lost.
  ghost predicate Moved(s: State, s': State, id: Id, q: nat, now: seq<Chunk>)
    requires id in s.host.tuns && id in s'.host.tuns
  {
    && |s'.lines| == |s.lines| && s'.up == s.up && |now| <= 1 && (now != [] ==> q < |s.lines|)
    && Taken(s', id) == (if now == [] then Taken(s, id) else Taken(s, id) + now[0])
    && (forall e :: 0 <= e < |s.lines| && (now == [] || e != q) ==> Left(s', e, id) <= Left(s, e, id))
    && (now != [] ==> Left(s, q, id) != [] && Left(s, q, id)[0] == now[0] && Left(s', q, id) <= Left(s, q, id)[1..])
  }

  // And while the tunnel is in the table, none are.
  ghost predicate MovedLive(s: State, s': State, id: Id, q: nat, now: seq<Chunk>)
    requires id in s.host.tuns && id in s'.host.tuns
  {
    && Moved(s, s', id, q, now)
    && forall e :: 0 <= e < |s.lines| ==> Left(s, e, id) == (if now != [] && e == q then now else []) + Left(s', e, id)
  }

  lemma HostMoved(s: State, h: H.Action, id: Id) returns (q: nat, now: seq<Chunk>)
    requires Inv(s) && Can(s, HostStep(h)) && Mine(s, id)
    ensures now == H.QueuedNow(s.host, h, id) && (now != [] ==> h.conn == Conn(q))
    ensures var s' := Step(s, HostStep(h));
            && id in s'.host.tuns && Moved(s, s', id, q, now)
            && (s'.host.tuns[id].finish.Live? ==> s.host.tuns[id].finish.Live? && MovedLive(s, s', id, q, now))
  {
    now := H.QueuedNow(s.host, h, id);
    HostTaken(s, h, id);
    q := 0;
    if now != [] {
      QueuedFrom(s, h, id);
      q := h.conn.number;
    }
    SameLines(s, h);
    OneLeft(s, h, id, 0);
    var s' := Step(s, HostStep(h));
    hide *;
    forall e | 0 <= e < |s.lines| ensures OneMoved(s, s', id, e, q, now) { OneLeft(s, h, id, e); }
    AllMoved(s, s', id, q, now);
  }

  lemma AllMoved(s: State, s': State, id: Id, q: nat, now: seq<Chunk>)
    requires id in s.host.tuns && id in s'.host.tuns && |s'.lines| == |s.lines| && s'.up == s.up
    requires |now| <= 1 && (now != [] ==> q < |s.lines|)
    requires Taken(s', id) == if now == [] then Taken(s, id) else Taken(s, id) + now[0]
    requires forall e :: 0 <= e < |s.lines| ==> OneMoved(s, s', id, e, q, now)
    ensures Moved(s, s', id, q, now) && (s'.host.tuns[id].finish.Live? ==> MovedLive(s, s', id, q, now))
  {
    hide Left, Taken;
    assert now != [] ==> OneMoved(s, s', id, q, q, now);
    forall e | 0 <= e < |s.lines|
      ensures now == [] || e != q ==> Left(s', e, id) <= Left(s, e, id)
      ensures s'.host.tuns[id].finish.Live? ==> Left(s, e, id) == (if now != [] && e == q then now else []) + Left(s', e, id)
    {
      assert OneMoved(s, s', id, e, q, now);
    }
  }

  ghost predicate OneMoved(s: State, s': State, id: Id, e: nat, q: nat, now: seq<Chunk>)
    requires id in s.host.tuns && id in s'.host.tuns && e < |s.lines| && e < |s'.lines|
  {
    && (now == [] || e != q ==> Left(s', e, id) <= Left(s, e, id))
    && (now != [] && e == q ==> Left(s, e, id) != [] && Left(s, e, id)[0] == now[0] && Left(s', e, id) <= Left(s, e, id)[1..])
    && (s'.host.tuns[id].finish.Live? ==> Left(s, e, id) == (if now != [] && e == q then now else []) + Left(s', e, id))
  }

  lemma OneLeft(s: State, h: H.Action, id: Id, e: nat)
    requires Inv(s) && Can(s, HostStep(h)) && Mine(s, id) && e < |s.lines|
    ensures var s' := Step(s, HostStep(h)); var now := H.QueuedNow(s.host, h, id);
            && id in s'.host.tuns && |s'.lines| == |s.lines|
            && (s'.host.tuns[id].finish.Live? ==> s.host.tuns[id].finish.Live?)
            && (now != [] ==> h.conn == Conn(h.conn.number))
            && OneMoved(s, s', id, e, if now != [] then h.conn.number else 0, now)
  {
    HostLeft(s, h, id, e);
    SameLines(s, h);
    if H.QueuedNow(s.host, h, id) != [] { QueuedFrom(s, h, id); }
    hide Step, Can, Inv, Left, Holding, H.QueuedNow;
  }

  lemma MovedFits(s: State, s': State, t: A.Tab, q: nat, now: seq<Chunk>)
    requires t.id in s.host.tuns && t.id in s'.host.tuns && Moved(s, s', t.id, q, now)
    requires Fits(Taken(s, t.id), Rest(s, t.id), Bytes(t.src.read))
    ensures Fits(Taken(s', t.id), Rest(s', t.id), Bytes(t.src.read))
  {
    hide Left, Taken, Fits, Bytes;
    FitsMoves(Taken(s, t.id), Taken(s', t.id), Rest(s, t.id), Rest(s', t.id), q, now, Bytes(t.src.read));
  }

  lemma MovedOn(s: State, s': State, t: A.Tab, q: nat, now: seq<Chunk>)
    requires s.lines != [] && t.id in s.host.tuns && t.id in s'.host.tuns && MovedLive(s, s', t.id, q, now)
    requires Fits(Taken(s, t.id), Onward(s, t), Bytes(t.src.read))
    ensures Fits(Taken(s', t.id), Onward(s', t), Bytes(t.src.read))
  {
    hide Left, Taken, Fits, Bytes, A.Pending;
    var parts, parts' := Onward(s, t), Onward(s', t);
    forall e | 0 <= e < |parts| ensures parts[e] == (if now != [] && e == q then now else []) + parts'[e] {
      assert Left(s, e, t.id) == (if now != [] && e == q then now else []) + Left(s', e, t.id);
    }
    FitsMoves(Taken(s, t.id), Taken(s', t.id), parts, parts', q, now, Bytes(t.src.read));
  }

  lemma SameLines(s: State, h: H.Action)
    requires Can(s, HostStep(h))
    ensures var s' := Step(s, HostStep(h)); s'.lines == s.lines && s'.up == s.up && s'.agent == s.agent
    ensures SameFlags(s, Step(s, HostStep(h)))
  {
    hide H.Step, H.OutputOf;
  }

  lemma HostWhole(s: State, h: H.Action, t: A.Tab)
    requires Inv(s) && Can(s, HostStep(h)) && Mine(s, t.id) && Whole(s, t)
    requires t.id in Step(s, HostStep(h)).host.tuns && Step(s, HostStep(h)).host.tuns[t.id].finish.Live?
    ensures Whole(Step(s, HostStep(h)), t) && Bound(Step(s, HostStep(h)), t.id) == Bound(s, t.id)
  {
    var s' := Step(s, HostStep(h));
    var q, now := HostMoved(s, h, t.id);
    HostComing(s, h, t.id);
    assert s.lines != [];
    hide *;
    WholeMoves(s, s', t, q, now);
  }

  lemma WholeMoves(s: State, s': State, t: A.Tab, q: nat, now: seq<Chunk>)
    requires s.lines != [] && t.id in s.host.tuns && t.id in s'.host.tuns && MovedLive(s, s', t.id, q, now) && Whole(s, t)
    requires Coming(s, t.id) == (if now != [] && q == |s.lines| - 1 then now else []) + Coming(s', t.id)
    ensures Whole(s', t) && Bound(s', t.id) == Bound(s, t.id)
  {
    hide Left, Bytes, Taken, Coming;
    if now != [] {
      assert q == |s.lines| - 1;
      FirstBytes(Coming(s, t.id));
      assert Coming(s', t.id) == Coming(s, t.id)[1..];
      assert Taken(s', t.id) + Bytes(Coming(s', t.id)) == Taken(s, t.id) + Bytes(Coming(s, t.id));
    } else {
      assert Coming(s', t.id) == Coming(s, t.id);
    }
  }

  lemma HostComing(s: State, h: H.Action, id: Id)
    requires Inv(s) && Can(s, HostStep(h)) && Mine(s, id)
    requires id in Step(s, HostStep(h)).host.tuns && Step(s, HostStep(h)).host.tuns[id].finish.Live?
    ensures var now := H.QueuedNow(s.host, h, id); var n := |s.lines| - 1;
            Coming(s, id) == (if now != [] && h.conn.number == n then now else []) + Coming(Step(s, HostStep(h)), id)
  {
    hide A.Inv, H.Inv, Opening, Established, Linked, Unopened, Sized, H.Step, H.OutputOf, Sends, DataOf;
    H.StreamStep(s.host, h, id);
    H.StreamOwner(s.host, h, id);
    HostHandlers(s, h);
  }

  lemma HostAnswerable(s: State, h: H.Action, id: Id)
    requires Inv(s) && Can(s, HostStep(h)) && Mine(s, id) && !s.host.tuns[id].opener.OpSending?
    requires id in Step(s, HostStep(h)).host.tuns && Answerable(Step(s, HostStep(h)), id)
    ensures Answerable(s, id)
  {
    hide A.Inv, H.Inv, Opening, Linked, Unopened, Sized, H.Step, H.OutputOf, Sends, AnswerIn;
    var s' := Step(s, HostStep(h));
    H.ServingStep(s.host, h, id);
    H.StreamStep(s.host, h, id);
    H.StreamOwner(s.host, h, id);
    HostHandlers(s, h);
    if H.Serving(s'.host.tuns[id]) {
      if !H.Serving(s.host.tuns[id]) {
        assert h.conn == Conn(h.conn.number);
        assert Answers(s, h.conn.number, id);
      }
    } else {
      var e :| 0 <= e < |s'.lines| && Answers(s', e, id);
      assert Answers(s, e, id);
    }
  }

  lemma HostDown(s: State, h: H.Action, r: A.Ref)
    requires DownInv(s) && Can(s, HostStep(h)) && r < |s.agent.heap|
    ensures var s' := Step(s, HostStep(h)); s.agent.heap[r].id in s'.host.tuns && DownLink(s', s.agent.heap[r])
  {
    var t, s' := s.agent.heap[r], Step(s, HostStep(h));
    SameLines(s, h);
    SentIsRead(s.agent, r);
    OwnTab(s, r);
    HostLeft(s, h, t.id, 0);
    assert DownLink(s, t);
    if Answerable(s', t.id) { HostAnswerable(s, h, t.id); }
    var q, now := HostMoved(s, h, t.id);
    hide Step, Can, Inv, Whole, Fits, Taken, Rest, Onward, Answerable, Unsent, Silent, Moved;
    if s'.host.tuns[t.id].finish.Live? {
      if Whole(s, t) { HostWhole(s, h, t); }
      if Fits(Taken(s, t.id), Onward(s, t), Bytes(t.src.read)) { MovedOn(s, s', t, q, now); }
    } else if Sound(s, t) {
      SoundFits(s, t);
      MovedFits(s, s', t, q, now);
    }
  }

  lemma OwnTab(s: State, r: A.Ref)
    requires Inv(s) && r < |s.agent.heap|
    ensures Mine(s, s.agent.heap[r].id) && !s.host.tuns[s.agent.heap[r].id].opener.OpSending? && |s.lines| > 0
  {
    hide A.Inv, H.Inv, Established, Linked, Unopened, Sized;
  }

  // What neither end changes, the host's step leaves silent.
  lemma HostSilent(s: State, h: H.Action, id: Id)
    requires Inv(s) && Can(s, HostStep(h)) && Silent(s, id)
    ensures Silent(Step(s, HostStep(h)), id)
  {
    hide H.Step, H.Can, Inv, DataOf, H.QueuedNow;
    var s' := Step(s, HostStep(h));
    HostHandlers(s, h);
    SameLines(s, h);
    if id in s.host.tuns {
      H.StreamStep(s.host, h, id);
      if Mine(s, id) && H.QueuedNow(s.host, h, id) != [] { QueuedFrom(s, h, id); }
    } else if id in s'.host.tuns {
      NewEmpty(s, h, id);
    }
    forall e | 0 <= e < |s.lines| ensures Holding(s', e, id) == [] { assert Holding(s, e, id) == []; }
  }

  lemma NewEmpty(s: State, h: H.Action, id: Id)
    requires Can(s, HostStep(h)) && id !in s.host.tuns && id in Step(s, HostStep(h)).host.tuns
    ensures Step(s, HostStep(h)).host.tuns[id].out.accepted == []
  {
    hide H.LiveIn;
  }

  lemma HostDownKeeps(s: State, h: H.Action)
    requires DownInv(s) && Can(s, HostStep(h))
    ensures DownInv(Step(s, HostStep(h)))
  {
    hide Step, Can, Inv, DownLink, Silent;
    var s' := Step(s, HostStep(h));
    HostKeeps(s, h);
    SameLines(s, h);
    SomeLine(s');
    forall id | Unsent(s', id) ensures Silent(s', id) {
      assert Unsent(s, id);
      HostSilent(s, h, id);
    }
    hide Unsent;
    forall r | 0 <= r < |s'.agent.heap| ensures s'.agent.heap[r].id in s'.host.tuns && DownLink(s', s'.agent.heap[r]) {
      HostDown(s, h, r);
    }
  }

  // ---- messages taken by the host ----

  lemma TakenSame(s: State, e: nat, id: Id)
    requires Can(s, HostReceive(e)) && id in s.host.tuns
    ensures var s' := Step(s, HostReceive(e));
            && id in s'.host.tuns && Taken(s', id) == Taken(s, id) && |s'.lines| == |s.lines| && s'.up == s.up
            && s'.agent == s.agent && SameFlags(s, s')
            && (s'.host.tuns[id].finish.Live? ==> s.host.tuns[id].finish.Live?)
  {
    hide H.ReceiveStep;
    H.ReceiveIs(s.host, Conn(e), s.lines[e][0]);
  }

  // The handler of a connection takes up a chunk exactly while the tunnel is in the table.
  lemma NotedHolding(s: State, s': State, e: nat, m: Msg, id: Id, i: nat)
    requires id in s.host.tuns && s.host.tuns[id].agent == ME && Conn(e) !in s.host.handlers
    requires s'.host.handlers == H.Noted(s.host, Conn(e), m) && (m.Data? ==> 0 < |m.chunk| <= MAX_PAYLOAD)
    ensures i != e ==> Holding(s', i, id) == Holding(s, i, id)
    ensures Holding(s, e, id) == []
    ensures Holding(s', e, id) == if m.Data? && m.id == id && s.host.tuns[id].finish.Live? then [m.chunk] else []
  {
  }

  // What the host takes from a line, seen from tunnel id.
  ghost predicate TakenOff(s: State, s': State, e: nat, m: Msg, id: Id) {
    && e < |s.lines| && s.lines[e] != [] && m == s.lines[e][0] && s'.lines == s.lines[e := s.lines[e][1..]]
    && Conn(e) !in s.host.handlers && s'.host.handlers == H.Noted(s.host, Conn(e), m)
    && id in s.host.tuns && s.host.tuns[id].agent == ME && (m.Data? ==> 0 < |m.chunk| <= MAX_PAYLOAD)
    && id in s'.host.tuns && s'.host.tuns[id] == H.Told(s.host.tuns[id], ME, m, id)
  }

  lemma ReceiveTakes(s: State, e: nat, id: Id)
    requires Inv(s) && Can(s, HostReceive(e)) && Mine(s, id)
    ensures TakenOff(s, Step(s, HostReceive(e)), e, s.lines[e][0], id)
  {
    hide A.Inv, H.Inv, Opening, Established, Linked, Unopened, H.Noted, H.Told;
    H.ReceiveIs(s.host, Conn(e), s.lines[e][0]);
    FirstSized(s.lines[e]);
    hide H.ReceiveStep, Sized;
  }

  // A message that ends the tunnel also cuts what other lines still hold for it.
  lemma ReceiveLeft(s: State, s': State, e: nat, m: Msg, id: Id, i: nat)
    requires TakenOff(s, s', e, m, id) && i < |s.lines|
    ensures Left(s', i, id) <= Left(s, i, id)
    ensures s'.host.tuns[id].finish.Live? ==> Left(s', i, id) == Left(s, i, id)
  {
    hide H.Noted, Holding;
    NotedHolding(s, s', e, m, id, i);
  }

  lemma ReceiveComing(s: State, s': State, e: nat, m: Msg, id: Id)
    requires TakenOff(s, s', e, m, id) && s'.host.tuns[id].finish.Live?
    ensures Coming(s', id) == Coming(s, id)
  {
    hide H.Noted, Holding;
    NotedHolding(s, s', e, m, id, |s.lines| - 1);
  }

  lemma ReceiveAnswers(s: State, s': State, e: nat, m: Msg, id: Id, i: nat)
    requires TakenOff(s, s', e, m, id) && i < |s.lines| && Answers(s', i, id)
    ensures Answers(s, i, id)
  {
  }

  lemma ReceiveAnswerable(s: State, s': State, e: nat, m: Msg, id: Id)
    requires TakenOff(s, s', e, m, id) && Answerable(s', id)
    ensures Answerable(s, id)
  {
    if !H.Serving(s'.host.tuns[id]) {
      var i :| 0 <= i < |s'.lines| && Answers(s', i, id);
      ReceiveAnswers(s, s', e, m, id, i);
      hide TakenOff, Answers;
      assert Answers(s, i, id);
    }
  }

  lemma HostReceiveDown(s: State, e: nat, r: A.Ref)
    requires DownInv(s) && Can(s, HostReceive(e)) && r < |s.agent.heap|
    ensures var s' := Step(s, HostReceive(e)); s.agent.heap[r].id in s'.host.tuns && DownLink(s', s.agent.heap[r])
  {
    var t := s.agent.heap[r];
    SentIsRead(s.agent, r);
    OwnTab(s, r);
    TakenSame(s, e, t.id);
    ReceiveTakes(s, e, t.id);
    assert DownLink(s, t);
    hide *;
    TakenOffDown(s, Step(s, HostReceive(e)), e, s.lines[e][0], t);
  }

  lemma TakenOffDown(s: State, s': State, e: nat, m: Msg, t: A.Tab)
    requires TakenOff(s, s', e, m, t.id) && DownLink(s, t) && Bytes(t.src.sent) <= Bytes(t.src.read)
    requires |s'.lines| == |s.lines| && s'.up == s.up && SameFlags(s, s')
    requires Taken(s', t.id) == Taken(s, t.id)
    requires s'.host.tuns[t.id].finish.Live? ==> s.host.tuns[t.id].finish.Live?
    ensures DownLink(s', t)
  {
    hide Whole, Fits, Taken, Left, Answerable, Coming, Bytes;
    if Answerable(s', t.id) { ReceiveAnswerable(s, s', e, m, t.id); }
    forall i | 0 <= i < |s.lines|
      ensures Left(s', i, t.id) <= Left(s, i, t.id)
      ensures s'.host.tuns[t.id].finish.Live? ==> Left(s', i, t.id) == Left(s, i, t.id)
    {
      ReceiveLeft(s, s', e, m, t.id, i);
    }
    if s'.host.tuns[t.id].finish.Live? {
      ReceiveComing(s, s', e, m, t.id);
      WholeSame(s, s', t);
      assert Onward(s', t) == Onward(s, t);
    } else if Sound(s, t) {
      SoundFits(s, t);
      FitsCut(Taken(s, t.id), Rest(s, t.id), Rest(s', t.id), Bytes(t.src.read));
    }
  }

  lemma WholeSame(s: State, s': State, t: A.Tab)
    requires s.lines != [] && t.id in s.host.tuns && t.id in s'.host.tuns && |s'.lines| == |s.lines| && s'.up == s.up
    requires Taken(s', t.id) == Taken(s, t.id) && Coming(s', t.id) == Coming(s, t.id)
    requires forall e :: 0 <= e < |s.lines| ==> Left(s', e, t.id) == Left(s, e, t.id)
    ensures Whole(s, t) ==> Whole(s', t)
  {
    hide Taken, Coming, Left;
  }

  // No part of a line without data of tunnel id has any.
  lemma NoneInPart(q: seq<Msg>, n: nat, id: Id)
    requires DataOf(q, id) == [] && n <= |q|
    ensures DataOf(q[..n], id) == [] && DataOf([], id) == []
    ensures q != [] ==> DataOf(q[1..], id) == [] && !(q[0].Data? && q[0].id == id)
  {
    assert q == q[..n] + q[n..];
    DataAppend(q[..n], q[n..], id);
  }

  lemma HostReceiveSilent(s: State, e: nat, id: Id)
    requires Can(s, HostReceive(e)) && Silent(s, id)
    ensures Silent(Step(s, HostReceive(e)), id)
  {
    hide H.Step, H.Can, DataOf;
    HostReceiveTunnels(s, e);
    NoneInPart(s.lines[e], 0, id);
    var s' := Step(s, HostReceive(e));
    forall i | 0 <= i < |s.lines| ensures Holding(s', i, id) == [] { assert Holding(s, i, id) == []; }
  }

  lemma HostReceiveDownKeeps(s: State, e: nat)
    requires DownInv(s) && Can(s, HostReceive(e))
    ensures DownInv(Step(s, HostReceive(e)))
  {
    var s' := Step(s, HostReceive(e));
    HostReceiveKeeps(s, e);
    assert s'.agent == s.agent && SameFlags(s, s');
    hide Step, Can, Inv, DownLink, Silent;
    forall id | Unsent(s', id) ensures Silent(s', id) {
      assert Unsent(s, id);
      HostReceiveSilent(s, e, id);
    }
    hide Unsent;
    forall r | 0 <= r < |s'.agent.heap| ensures s'.agent.heap[r].id in s'.host.tuns && DownLink(s', s'.agent.heap[r]) {
      HostReceiveDown(s, e, r);
    }
  }

  // ---- the probe's steps ----

  // Tunnel t has become t', sending now, and message m has gone out.
  ghost predicate Grown(s: State, s': State, t: A.Tab, t': A.Tab, now: seq<Chunk>, m: Option<Msg>) {
    && s'.host == s.host && s'.up == s.up && SameFlags(s, s')
    && s.lines != [] && s'.lines == Wired(s, m)
    && t.id in s.host.tuns && t'.id == t.id && |now| <= 1
    && t'.src.sent == t.src.sent + now && t.src.read <= t'.src.read
    && (t'.drop.InTable? ==> t.drop.InTable?)
    && (A.Still(t) ==> A.Still(t') && t'.src.read == t.src.read && now + A.Pending(t') <= A.Pending(t))
    && (m.Some? && m.value.Data? && m.value.id == t.id ==> now == [m.value.chunk])
    && (now != [] ==> m == Some(Data(t.id, now[0])))
  }

  lemma PutData(q: seq<Msg>, m: Option<Msg>, id: Id, now: seq<Chunk>)
    requires m.Some? && m.value.Data? && m.value.id == id ==> now == [m.value.chunk]
    requires now != [] ==> m == Some(Data(id, now[0])) && |now| == 1
    ensures DataOf(Put(q, m), id) == DataOf(q, id) + now
    ensures DataBefore(Put(q, m), id) <= DataBefore(q, id) + now
    ensures now == [] ==> DataBefore(Put(q, m), id) == DataBefore(q, id)
  {
    hide DataOf, DataBefore;
    if m.Some? {
      DataOfAppend(q, m.value, id);
      DataBeforeAppend(q, m.value, id);
    }
  }

  lemma GrownOther(s: State, s': State, t: A.Tab, t': A.Tab, now: seq<Chunk>, m: Option<Msg>, e: nat)
    requires Grown(s, s', t, t', now, m) && e < |s.lines|
    ensures |s'.lines| == |s.lines| && Holding(s', e, t.id) == Holding(s, e, t.id)
    ensures e < |s.lines| - 1 || !s.up || !s.host.tuns[t.id].finish.Live? ==> Left(s', e, t.id) == Left(s, e, t.id)
  {
    hide A.Still, A.Pending, DataBefore, Put;
    assert Holding(s', e, t.id) == Holding(s, e, t.id);
    hide Holding;
  }

  lemma GrownLast(s: State, s': State, t: A.Tab, t': A.Tab, now: seq<Chunk>, m: Option<Msg>)
    requires Grown(s, s', t, t', now, m)
    ensures var n := |s.lines| - 1;
            && |s'.lines| == |s.lines|
            && (now == [] ==> Left(s', n, t.id) == Left(s, n, t.id))
            && Left(s', n, t.id) <= Left(s, n, t.id) + now
            && Coming(s', t.id) == Coming(s, t.id) + if s.up then now else []
  {
    hide A.Still, A.Pending, DataOf, DataBefore, Put, Holding;
    var n := |s.lines| - 1;
    var held, q, q' := Holding(s, n, t.id), s.lines[n], s'.lines[n];
    GrownOther(s, s', t, t', now, m, n);
    if s.up {
      PutData(q, m, t.id, now);
      assert q' == Put(q, m);
      Regroup(held, DataOf(q, t.id), now);
      Regroup(held, DataBefore(q, t.id), now);
    } else {
      assert q' == q && held + DataOf(q, t.id) + [] == held + DataOf(q, t.id);
    }
  }

  lemma GrownLeft(s: State, s': State, t: A.Tab, t': A.Tab, now: seq<Chunk>, m: Option<Msg>)
    requires Grown(s, s', t, t', now, m)
    ensures |s'.lines| == |s.lines| && Taken(s', t.id) == Taken(s, t.id)
    ensures forall e :: 0 <= e < |s.lines| - 1 ==> Left(s', e, t.id) == Left(s, e, t.id)
    ensures var n := |s.lines| - 1;
            && (now == [] ==> Left(s', n, t.id) == Left(s, n, t.id))
            && Left(s', n, t.id) <= Left(s, n, t.id) + now
            && Coming(s', t.id) == Coming(s, t.id) + if s.up then now else []
    ensures !s.up || !s.host.tuns[t.id].finish.Live? ==> Rest(s', t.id) == Rest(s, t.id)
  {
    hide A.Still, A.Pending, Left, Coming, Wired, Bytes;
    GrownLast(s, s', t, t', now, m);
    forall e | 0 <= e < |s.lines|
      ensures e < |s.lines| - 1 || !s.up || !s.host.tuns[t.id].finish.Live? ==> Left(s', e, t.id) == Left(s, e, t.id)
    {
      GrownOther(s, s', t, t', now, m, e);
    }
  }

  lemma GrownWhole(s: State, s': State, t: A.Tab, t': A.Tab, now: seq<Chunk>, m: Option<Msg>)
    requires Grown(s, s', t, t', now, m) && Whole(s, t)
    ensures Whole(s', t')
  {
    hide Left, Coming, Taken, Bytes, A.Still, A.Pending;
    GrownLeft(s, s', t, t', now, m);
    BytesConcat(Coming(s, t.id), now);
    BytesConcat(t.src.sent, now);
    assert Taken(s, t.id) + (Bytes(Coming(s, t.id)) + Bytes(now)) == Bound(s, t.id) + Bytes(now);
    if !s.up { assert Coming(s, t.id) + [] == Coming(s, t.id); }
  }

  lemma GrownFits(s: State, s': State, t: A.Tab, t': A.Tab, now: seq<Chunk>, m: Option<Msg>)
    requires Grown(s, s', t, t', now, m) && A.Still(t) && Fits(Taken(s, t.id), Onward(s, t), Bytes(t.src.read))
    ensures Fits(Taken(s', t'.id), Onward(s', t'), Bytes(t'.src.read))
  {
    hide Left, Coming, Taken, Bytes, A.Still, Fits;
    GrownLeft(s, s', t, t', now, m);
    if s.up { FitsCut(Taken(s, t.id), Onward(s, t), Onward(s', t'), Bytes(t.src.read)); }
  }

  lemma GrownSilent(s: State, s': State, t: A.Tab, t': A.Tab, now: seq<Chunk>, m: Option<Msg>)
    requires Grown(s, s', t, t', now, m) && Silent(s, t.id) && Mine(s, t.id) && t'.src.sent == []
    ensures Whole(s', t')
  {
    GrownLeft(s, s', t, t', now, m);
    assert now == [];
    forall e | 0 <= e < |s.lines| ensures Left(s, e, t.id) == [] { DataBeforeWithin(s.lines[e], t.id); }
    hide Left, DataOf, A.Still, A.Pending, Fits;
  }

  lemma GrownAnswers(s: State, s': State, t: A.Tab, t': A.Tab, now: seq<Chunk>, m: Option<Msg>)
    requires Grown(s, s', t, t', now, m) && Answerable(s', t.id)
    requires m != Some(OpenResult(t.id, true)) || !s.host.tuns[t.id].finish.Live?
    ensures Answerable(s, t.id)
  {
    hide A.Still, A.Pending;
    if !H.Serving(s'.host.tuns[t.id]) {
      var e :| 0 <= e < |s'.lines| && Answers(s', e, t.id);
      if m.Some? { DataBeforeAppend(s.lines[|s.lines| - 1], m.value, t.id); }
      hide AnswerIn;
      assert Answers(s, e, t.id);
    }
  }

  lemma GrownDown(s: State, s': State, t: A.Tab, t': A.Tab, now: seq<Chunk>, m: Option<Msg>)
    requires Grown(s, s', t, t', now, m) && DownLink(s, t) && Mine(s, t.id)
    requires m == Some(OpenResult(t.id, true)) ==> Silent(s, t.id) && t'.src.sent == []
    ensures DownLink(s', t')
  {
    hide Whole, Answerable, Silent, Taken, Rest, Onward, Fits, Bytes, A.Pending;
    if m == Some(OpenResult(t.id, true)) && s.host.tuns[t.id].finish.Live? {
      GrownSilent(s, s', t, t', now, m);
    } else if Answerable(s', t.id) {
      GrownAnswers(s, s', t, t', now, m);
    }
    if Whole(s, t) { GrownWhole(s, s', t, t', now, m); }
    if A.Still(t) && Fits(Taken(s, t.id), Onward(s, t), Bytes(t.src.read)) { GrownFits(s, s', t, t', now, m); }
    if !s.host.tuns[t.id].finish.Live? && Fits(Taken(s, t.id), Rest(s, t.id), Bytes(t.src.read)) {
      GrownLeft(s, s', t, t', now, m);
      BytesPrefix(t.src.read, t'.src.read);
      FitsMore(Taken(s, t.id), Rest(s, t.id), Bytes(t.src.read), Bytes(t'.src.read));
    }
  }

  lemma AgentGrows(s: State, a: A.Action, r: A.Ref)
    requires Inv(s) && Can(s, AgentStep(a)) && r < |s.agent.heap|
    ensures var s' := Step(s, AgentStep(a));
            && r < |s'.agent.heap|
            && Grown(s, s', s.agent.heap[r], s'.agent.heap[r], A.SentNow(s.agent, a, r), A.Step(s.agent, a).1)
  {
    hide A.Step, A.Inv, A.Can, A.Shape, A.Still, A.Pending, H.Inv, Established, Linked, Unopened, Sized, Wired;
    OwnTab(s, r);
    A.StreamStep(s.agent, a, r);
    A.StillStep(s.agent, a, r);
    A.StreamOutput(s.agent, a);
  }

  // Nothing of a tunnel can be on its way when its good dial result goes out.
  lemma AgentAnswers(s: State, a: A.Action, r: A.Ref)
    requires DownInv(s) && Can(s, AgentStep(a)) && r < |s.agent.heap|
    requires A.Step(s.agent, a).1 == Some(OpenResult(s.agent.heap[r].id, true))
    ensures r < |Step(s, AgentStep(a)).agent.heap|
    ensures Silent(s, s.agent.heap[r].id) && Step(s, AgentStep(a)).agent.heap[r].src.sent == []
  {
    hide A.Step, A.Inv, A.Can, A.Shape, H.Inv, Established, Linked, Unopened, Sized, Wired, Silent, DownLink;
    A.AnswerFirst(s.agent, a, s.agent.heap[r].id);
    A.StreamStep(s.agent, a, r);
    assert a.r == r && Unsent(s, s.agent.heap[r].id);
  }

  lemma AgentDown(s: State, a: A.Action, r: A.Ref)
    requires DownInv(s) && Can(s, AgentStep(a)) && r < |s.agent.heap|
    ensures var s' := Step(s, AgentStep(a));
            r < |s'.agent.heap| && s'.agent.heap[r].id in s'.host.tuns && DownLink(s', s'.agent.heap[r])
  {
    hide Inv, Step, A.Step, A.Can, A.Shape, A.Still, A.Pending, A.SentNow, DownLink, Unsent, Silent, Wired;
    AgentGrows(s, a, r);
    OwnTab(s, r);
    if A.Step(s.agent, a).1 == Some(OpenResult(s.agent.heap[r].id, true)) { AgentAnswers(s, a, r); }
    var s' := Step(s, AgentStep(a));
    GrownDown(s, s', s.agent.heap[r], s'.agent.heap[r], A.SentNow(s.agent, a, r), A.Step(s.agent, a).1);
  }

  lemma AgentSilent(s: State, a: A.Action, id: Id)
    requires DownInv(s) && Can(s, AgentStep(a)) && Unsent(Step(s, AgentStep(a)), id)
    ensures Silent(Step(s, AgentStep(a)), id)
  {
    hide A.Step, A.Inv, A.Can, A.Shape, H.Inv, Opening, Established, Linked, Unopened, Sized, DownLink;
    var s', m := Step(s, AgentStep(a)), A.Step(s.agent, a).1;
    AgentTabs(s, a);
    forall r | 0 <= r < |s.agent.heap| && s.agent.heap[r].id == id ensures s.agent.heap[r].src.sent == [] {
      A.StreamStep(s.agent, a, r);
    }
    A.StreamOutput(s.agent, a);
    if m.Some? && m.value.Data? && m.value.id == id { A.StreamStep(s.agent, a, a.r); }
    assert Silent(s, id);
    PutData(s.lines[|s.lines| - 1], m, id, []);
    WiredSilent(s, s', m, id);
  }

  lemma WiredSilent(s: State, s': State, m: Option<Msg>, id: Id)
    requires s.lines != [] && s'.lines == Wired(s, m) && s'.host == s.host && Silent(s, id)
    requires DataOf(Put(s.lines[|s.lines| - 1], m), id) == []
    ensures Silent(s', id)
  {
    hide DataOf, Put;
    assert forall e :: 0 <= e < |s.lines| ==> Holding(s', e, id) == Holding(s, e, id);
  }

  lemma AgentDownKeeps(s: State, a: A.Action)
    requires DownInv(s) && Can(s, AgentStep(a))
    ensures DownInv(Step(s, AgentStep(a)))
  {
    var s' := Step(s, AgentStep(a));
    AgentKeeps(s, a);
    AgentTabs(s, a);
    assert SameFlags(s, s');
    hide Step, Can, Inv, DownLink, Silent, Unsent;
    forall id | Unsent(s', id) ensures Silent(s', id) { AgentSilent(s, a, id); }
    forall r | 0 <= r < |s'.agent.heap| ensures s'.agent.heap[r].id in s'.host.tuns && DownLink(s', s'.agent.heap[r]) {
      AgentDown(s, a, r);
    }
  }

  // ---- messages taken by the probe ----

  lemma ReceiveGrows(s: State, ok: bool, r: A.Ref)
    requires Inv(s) && Can(s, AgentReceive(ok)) && r < |s.agent.heap|
    ensures var s' := Step(s, AgentReceive(ok)); var m := A.Step(s.agent, A.Receive(s.toAgent[0], ok)).1;
            && r < |s'.agent.heap|
            && Grown(s, s', s.agent.heap[r], s'.agent.heap[r], [], m)
            && (m.Some? ==> !m.value.Data? && !(m.value.OpenResult? && m.value.ok))
  {
    hide A.ReceiveStep, A.Inv, A.Shape, A.Still, H.Inv, Established, Linked, Unopened, Sized, Wired, Opening;
    OwnTab(s, r);
    A.ReceiveShape(s.agent, s.toAgent[0], ok);
    A.ReceiveOnTab(s.agent, s.toAgent[0], ok, r);
    A.StillStep(s.agent, A.Receive(s.toAgent[0], ok), r);
  }

  lemma ReceiveDown(s: State, ok: bool, r: A.Ref)
    requires DownInv(s) && Can(s, AgentReceive(ok)) && r < |s.agent.heap|
    ensures var s' := Step(s, AgentReceive(ok));
            r < |s'.agent.heap| && s'.agent.heap[r].id in s'.host.tuns && DownLink(s', s'.agent.heap[r])
  {
    hide Inv, Step, A.Step, A.Can, A.Shape, A.Still, A.Pending, DownLink, Unsent, Silent, Wired;
    ReceiveGrows(s, ok, r);
    OwnTab(s, r);
    var s' := Step(s, AgentReceive(ok));
    GrownDown(s, s', s.agent.heap[r], s'.agent.heap[r], [], A.Step(s.agent, A.Receive(s.toAgent[0], ok)).1);
  }

  lemma ReceiveSilent(s: State, ok: bool, id: Id)
    requires DownInv(s) && Can(s, AgentReceive(ok)) && Unsent(Step(s, AgentReceive(ok)), id)
    ensures Silent(Step(s, AgentReceive(ok)), id)
  {
    hide A.ReceiveStep, A.Inv, A.Shape, H.Inv, Opening, Established, Linked, Unopened, Sized, DownLink;
    var s', m := Step(s, AgentReceive(ok)), A.Step(s.agent, A.Receive(s.toAgent[0], ok)).1;
    forall r | 0 <= r < |s.agent.heap| && s.agent.heap[r].id == id ensures s.agent.heap[r].src.sent == [] {
      ReceiveGrows(s, ok, r);
      assert s'.agent.heap[r].id == id;
      hide *;
    }
    A.ReceiveShape(s.agent, s.toAgent[0], ok);
    assert Unsent(s, id) && Silent(s, id);
    PutData(s.lines[|s.lines| - 1], m, id, []);
    WiredSilent(s, s', m, id);
  }

  // A tunnel just opened has nothing on its way.
  lemma ReceiveNewDown(s: State, ok: bool)
    requires DownInv(s) && Can(s, AgentReceive(ok)) && |Step(s, AgentReceive(ok)).agent.heap| == |s.agent.heap| + 1
    ensures var s' := Step(s, AgentReceive(ok)); var n := |s.agent.heap|;
            s'.agent.heap[n].id in s'.host.tuns && DownLink(s', s'.agent.heap[n])
  {
    hide A.ReceiveStep, A.Inv, A.Shape, H.Inv, Established, Linked, Unopened, Sized, DownLink, Silent, Wired;
    var s', m := Step(s, AgentReceive(ok)), A.Step(s.agent, A.Receive(s.toAgent[0], ok)).1;
    A.ReceiveShape(s.agent, s.toAgent[0], ok);
    ReceiveOpening(s, ok);
    ReceiveKeeps(s, ok);
    var t := s'.agent.heap[|s.agent.heap|];
    assert Unsent(s', t.id);
    ReceiveSilent(s, ok, t.id);
    SilentDown(s', t);
  }

  lemma SilentDown(s: State, t: A.Tab)
    requires s.lines != [] && Mine(s, t.id) && Silent(s, t.id) && t.src == NEW_SOURCE
    ensures DownLink(s, t)
  {
    hide DataOf, DataBefore, Answerable, Fits;
    forall e | 0 <= e < |s.lines| ensures Left(s, e, t.id) == [] { DataBeforeWithin(s.lines[e], t.id); }
    if s.host.tuns[t.id].finish.Live? {
      assert Whole(s, t);
    } else {
      FitsOne(Taken(s, t.id), Rest(s, t.id), 0, Bytes(t.src.read));
    }
  }

  lemma ReceiveHeap(s: State, ok: bool)
    requires Inv(s) && Can(s, AgentReceive(ok))
    ensures var s' := Step(s, AgentReceive(ok));
            && |s.agent.heap| <= |s'.agent.heap| <= |s.agent.heap| + 1
            && SameFlags(s, s')
  {
    hide A.Step, A.Can, Inv;
    ReceiveTabs(s, ok);
  }

  lemma ReceiveDownKeeps(s: State, ok: bool)
    requires DownInv(s) && Can(s, AgentReceive(ok))
    ensures DownInv(Step(s, AgentReceive(ok)))
  {
    hide Step, Can, Inv, DownLink, Silent, Unsent;
    var s' := Step(s, AgentReceive(ok));
    ReceiveKeeps(s, ok);
    ReceiveHeap(s, ok);
    SomeLine(s');
    forall id | Unsent(s', id) ensures Silent(s', id) { ReceiveSilent(s, ok, id); }
    forall r | 0 <= r < |s'.agent.heap| ensures s'.agent.heap[r].id in s'.host.tuns && DownLink(s', s'.agent.heap[r]) {
      if r < |s.agent.heap| { ReceiveDown(s, ok, r); } else { ReceiveNewDown(s, ok); }
    }
  }

  // ---- connections that break and come back ----

  // Less may come than before, and on the current connection only once that is down.
  ghost predicate Cut(s: State, s': State, id: Id) {
    && s.lines != [] && |s'.lines| == |s.lines| && (s'.up ==> s.up) && id in s.host.tuns
    && s'.host == s.host && SameFlags(s, s')
    && (forall e :: 0 <= e < |s.lines| ==> Left(s', e, id) <= Left(s, e, id))
    && Coming(s', id) <= Coming(s, id)
    && (s'.up ==> Coming(s', id) == Coming(s, id) && Left(s', |s.lines| - 1, id) == Left(s, |s.lines| - 1, id))
    && (Answerable(s', id) ==> Answerable(s, id))
  }

  lemma CutDown(s: State, s': State, t: A.Tab)
    requires Cut(s, s', t.id) && DownLink(s, t)
    ensures DownLink(s', t)
  {
    hide Left, Bytes, Fits, Coming, A.Still, A.Pending, Answerable;
    BytesPrefix(Coming(s', t.id), Coming(s, t.id));
    assert Taken(s', t.id) == Taken(s, t.id);
    var sent := Bytes(t.src.sent);
    if Whole(s, t) {
      assert Taken(s, t.id) + Bytes(Coming(s', t.id)) <= Taken(s, t.id) + Bytes(Coming(s, t.id)) <= sent;
      PrefixTrans(Taken(s, t.id) + Bytes(Coming(s', t.id)), Taken(s, t.id) + Bytes(Coming(s, t.id)), sent);
    }
    if Fits(Taken(s, t.id), Onward(s, t), Bytes(t.src.read)) {
      FitsCut(Taken(s, t.id), Onward(s, t), Onward(s', t), Bytes(t.src.read));
    }
    if Fits(Taken(s, t.id), Rest(s, t.id), Bytes(t.src.read)) {
      FitsCut(Taken(s, t.id), Rest(s, t.id), Rest(s', t.id), Bytes(t.src.read));
    }
  }

  lemma DisconnectCuts(s: State, id: Id)
    requires s.lines != [] && id in s.host.tuns
    ensures Cut(s, Step(s, Disconnect), id)
  {
    hide DataOf, DataBefore, AnswerIn;
    var s' := Step(s, Disconnect);
    assert forall e :: 0 <= e < |s.lines| ==> (Answers(s', e, id) <==> Answers(s, e, id)) && Holding(s', e, id) == Holding(s, e, id);
  }

  // What connection e still brings is cut short to some of its next messages.
  ghost predicate CutLine(s: State, s': State, e: nat, front: seq<Msg>, id: Id) {
    && e < |s.lines| && s'.lines == s.lines[e := front] && s'.host == s.host && id in s.host.tuns
    && DataOf(front, id) <= DataOf(s.lines[e], id) && DataBefore(front, id) <= DataBefore(s.lines[e], id)
    && (AnswerIn(front, id) ==> AnswerIn(s.lines[e], id))
  }

  lemma CutAnswers(s: State, s': State, e: nat, front: seq<Msg>, id: Id)
    requires CutLine(s, s', e, front, id) && Answerable(s', id)
    ensures Answerable(s, id)
  {
    hide DataOf, DataBefore, AnswerIn;
    if !H.Serving(s'.host.tuns[id]) {
      var i :| 0 <= i < |s'.lines| && Answers(s', i, id);
      assert Answers(s, i, id);
    }
  }

  lemma CutLeft(s: State, s': State, e: nat, front: seq<Msg>, id: Id, i: nat)
    requires CutLine(s, s', e, front, id) && i < |s.lines|
    ensures Left(s', i, id) <= Left(s, i, id) && (i != e ==> Left(s', i, id) == Left(s, i, id))
    ensures Coming(s', id) <= Coming(s, id) && (e < |s.lines| - 1 ==> Coming(s', id) == Coming(s, id))
  {
    hide DataOf, DataBefore, AnswerIn;
    assert Holding(s', i, id) == Holding(s, i, id) && Holding(s', |s.lines| - 1, id) == Holding(s, |s.lines| - 1, id);
    hide Holding;
  }

  lemma LoseCuts(s: State, e: nat, n: nat, id: Id)
    requires Can(s, Lose(e, n)) && id in s.host.tuns
    ensures Cut(s, Step(s, Lose(e, n)), id)
  {
    var s', q := Step(s, Lose(e, n)), s.lines[e];
    assert q == q[..n] + q[n..];
    DataAppend(q[..n], q[n..], id);
    assert CutLine(s, s', e, q[..n], id);
    CutLeft(s, s', e, q[..n], id, e);
    hide CutLine, Left, Coming, DataOf, DataBefore, AnswerIn, Answerable;
    if Answerable(s', id) { CutAnswers(s, s', e, q[..n], id); }
    forall i | 0 <= i < |s.lines|
      ensures Left(s', i, id) <= Left(s, i, id) && (i != e ==> Left(s', i, id) == Left(s, i, id))
    {
      CutLeft(s, s', e, q[..n], id, i);
    }
  }

  // A new connection has been added: nothing is missing of a tunnel, or what is still held fits.
  ghost predicate Rejoined(s: State, s': State, t: A.Tab) {
    && s.lines != [] && |s'.lines| == |s.lines| + 1 && s'.up && s'.host == s.host && t.id in s.host.tuns
    && (forall e :: 0 <= e < |s.lines| ==> Left(s', e, t.id) == Left(s, e, t.id))
    && Left(s', |s.lines|, t.id) == [] && Coming(s', t.id) == []
    && (Answerable(s', t.id) ==> Answerable(s, t.id))
    && (s'.harmless ==> s.harmless && (s.host.tuns[t.id].finish.Live? && Answerable(s, t.id) ==> Safe(s, t)))
    && !t.drop.InTable?
  }

  lemma RejoinedDown(s: State, s': State, t: A.Tab)
    requires Rejoined(s, s', t) && DownLink(s, t)
    ensures DownLink(s', t)
  {
    hide Left, Bytes, Fits, Coming, A.Still, A.Pending, Answerable;
    assert Taken(s', t.id) == Taken(s, t.id);
    if s.host.tuns[t.id].finish.Live? {
      assert [] + A.Pending(t) == A.Pending(t);
      assert Onward(s', t) == Rest(s, t.id) + [A.Pending(t)];
      assert Taken(s, t.id) + Bytes([]) == Taken(s, t.id) by { assert Bytes([]) == [] by { EmptyBytes(); } }
    } else if Fits(Taken(s, t.id), Rest(s, t.id), Bytes(t.src.read)) {
      FitsExtend(Taken(s, t.id), Rest(s, t.id), Bytes(t.src.read));
      assert Rest(s', t.id) == Rest(s, t.id) + [[]];
    }
  }

  lemma EmptyBytes()
    ensures Bytes([]) == []
  {
  }

  // Nothing is held for a connection that does not exist yet.
  lemma Unheld(s: State)
    requires Inv(s)
    ensures Conn(|s.lines|) !in s.host.handlers
  {
    hide A.Inv, H.Inv, Opening, Linked, Unopened, Sized, GoodAnswers, HasTab, Mine;
  }

  lemma ReconnectLeft(s: State, id: Id)
    requires s.lines != [] && Can(s, Reconnect) && id in s.host.tuns && Conn(|s.lines|) !in s.host.handlers
    ensures var s' := Step(s, Reconnect);
            && |s'.lines| == |s.lines| + 1 && s'.up && s'.host == s.host
            && (forall e :: 0 <= e < |s.lines| ==> Left(s', e, id) == Left(s, e, id))
            && Left(s', |s.lines|, id) == [] && Coming(s', id) == []
  {
    hide Harmless, NoneLeft, Lossless;
    var s' := Step(s, Reconnect);
    assert forall e :: 0 <= e < |s.lines| ==> Holding(s', e, id) == Holding(s, e, id);
    hide Holding, Can;
  }

  lemma ReconnectRejoins(s: State, r: A.Ref)
    requires Inv(s) && Can(s, Reconnect) && r < |s.agent.heap|
    ensures Rejoined(s, Step(s, Reconnect), s.agent.heap[r])
  {
    hide Inv, Safe, Left, Coming, Answerable, Answers, A.Shape;
    Unheld(s);
    OwnTab(s, r);
    var s', id := Step(s, Reconnect), s.agent.heap[r].id;
    ReconnectLeft(s, id);
    if Answerable(s', id) { ReconnectAnswers(s, id); }
    assert s'.harmless ==> s.harmless && Harmless(s);
    NoTable(s, r);
    hide Step, Can;
  }

  lemma ReconnectAnswers(s: State, id: Id)
    requires Can(s, Reconnect) && id in s.host.tuns && Conn(|s.lines|) !in s.host.handlers && Answerable(Step(s, Reconnect), id)
    ensures Answerable(s, id)
  {
    hide Harmless, NoneLeft, Lossless;
    var s' := Step(s, Reconnect);
    if !H.Serving(s'.host.tuns[id]) {
      var e :| 0 <= e < |s'.lines| && Answers(s', e, id);
      assert e < |s.lines| && Answers(s, e, id);
    }
  }

  // ---- runs ----

  lemma BreakSilent(s: State, act: Action, id: Id)
    requires Inv(s) && Can(s, act) && (act.Disconnect? || act.Lose? || act.Reconnect?) && Silent(s, id)
    ensures Silent(Step(s, act), id)
  {
    hide Inv, Harmless, NoneLeft, Lossless, A.Shape, A.ByReceiver, DataOf;
    Unheld(s);
    NoneInPart(s.lines[if act.Lose? then act.e else 0], if act.Lose? then act.n else 0, id);
    var s' := Step(s, act);
    forall e | 0 <= e < |s'.lines| ensures Holding(s', e, id) == [] { assert e < |s.lines| ==> Holding(s, e, id) == []; }
    hide Holding;
  }

  ghost predicate DownAt(s: State, t: A.Tab) {
    s.lines != [] && t.id in s.host.tuns && DownLink(s, t)
  }

  lemma SameHost(s: State, act: Action)
    requires Can(s, act) && (act.Disconnect? || act.Lose? || act.Reconnect?)
    ensures Step(s, act).host == s.host
  {
    hide Harmless, NoneLeft, Lossless;
  }

  lemma BreakDown(s: State, act: Action, r: A.Ref)
    requires DownInv(s) && Can(s, act) && (act.Disconnect? || act.Lose? || act.Reconnect?) && r < |s.agent.heap|
    ensures DownAt(Step(s, act), s.agent.heap[r])
  {
    hide Step, Can, Silent, Unsent, DownLink;
    var t := s.agent.heap[r];
    OwnTab(s, r);
    assert DownLink(s, t);
    SameHost(s, act);
    hide Inv;
    match act
    case Disconnect => DisconnectCuts(s, t.id); CutDown(s, Step(s, act), t);
    case Lose(e, n) => LoseCuts(s, e, n, t.id); CutDown(s, Step(s, act), t);
    case Reconnect => ReconnectRejoins(s, r); RejoinedDown(s, Step(s, act), t);
    case _ =>
  }

  lemma BreakFlags(s: State, act: Action)
    requires Inv(s) && Can(s, act) && (act.Disconnect? || act.Lose? || act.Reconnect?)
    requires s.orderly ==> s.harmless && s.lossless
    ensures Step(s, act).agent == s.agent && (Step(s, act).orderly ==> Step(s, act).harmless && Step(s, act).lossless)
  {
    hide Inv, Harmless, NoneLeft, Lossless;
    if NoneLeft(s) { OrderlyHarmless(s); }
  }

  lemma BreakDownKeeps(s: State, act: Action)
    requires DownInv(s) && Can(s, act) && (act.Disconnect? || act.Lose? || act.Reconnect?)
    ensures DownInv(Step(s, act))
  {
    hide Step, Can, Inv, DownLink, Silent, Unsent;
    var s' := Step(s, act);
    BreakKeeps(s, act);
    BreakFlags(s, act);
    SomeLine(s');
    forall id | Unsent(s', id) ensures Silent(s', id) {
      SameUnsent(s, s', id);
      BreakSilent(s, act, id);
    }
    forall r | 0 <= r < |s'.agent.heap| ensures s'.agent.heap[r].id in s'.host.tuns && DownLink(s', s'.agent.heap[r]) {
      BreakDown(s, act, r);
    }
  }

  lemma SameUnsent(s: State, s': State, id: Id)
    requires s'.agent == s.agent
    ensures Unsent(s', id) <==> Unsent(s, id)
  {
  }

  // A reconnect that finds no tunnel does no harm.
  lemma OrderlyHarmless(s: State)
    requires Inv(s) && NoneLeft(s)
    ensures Harmless(s) && Lossless(s)
  {
    hide A.Inv, H.Inv, Established, Linked, Unopened, Sized, Safe, AllHere, Answerable;
  }

  lemma StepDownKeeps(s: State, act: Action)
    requires DownInv(s) && Can(s, act)
    ensures DownInv(Step(s, act))
  {
    hide DownInv, Can, Step;
    match act
    case HostStep(h) => HostDownKeeps(s, h);
    case HostReceive(e) => HostReceiveDownKeeps(s, e);
    case AgentStep(a) => AgentDownKeeps(s, a);
    case AgentReceive(ok) => ReceiveDownKeeps(s, ok);
    case _ => BreakDownKeeps(s, act);
  }

  lemma {:induction false} RunDownKeeps(acts: seq<Action>)
    requires Run(acts).Some?
    ensures DownInv(Run(acts).value)
  {
    if acts == [] {
      StartInv();
      hide Inv;
      forall id ensures Silent(START, id) {}
    } else {
      hide Step, Can, DownInv;
      RunDownKeeps(acts[..|acts| - 1]);
      StepDownKeeps(Run(acts[..|acts| - 1]).value, acts[|acts| - 1]);
    }
  }

  // ---- what the clients have received ----

  // The client of tunnel r has received a prefix of what the probe read from its target.
  ghost predicate Gapless(s: State, r: A.Ref)
    requires r < |s.agent.heap|
  {
    var t := s.agent.heap[r];
    t.id in s.host.tuns && Delivered(s.host.tuns[t.id].out) <= Bytes(t.src.read)
  }

  // A client that is not served has received nothing; the others get what has been queued, in order.
  lemma DeliveredTaken(h: H.Host, id: Id)
    requires H.Inv(h) && id in h.tuns
    ensures Delivered(h.tuns[id].out) <= Bytes(h.tuns[id].out.accepted)
    ensures !H.Serving(h.tuns[id]) ==> Delivered(h.tuns[id].out) == []
  {
    hide H.LiveIn, SourceInv;
    assert H.TunOk(h.tuns[id]);
    DeliveredPrefix(h.tuns[id].out, h.tuns[id].inbound);
  }

  lemma DownGapless(s: State, r: A.Ref)
    requires DownInv(s) && s.harmless && r < |s.agent.heap|
    ensures Gapless(s, r)
  {
    var t := s.agent.heap[r];
    OwnTab(s, r);
    SentIsRead(s.agent, r);
    DeliveredTaken(s.host, t.id);
    assert DownLink(s, t);
    hide Inv, Sound, Fits, Bytes, Delivered, Unsent, Silent, Whole;
    if H.Serving(s.host.tuns[t.id]) {
      SoundFits(s, t);
      FitsTaken(Taken(s, t.id), Rest(s, t.id), Bytes(t.src.read));
    }
  }

  // As long as every reconnect was harmless, every client has received a prefix of the bytes its probe read
  // from the target, in every reachable state.
  lemma HarmlessIsGapless(acts: seq<Action>, r: A.Ref)
    requires Run(acts).Some? && Run(acts).value.harmless && r < |Run(acts).value.agent.heap|
    ensures Gapless(Run(acts).value, r)
  {
    hide Run, Gapless;
    RunDownKeeps(acts);
    DownGapless(Run(acts).value, r);
  }

  // Reconnects that find no tunnel of the probe at the host are harmless; and a client whose tunnel the
  // probe never opened gets nothing, whatever happens.
  lemma ClientReceivesPrefix(acts: seq<Action>, id: Id)
    requires Run(acts).Some? && Mine(Run(acts).value, id)
    ensures var s := Run(acts).value;
            && (s.orderly ==> forall r :: 0 <= r < |s.agent.heap| && s.agent.heap[r].id == id ==>
                  Delivered(s.host.tuns[id].out) <= Bytes(s.agent.heap[r].src.read))
            && (!HasTab(s, id) ==> Delivered(s.host.tuns[id].out) == [])
  {
    hide Run, Delivered, Bytes, Inv, DownLink;
    RunDownKeeps(acts);
    var s := Run(acts).value;
    if !HasTab(s, id) {
      NoTabSilent(s, id);
    } else if s.orderly {
      forall r | 0 <= r < |s.agent.heap| && s.agent.heap[r].id == id ensures Gapless(s, r) {
        hide Gapless;
        DownGapless(s, r);
      }
    }
  }

  lemma NoTabSilent(s: State, id: Id)
    requires DownInv(s) && Mine(s, id) && !HasTab(s, id)
    ensures Delivered(s.host.tuns[id].out) == []
  {
    assert Unsent(s, id) && Silent(s, id);
    DeliveredTaken(s.host, id);
  }
}
