// The host's half of the tunnel protocol as a transition system, after host/internal/proxy/service.go.
// Every step is one critical section or one channel, timer, read or write operation; the goroutines are
// one message handler per probe connection, also of a connection that has been replaced, and per tunnel the
// opener (openTunnel and its caller), the client reader, the client writer and the one finish that took it
// out of the table.
// Messages from probes are arbitrary here, timers fire at any moment, and sends and writes may fail.
module Host {
  import opened Options
  import opened Wire

  type AgentId = string
  type SessionId = string

  // One websocket of a probe. A replaced one is closed, but its handler finishes the message it holds and
  // may find more of them already read.
  datatype ConnId = ConnId(agent: AgentId, number: nat)

  const MAX_PER_SESSION: nat := 64

  datatype Opener = OpSending | OpWaiting | OpReturned | OpPumping | OpFailed

  // Progress of the finish that removed the tunnel.
  datatype Finish = Live | Removing(notify: bool) | Noticing | Finished

  // What removed it: its client reader at the end of the client's stream, a ProxyClose of the probe, or else.
  datatype Ending = Running | ClientEnded | ProbeClosed | OtherEnd

  datatype Tunnel = Tunnel(
    agent: AgentId,
    session: SessionId,
    opener: Opener,
    finish: Finish,       // Live: still in the table
    done: bool,           // the done channel is closed
    result: Option<bool>, // buffered dial result
    src: Source,          // client to probe
    inbound: seq<Chunk>,
    out: Outlet,          // probe to client
    removals: nat, closes: nat, notices: nat, // how often removed, done closed, ProxyClose sent
    sealed: nat,          // how many chunks had been queued when done closed
    ending: Ending
  )

  datatype Handler = Posting(id: Id, ok: bool) | Delivering(id: Id, chunk: Chunk)

  datatype Host = Host(tuns: map<Id, Tunnel>, handlers: map<ConnId, Handler>)

  const START := Host(map[], map[])

  function NewTunnel(agent: AgentId, session: SessionId): Tunnel {
    Tunnel(agent, session, OpSending, Live, false, None, NEW_SOURCE, [], NEW_OUTLET, 0, 0, 0, 0, Running)
  }

  datatype Action =
    | Add(id: Id, agent: AgentId, session: SessionId)
    | Receive(conn: ConnId, msg: Msg)
    | Post(conn: ConnId) | DeliverOk(conn: ConnId) | DeliverDone(conn: ConnId) | DeliverTimeout(conn: ConnId)
    | SendOpen(id: Id, ok: bool, host: string, port: int)
    | TakeResult(id: Id) | OpenTimeout(id: Id) | OpenDone(id: Id)
    | StartPump(id: Id) | AbandonOpen(id: Id)
    | ClientRead(id: Id, chunk: Chunk) | ClientSend(id: Id, ok: bool) | ClientEnd(id: Id)
    | TakeChunk(id: Id) | SeeDone(id: Id) | DrainEnd(id: Id) | WriteOk(id: Id) | WriteFail(id: Id, n: nat)
    | CloseDone(id: Id) | Notice(id: Id, ok: bool)
    | Drop(id: Id, notify: bool)   // DropAgent and dropSession, tunnel by tunnel

  // ---- steps ----

  // The table section of finish: only the first one removes the tunnel.
  function Take(t: Tunnel, notify: bool, ending: Ending): Tunnel {
    if t.finish.Live? then t.(finish := Removing(notify), removals := t.removals + 1, ending := ending) else t
  }

  function LiveIn(h: Host, s: SessionId): set<Id> {
    set id | id in h.tuns && h.tuns[id].finish.Live? && h.tuns[id].session == s
  }

  predicate OfTunnel(act: Action) {
    !act.Add? && !act.Receive? && !act.Post? && !act.DeliverOk? && !act.DeliverDone? && !act.DeliverTimeout?
  }

  predicate TunCan(t: Tunnel, act: Action)
    requires OfTunnel(act)
  {
    match act
    case SendOpen(_, _, _, _) => t.opener.OpSending?
    case TakeResult(_) => t.opener.OpWaiting? && t.result.Some?
    case OpenTimeout(_) => t.opener.OpWaiting?
    case OpenDone(_) => t.opener.OpWaiting? && t.done
    case StartPump(_) => t.opener.OpReturned?
    case AbandonOpen(_) => t.opener.OpReturned?
    case ClientRead(_, c) => t.src.pc.SrcReading? && 0 < |c| <= CHUNK_SIZE
    case ClientSend(_, _) => t.src.pc.SrcSending?
    case ClientEnd(_) => t.src.pc.SrcReading?
    case TakeChunk(_) => (t.out.pc.OutSelecting? || t.out.pc.OutDraining?) && t.inbound != []
    case SeeDone(_) => t.out.pc.OutSelecting? && t.done
    case DrainEnd(_) => t.out.pc.OutDraining? && t.inbound == []
    case WriteOk(_) => t.out.pc.OutWriting?
    case WriteFail(_, n) => t.out.pc.OutWriting? && n <= |t.out.pc.chunk|
    case CloseDone(_) => t.finish.Removing?
    case Notice(_, _) => t.finish.Noticing?
    case Drop(_, _) => true
  }

  // What a goroutine of the tunnel makes of it.
  function TunNext(t: Tunnel, act: Action): Tunnel
    requires OfTunnel(act) && TunCan(t, act)
  {
    match act
    case SendOpen(_, ok, _, _) => if ok then t.(opener := OpWaiting) else Take(t, false, OtherEnd).(opener := OpFailed)
    case TakeResult(_) =>
      if t.result.value then t.(result := None, opener := OpReturned)
      else Take(t, false, OtherEnd).(result := None, opener := OpFailed)
    case OpenTimeout(_) => Take(t, true, OtherEnd).(opener := OpFailed)
    case OpenDone(_) => t.(opener := OpFailed)
    case StartPump(_) => t.(opener := OpPumping, src := t.src.(pc := SrcReading), out := t.out.(pc := OutSelecting))
    case AbandonOpen(_) => Take(t, true, OtherEnd).(opener := OpFailed)
    case ClientRead(_, c) => t.(src := SrcRead(t.src, c))
    case ClientSend(_, ok) => if ok then t.(src := SrcSend(t.src, true)) else Take(t, false, OtherEnd).(src := SrcSend(t.src, false))
    case ClientEnd(_) => Take(t, true, ClientEnded).(src := t.src.(pc := SrcEnded))
    case TakeChunk(_) => t.(inbound := t.inbound[1..], out := OutTake(t.out, t.inbound[0]))
    case SeeDone(_) => t.(out := t.out.(pc := OutDraining))
    case DrainEnd(_) => t.(out := t.out.(pc := OutEnded(true)))
    case WriteOk(_) => t.(out := OutWrote(t.out))
    case WriteFail(_, n) => Take(t, true, OtherEnd).(out := OutFailed(t.out, n))
    case CloseDone(_) =>
      t.(done := true, closes := t.closes + 1, sealed := |t.out.accepted|, finish := if t.finish.notify then Noticing else Finished)
    case Notice(_, ok) => t.(finish := Finished, notices := if ok then t.notices + 1 else t.notices)
    case Drop(_, notify) => Take(t, notify, OtherEnd)
  }

  // The message the step puts on the connection to the tunnel's probe.
  function OutputOf(t: Tunnel, act: Action): Option<Msg>
    requires OfTunnel(act) && TunCan(t, act)
  {
    match act
    case SendOpen(id, ok, host, port) => if ok then Some(Open(id, host, port)) else None
    case ClientSend(id, ok) => if ok then Some(Data(id, t.src.pc.chunk)) else None
    case Notice(id, ok) => if ok then Some(Close(id)) else None
    case _ => None
  }

  // HandleAgent looks the tunnel up and ignores tunnels of other probes.
  predicate Known(h: Host, agent: AgentId, id: Id) {
    id in h.tuns && h.tuns[id].finish.Live? && h.tuns[id].agent == agent
  }

  function ReceiveStep(h: Host, conn: ConnId, m: Msg): Host {
    match m
    case OpenResult(id, ok) => if Known(h, conn.agent, id) then h.(handlers := h.handlers[conn := Posting(id, ok)]) else h
    case Data(id, chunk) =>
      if chunk == [] || !Known(h, conn.agent, id) then h
      else if |chunk| > MAX_PAYLOAD then h.(tuns := h.tuns[id := Take(h.tuns[id], true, OtherEnd)])
      else h.(handlers := h.handlers[conn := Delivering(id, chunk)])
    case Garbled(id) => if Known(h, conn.agent, id) then h.(tuns := h.tuns[id := Take(h.tuns[id], true, OtherEnd)]) else h
    case Close(id) => if Known(h, conn.agent, id) then h.(tuns := h.tuns[id := Take(h.tuns[id], false, ProbeClosed)]) else h
    case Open(_, _, _) => h
  }

  predicate Can(h: Host, act: Action) {
    match act
    case Add(id, _, _) => id !in h.tuns
    case Receive(conn, _) => conn !in h.handlers
    case Post(conn) => conn in h.handlers && h.handlers[conn].Posting? && h.handlers[conn].id in h.tuns
    case DeliverOk(conn) =>
      conn in h.handlers && h.handlers[conn].Delivering? && h.handlers[conn].id in h.tuns
      && |h.tuns[h.handlers[conn].id].inbound| < QUEUE_SIZE
    case DeliverDone(conn) =>
      conn in h.handlers && h.handlers[conn].Delivering? && h.handlers[conn].id in h.tuns
      && h.tuns[h.handlers[conn].id].done
    case DeliverTimeout(conn) => conn in h.handlers && h.handlers[conn].Delivering? && h.handlers[conn].id in h.tuns
    case _ => act.id in h.tuns && TunCan(h.tuns[act.id], act)
  }

  function Delivered(t: Tunnel, c: Chunk): Tunnel {
    t.(inbound := t.inbound + [c], out := t.out.(accepted := t.out.accepted + [c]))
  }

  function Step(h: Host, act: Action): Host
    requires Can(h, act)
  {
    match act
    case Add(id, agent, session) =>
      if |LiveIn(h, session)| >= MAX_PER_SESSION then h else h.(tuns := h.tuns[id := NewTunnel(agent, session)])
    case Receive(conn, m) => ReceiveStep(h, conn, m)
    case Post(conn) =>
      var p := h.handlers[conn];
      var t := h.tuns[p.id];
      Host(if t.result.None? then h.tuns[p.id := t.(result := Some(p.ok))] else h.tuns, h.handlers - {conn})
    case DeliverOk(conn) =>
      var p := h.handlers[conn];
      Host(h.tuns[p.id := Delivered(h.tuns[p.id], p.chunk)], h.handlers - {conn})
    case DeliverDone(conn) => h.(handlers := h.handlers - {conn})
    case DeliverTimeout(conn) =>
      var p := h.handlers[conn];
      Host(h.tuns[p.id := Take(h.tuns[p.id], true, OtherEnd)], h.handlers - {conn})
    case _ => h.(tuns := h.tuns[act.id := TunNext(h.tuns[act.id], act)])
  }

  // ---- what every step keeps ----

  ghost predicate LoopsOk(t: Tunnel) {
    && |t.inbound| <= QUEUE_SIZE
    && OutletInv(t.out, t.inbound)
    && SourceInv(t.src)
  }

  ghost predicate LifeOk(t: Tunnel) {
    && t.removals == (if t.finish.Live? then 0 else 1)
    && (t.done <==> t.finish.Noticing? || t.finish.Finished?)
    && t.closes == (if t.done then 1 else 0)
    && t.notices <= 1 && (t.notices == 1 ==> t.finish.Finished?)
    && (t.opener.OpFailed? ==> !t.finish.Live?)
    && (!t.opener.OpPumping? <==> t.src.pc.SrcNotStarted?)
    && (!t.opener.OpPumping? <==> t.out.pc.OutNotStarted?)
    && (t.ending.Running? <==> t.finish.Live?)
    && (t.ending.ClientEnded? ==> t.src.pc.SrcEnded? && t.src.sent == t.src.read)
    && (t.out.pc == OutEnded(false) ==> !t.finish.Live?)
    // Draining starts after done closed, and ends only when everything queued before that is written.
    && (t.out.pc.OutDraining? || t.out.pc == OutEnded(true) || (t.out.pc.OutWriting? && t.out.pc.draining) ==> t.done)
    && (t.done ==> t.sealed <= |t.out.accepted|)
    && (t.out.pc == OutEnded(true) ==> t.sealed <= |t.out.written|)
  }

  ghost predicate TunOk(t: Tunnel) { LifeOk(t) && LoopsOk(t) }

  ghost predicate Inv(h: Host) {
    && (forall id :: id in h.tuns ==> TunOk(h.tuns[id]))
    && (forall s :: |LiveIn(h, s)| <= MAX_PER_SESSION)
    && (forall c :: c in h.handlers ==> h.handlers[c].id in h.tuns && h.tuns[h.handlers[c].id].agent == c.agent)
  }

  // A tunnel keeps its owner, and never comes back to the table.
  predicate Evolves(t: Tunnel, u: Tunnel) {
    && u.agent == t.agent && u.session == t.session
    && (u.finish.Live? ==> t.finish.Live?)
  }

  lemma SourceNext(t: Tunnel, act: Action)
    requires OfTunnel(act) && TunCan(t, act) && TunOk(t)
    ensures SourceInv(TunNext(t, act).src)
  {
    hide OutletInv;
  }

  lemma LoopsNext(t: Tunnel, act: Action)
    requires OfTunnel(act) && TunCan(t, act) && TunOk(t)
    ensures LoopsOk(TunNext(t, act))
  {
    hide SourceInv, OutletInv;
    SourceNext(t, act);
    OutletMoves(t.out, t.inbound);
    match act
    case TakeChunk(_) => OutletTakes(t.out, t.inbound);
    case WriteOk(_) => OutletWrites(t.out, t.inbound, 0);
    case WriteFail(_, n) => OutletWrites(t.out, t.inbound, n);
    case _ =>
  }

  lemma LifeNext(t: Tunnel, act: Action)
    requires OfTunnel(act) && TunCan(t, act) && TunOk(t)
    ensures LifeOk(TunNext(t, act)) && Evolves(t, TunNext(t, act))
  {
    hide OutletInv, SourceInv;
    Drained(t, act);
    ReadAll(t, act);
  }

  // At the end of the client's stream everything read has been sent.
  lemma ReadAll(t: Tunnel, act: Action)
    requires OfTunnel(act) && TunCan(t, act) && TunOk(t)
    ensures act.ClientEnd? ==> t.src.sent == t.src.read
  {
    hide LifeOk, OutletInv, TunNext;
  }

  // Draining ends with everything written.
  lemma Drained(t: Tunnel, act: Action)
    requires OfTunnel(act) && TunCan(t, act) && TunOk(t)
    ensures act.DrainEnd? ==> t.out.accepted == t.out.written
  {
    hide LifeOk, SourceInv, TunNext;
  }

  lemma DeliveredKeeps(t: Tunnel, c: Chunk)
    requires TunOk(t) && |t.inbound| < QUEUE_SIZE
    ensures TunOk(Delivered(t, c)) && Evolves(t, Delivered(t, c))
  {
  }

  lemma TakeKeeps(t: Tunnel, notify: bool, ending: Ending)
    requires TunOk(t) && (ending.ProbeClosed? || ending.OtherEnd?)
    ensures TunOk(Take(t, notify, ending)) && Evolves(t, Take(t, notify, ending))
  {
  }

  // Replacing one tunnel by a later state of it.
  lemma UpdateKeeps(h: Host, id: Id, u: Tunnel, handlers: map<ConnId, Handler>)
    requires Inv(h) && id in h.tuns && TunOk(u) && Evolves(h.tuns[id], u)
    requires forall c :: c in handlers ==> handlers[c].id in h.tuns && h.tuns[handlers[c].id].agent == c.agent
    ensures Inv(Host(h.tuns[id := u], handlers))
  {
    hide TunOk;
    var g := Host(h.tuns[id := u], handlers);
    forall s ensures |LiveIn(g, s)| <= MAX_PER_SESSION {
      SubsetSize(LiveIn(g, s), LiveIn(h, s));
    }
  }

  lemma {:induction false} SubsetSize<T>(a: set<T>, b: set<T>)
    requires a <= b
    ensures |a| <= |b|
  {
    if a != {} {
      var x :| x in a;
      SubsetSize(a - {x}, b - {x});
    }
  }

  lemma AddLive(h: Host, id: Id, agent: AgentId, session: SessionId, s: SessionId)
    requires id !in h.tuns
    ensures var g := h.(tuns := h.tuns[id := NewTunnel(agent, session)]);
            |LiveIn(g, s)| <= |LiveIn(h, s)| + if s == session then 1 else 0
  {
    var g := h.(tuns := h.tuns[id := NewTunnel(agent, session)]);
    if s == session {
      assert LiveIn(g, s) == LiveIn(h, s) + {id};
    } else {
      assert LiveIn(g, s) == LiveIn(h, s);
    }
  }

  lemma AddKeeps(h: Host, id: Id, agent: AgentId, session: SessionId)
    requires Inv(h) && id !in h.tuns && |LiveIn(h, session)| < MAX_PER_SESSION
    ensures Inv(h.(tuns := h.tuns[id := NewTunnel(agent, session)]))
  {
    NewTunnelOk(agent, session);
    hide TunOk, NewTunnel, LiveIn;
    var g := h.(tuns := h.tuns[id := NewTunnel(agent, session)]);
    forall s ensures |LiveIn(g, s)| <= MAX_PER_SESSION {
      AddLive(h, id, agent, session, s);
    }
  }

  lemma NewTunnelOk(agent: AgentId, session: SessionId)
    ensures TunOk(NewTunnel(agent, session))
  {
  }

  lemma ReceiveKeeps(h: Host, conn: ConnId, m: Msg)
    requires Inv(h) && conn !in h.handlers
    ensures Inv(ReceiveStep(h, conn, m))
  {
    hide TunOk, LiveIn, Take;
    if Known(h, conn.agent, m.id) {
      var t := h.tuns[m.id];
      TakeKeeps(t, true, OtherEnd);
      TakeKeeps(t, false, ProbeClosed);
      UpdateKeeps(h, m.id, Take(t, true, OtherEnd), h.handlers);
      UpdateKeeps(h, m.id, Take(t, false, ProbeClosed), h.handlers);
      if m.Data? { UpdateKeeps(h, m.id, t, h.handlers[conn := Delivering(m.id, m.chunk)]); assert h.tuns[m.id := t] == h.tuns; }
      if m.OpenResult? { UpdateKeeps(h, m.id, t, h.handlers[conn := Posting(m.id, m.ok)]); assert h.tuns[m.id := t] == h.tuns; }
    }
  }

  predicate ByHandler(act: Action) { act.Post? || act.DeliverOk? || act.DeliverDone? || act.DeliverTimeout? }

  // What a handler's last step on its message makes of the message's tunnel.
  function Handled(t: Tunnel, p: Handler, act: Action): Tunnel
    requires ByHandler(act) && (act.DeliverOk? ==> p.Delivering?) && (act.Post? ==> p.Posting?)
  {
    match act
    case Post(_) => if t.result.None? then t.(result := Some(p.ok)) else t
    case DeliverOk(_) => Delivered(t, p.chunk)
    case DeliverDone(_) => t
    case DeliverTimeout(_) => Take(t, true, OtherEnd)
  }

  lemma HandledKeeps(t: Tunnel, p: Handler, act: Action)
    requires ByHandler(act) && (act.DeliverOk? ==> p.Delivering? && |t.inbound| < QUEUE_SIZE) && (act.Post? ==> p.Posting?)
    requires TunOk(t)
    ensures TunOk(Handled(t, p, act)) && Evolves(t, Handled(t, p, act))
  {
    match act
    case Post(_) =>
    case DeliverOk(_) => DeliveredKeeps(t, p.chunk); hide *;
    case DeliverDone(_) =>
    case DeliverTimeout(_) => TakeKeeps(t, true, OtherEnd); hide *;
  }

  lemma HandlerStepIs(h: Host, act: Action)
    requires Can(h, act) && ByHandler(act)
    ensures var p := h.handlers[act.conn];
            Step(h, act) == Host(h.tuns[p.id := Handled(h.tuns[p.id], p, act)], h.handlers - {act.conn})
  {
    hide Delivered, Take;
    var p := h.handlers[act.conn];
    assert h.tuns[p.id := h.tuns[p.id]] == h.tuns;
  }

  lemma HandlerKeeps(h: Host, act: Action)
    requires Inv(h) && Can(h, act) && ByHandler(act)
    ensures Inv(Step(h, act))
  {
    hide Step, TunOk, LiveIn, Handled, Evolves;
    var p := h.handlers[act.conn];
    HandlerStepIs(h, act);
    HandledKeeps(h.tuns[p.id], p, act);
    UpdateKeeps(h, p.id, Handled(h.tuns[p.id], p, act), h.handlers - {act.conn});
  }

  lemma StepKeeps(h: Host, act: Action)
    requires Inv(h) && Can(h, act)
    ensures Inv(Step(h, act))
  {
    if OfTunnel(act) {
      var t := h.tuns[act.id];
      LoopsNext(t, act);
      LifeNext(t, act);
      hide LiveIn, LoopsOk, LifeOk, TunNext, Evolves;
      UpdateKeeps(h, act.id, TunNext(t, act), h.handlers);
    } else if act.Receive? {
      ReceiveKeeps(h, act.conn, act.msg);
    } else if act.Add? {
      hide TunOk;
      if |LiveIn(h, act.session)| < MAX_PER_SESSION { AddKeeps(h, act.id, act.agent, act.session); }
    } else {
      HandlerKeeps(h, act);
    }
  }

  // ---- every run, whatever the probes send ----

  function Run(acts: seq<Action>): Option<Host> {
    if acts == [] then Some(START)
    else
      var before := Run(acts[..|acts| - 1]);
      if before.Some? && Can(before.value, acts[|acts| - 1]) then Some(Step(before.value, acts[|acts| - 1])) else None
  }

  lemma {:induction false} RunKeeps(acts: seq<Action>)
    requires Run(acts).Some?
    ensures Inv(Run(acts).value)
  {
    if acts == [] {
      assert forall s :: LiveIn(START, s) == {};
    } else {
      RunKeeps(acts[..|acts| - 1]);
      StepKeeps(Run(acts[..|acts| - 1]).value, acts[|acts| - 1]);
    }
  }

  // In every reachable state no session has more than 64 tunnels in the table; each tunnel is removed at
  // most once, its done channel is closed at most once and only after the removal, at most one ProxyClose
  // was sent for it; and one whose opening failed is out of the table.
  lemma TunnelLife(acts: seq<Action>)
    requires Run(acts).Some?
    ensures forall s :: |LiveIn(Run(acts).value, s)| <= 64
    ensures forall id :: id in Run(acts).value.tuns ==>
              var t := Run(acts).value.tuns[id];
              && t.removals <= 1 && t.closes <= t.removals && t.notices <= t.closes
              && (t.finish.Live? <==> t.removals == 0)
              && (t.opener.OpFailed? ==> !t.finish.Live?)
  {
    hide Run, LoopsOk;
    RunKeeps(acts);
  }

  // When the client writer ends without a failed write, everything queued before done closed has been
  // written, in order.
  lemma DrainComplete(acts: seq<Action>, id: Id)
    requires Run(acts).Some? && id in Run(acts).value.tuns && Run(acts).value.tuns[id].out.pc == OutEnded(true)
    ensures var t := Run(acts).value.tuns[id];
            t.done && t.sealed <= |t.out.written| && t.out.written <= t.out.accepted && t.out.part == []
  {
    hide Run;
    RunKeeps(acts);
    assert TunOk(Run(acts).value.tuns[id]);
  }

  // A probe cannot touch the tunnels of another probe, whatever it sends.
  lemma ForeignHarmless(h: Host, act: Action, id: Id)
    requires Inv(h) && Can(h, act) && id in h.tuns
    requires act.Receive? || ByHandler(act)
    requires act.conn.agent != h.tuns[id].agent
    ensures id in Step(h, act).tuns && Step(h, act).tuns[id] == h.tuns[id]
  {
    hide TunOk, LiveIn;
  }

  // ---- what a step does to the streams of tunnel id ----

  function QueuedNow(h: Host, act: Action, id: Id): seq<Chunk>
    requires Can(h, act)
  {
    if act.DeliverOk? && h.handlers[act.conn].id == id then [h.handlers[act.conn].chunk] else []
  }

  function SentNow(h: Host, act: Action, id: Id): seq<Chunk>
    requires Can(h, act) && id in h.tuns
  {
    if act == ClientSend(id, true) then [h.tuns[id].src.pc.chunk] else []
  }

  predicate Answered(t: Tunnel) { t.opener.OpReturned? || t.opener.OpPumping? || t.result == Some(true) }

  lemma StreamStep(h: Host, act: Action, id: Id)
    requires Can(h, act) && id in h.tuns
    ensures id in Step(h, act).tuns
    ensures var t, t' := h.tuns[id], Step(h, act).tuns[id];
            && t'.agent == t.agent
            && t'.src.sent == t.src.sent + SentNow(h, act, id)
            && t'.out.accepted == t.out.accepted + QueuedNow(h, act, id)
            && (t'.finish.Live? ==> t.finish.Live?)
            && (t'.opener.OpSending? ==> t.opener.OpSending?)
            && (Answered(t') ==> Answered(t) || (act.Post? && h.handlers[act.conn] == Posting(id, true)))
  {
    hide LiveIn;
    if OfTunnel(act) {
      TunNextStreams(h.tuns[act.id], act);
      hide TunNext;
    }
  }

  lemma TunNextStreams(t: Tunnel, act: Action)
    requires OfTunnel(act) && TunCan(t, act)
    ensures var t' := TunNext(t, act);
            && t'.agent == t.agent
            && t'.src.sent == (if act.ClientSend? && act.ok then t.src.sent + [t.src.pc.chunk] else t.src.sent)
            && t'.out.accepted == t.out.accepted
            && (t'.finish.Live? ==> t.finish.Live?)
            && (t'.opener.OpSending? ==> t.opener.OpSending?)
            && (Answered(t') ==> Answered(t))
  {
  }

  // The handlers after a step that is not a message.
  lemma HandlerStep(h: Host, act: Action)
    requires Can(h, act) && !act.Receive?
    ensures Step(h, act).handlers == if ByHandler(act) then h.handlers - {act.conn} else h.handlers
  {
    hide TunNext, LiveIn;
  }

  // The client of the tunnel is served, or will be unless the tunnel is removed first.
  predicate Serving(t: Tunnel) {
    t.opener.OpReturned? || t.opener.OpPumping? || (t.opener.OpWaiting? && t.result == Some(true))
  }

  predicate Unanswered(t: Tunnel) { t.opener.OpWaiting? && t.result.None? }

  lemma ServingStep(h: Host, act: Action, id: Id)
    requires Can(h, act) && id in h.tuns && !h.tuns[id].opener.OpSending?
    ensures var t, t' := h.tuns[id], Step(h, act).tuns[id];
            && (Serving(t') ==> Serving(t) || (Unanswered(t) && act.Post? && h.handlers[act.conn] == Posting(id, true)))
            && (Unanswered(t') ==> Unanswered(t))
  {
    hide LiveIn;
    if OfTunnel(act) {
      if act.id == id { TunNextServing(h.tuns[id], act); }
      hide TunNext;
    }
  }

  lemma TunNextServing(t: Tunnel, act: Action)
    requires OfTunnel(act) && TunCan(t, act) && !t.opener.OpSending?
    ensures Serving(TunNext(t, act)) ==> Serving(t)
    ensures Unanswered(TunNext(t, act)) ==> Unanswered(t)
  {
  }

  // What a message makes of a tunnel, and of the handlers.
  function Told(t: Tunnel, agent: AgentId, m: Msg, id: Id): Tunnel {
    if m.id != id || t.agent != agent then t
    else if m.Close? then Take(t, false, ProbeClosed)
    else if m.Garbled? || (m.Data? && |m.chunk| > MAX_PAYLOAD) then Take(t, true, OtherEnd)
    else t
  }

  function Noted(h: Host, conn: ConnId, m: Msg): map<ConnId, Handler> {
    if !Known(h, conn.agent, m.id) then h.handlers
    else if m.OpenResult? then h.handlers[conn := Posting(m.id, m.ok)]
    else if m.Data? && 0 < |m.chunk| <= MAX_PAYLOAD then h.handlers[conn := Delivering(m.id, m.chunk)]
    else h.handlers
  }

  lemma ReceiveIs(h: Host, conn: ConnId, m: Msg)
    ensures var g := ReceiveStep(h, conn, m);
            && g.tuns.Keys == h.tuns.Keys && g.handlers == Noted(h, conn, m)
            && forall id :: id in h.tuns ==> g.tuns[id] == Told(h.tuns[id], conn.agent, m, id)
  {
  }

  // A handler only ever holds a chunk of its own probe's tunnel; a chunk it gives up on belongs to a
  // tunnel that is out of the table; and only an established tunnel sends.
  lemma StreamOwner(h: Host, act: Action, id: Id)
    requires Inv(h) && Can(h, act) && id in h.tuns
    ensures QueuedNow(h, act, id) != [] ==> act.conn.agent == h.tuns[id].agent
    ensures (act.DeliverDone? || act.DeliverTimeout?) && h.handlers[act.conn].id == id ==>
              id in Step(h, act).tuns && !Step(h, act).tuns[id].finish.Live?
    ensures act.Post? && h.handlers[act.conn].id == id ==> act.conn.agent == h.tuns[id].agent
    ensures SentNow(h, act, id) != [] ==> Answered(h.tuns[id]) && 0 < |SentNow(h, act, id)[0]| <= CHUNK_SIZE
  {
    hide LiveIn, OutletInv;
    assert TunOk(h.tuns[id]);
    var src := h.tuns[id].src;
    assert src.pc.SrcSending? ==> src.read[|src.read| - 1] == src.pc.chunk;
  }

  // A removal keeps its cause, and done closes once, over everything queued so far.
  lemma SealStep(h: Host, act: Action, id: Id)
    requires Inv(h) && Can(h, act) && id in h.tuns
    ensures id in Step(h, act).tuns
    ensures var t, t' := h.tuns[id], Step(h, act).tuns[id];
            && (t.ending.ProbeClosed? ==> t'.ending.ProbeClosed?)
            && (t'.ending.ProbeClosed? && !t.ending.ProbeClosed? ==>
                  act.Receive? && act.msg == Close(id) && act.conn.agent == t.agent && t.finish.Live?)
            && (t.done ==> t'.done && t'.sealed == t.sealed)
            && (t'.done && !t.done ==> t'.sealed == |t'.out.accepted|)
  {
    hide LiveIn, LoopsOk, TunNext, LifeOk, TunCan;
    assert TunOk(h.tuns[id]);
    StillRunning(h.tuns[id]);
    if OfTunnel(act) { TunNextSeal(h.tuns[act.id], act); }
  }

  lemma StillRunning(t: Tunnel)
    requires LifeOk(t)
    ensures t.finish.Live? ==> t.ending.Running? && !t.done
  {
  }

  lemma TunNextSeal(t: Tunnel, act: Action)
    requires OfTunnel(act) && TunCan(t, act) && LifeOk(t)
    ensures var t' := TunNext(t, act);
            && (t'.ending.ProbeClosed? <==> t.ending.ProbeClosed?)
            && (t.done ==> t'.done && t'.sealed == t.sealed)
            && (t'.done && !t.done ==> t'.sealed == |t'.out.accepted|)
  {
  }

  lemma SealNew(h: Host, act: Action, id: Id)
    requires Can(h, act) && id in Step(h, act).tuns && id !in h.tuns
    ensures Step(h, act).tuns[id].ending.Running?
  {
    hide LiveIn;
  }

  // A removal that is over stays over with its cause, and after the client's end of stream nothing is sent.
  lemma EndStep(h: Host, act: Action, id: Id)
    requires Inv(h) && Can(h, act) && id in h.tuns
    ensures id in Step(h, act).tuns
    ensures var t, t' := h.tuns[id], Step(h, act).tuns[id];
            && (t.finish.Finished? ==> t'.finish.Finished? && t'.ending == t.ending)
            && (t.ending.ClientEnded? ==> t'.ending.ClientEnded? && t'.src == t.src && SentNow(h, act, id) == [])
            && (t'.ending.ClientEnded? && !t.ending.ClientEnded? ==> act == ClientEnd(id) && t.finish.Live?)
  {
    hide LiveIn, LoopsOk, TunNext, LifeOk, TunCan, Handled, Told;
    assert TunOk(h.tuns[id]);
    if OfTunnel(act) {
      TunNextEnd(h.tuns[act.id], act);
    } else if act.Receive? {
      ReceiveIs(h, act.conn, act.msg);
      ToldEnd(h.tuns[id], act.conn.agent, act.msg, id);
    } else if !act.Add? {
      HandlerStepIs(h, act);
      HandledEnd(h.tuns[id], h.handlers[act.conn], act);
    }
  }

  lemma TunNextEnd(t: Tunnel, act: Action)
    requires OfTunnel(act) && TunCan(t, act) && LifeOk(t)
    ensures var t' := TunNext(t, act);
            && (t.finish.Finished? ==> t'.finish.Finished? && t'.ending == t.ending)
            && (t.ending.ClientEnded? ==> t'.ending.ClientEnded? && t'.src == t.src && !act.ClientSend?)
            && (t'.ending.ClientEnded? && !t.ending.ClientEnded? ==> act.ClientEnd? && t.finish.Live?)
  {
  }

  lemma ToldEnd(t: Tunnel, agent: AgentId, m: Msg, id: Id)
    requires LifeOk(t)
    ensures var t' := Told(t, agent, m, id);
            && (t.finish.Finished? ==> t' == t) && (t.ending.ClientEnded? <==> t'.ending.ClientEnded?) && t'.src == t.src
  {
  }

  lemma HandledEnd(t: Tunnel, p: Handler, act: Action)
    requires ByHandler(act) && (act.DeliverOk? ==> p.Delivering?) && (act.Post? ==> p.Posting?) && LifeOk(t)
    ensures var t' := Handled(t, p, act);
            && (t.finish.Finished? ==> t'.finish.Finished? && t'.ending == t.ending)
            && (t.ending.ClientEnded? <==> t'.ending.ClientEnded?) && t'.src == t.src
  {
  }
}
