// Host, one probe and the websockets between them, over any number of connections of that probe.
//
// The probe ME is the real one of module Agent; other probes may send the host anything. A connection is a
// FIFO queue in each direction, of unbounded length (the bounded send buffer shows as sends that fail).
// When the connection goes down, what is on its way to the probe is lost, and so is whatever either side
// still manages to send. What is on its way to the host may be lost from some message on at any time; the
// rest is taken by the handler of that connection, which may go on after the probe is back on a new one.
// The probe reconnects after dropAll has emptied its table and closed what the receive loop dropped. A
// tunnel dropped by a goroutine of its own may still be waiting to be closed then, and go on sending.
module Relay {
  import opened Options
  import opened Wire
  import H = Host
  import A = Agent

  const ME: H.AgentId := "probe"

  // Connection number e of the probe.
  function Conn(e: nat): H.ConnId { H.ConnId(ME, e) }

  // lines: what is on its way to the host, one queue for each connection so far; the last is the current one.
  datatype State = State(
    host: H.Host, agent: A.Agent, toAgent: seq<Msg>, lines: seq<seq<Msg>>, up: bool,
    orderly: bool, harmless: bool, lossless: bool)

  // orderly, harmless and lossless record whether NoneLeft, Harmless and Lossless held at every reconnect so far.
  const START := State(H.START, A.START, [], [[]], true, true, true, true)

  datatype Action =
    | HostStep(h: H.Action)            // any host step but a message from ME
    | HostReceive(e: nat)              // the handler of connection e takes the next message
    | AgentStep(a: A.Action)           // any probe step but a message from the host
    | AgentReceive(ok: bool)           // the probe takes the next message
    | Disconnect
    | Lose(e: nat, n: nat)             // of connection e, only the next n messages will still arrive
    | Reconnect

  predicate Sends(h: H.Host, act: H.Action)
    requires H.Can(h, act)
  {
    H.OfTunnel(act) && h.tuns[act.id].agent == ME && H.OutputOf(h.tuns[act.id], act).Some?
  }

  predicate Can(s: State, act: Action) {
    s.lines != [] &&
    match act
    case HostStep(h) => H.Can(s.host, h) && !(h.Receive? && h.conn.agent == ME)
    case HostReceive(e) => e < |s.lines| && s.lines[e] != [] && H.Can(s.host, H.Receive(Conn(e), s.lines[e][0]))
    case AgentStep(a) => A.Shape(s.agent) && !a.Receive? && A.Can(s.agent, a)
    case AgentReceive(ok) => A.Shape(s.agent) && s.toAgent != [] && A.Can(s.agent, A.Receive(s.toAgent[0], ok))
    case Disconnect => true
    case Lose(e, n) => e < |s.lines| && n <= |s.lines[e]| && (s.up ==> e < |s.lines| - 1)
    case Reconnect =>
      && !s.up && s.agent.tabs == map[] && s.agent.recv.RecvIdle?
      && forall r :: 0 <= r < |s.agent.heap| && A.ByReceiver(s.agent.heap[r].cause) ==>
           !s.agent.heap[r].drop.Removed? && !s.agent.heap[r].drop.Closing?
  }

  // ---- what a reconnect can do to a stream ----

  // What Hub.Unregister ensures by DropAgent and Hub.Register does not.
  predicate NoneLeft(s: State) {
    forall id :: id in s.host.tuns && s.host.tuns[id].agent == ME ==> !s.host.tuns[id].finish.Live?
  }

  // The chunk that the handler of connection e is about to queue for the client of tunnel id.
  function Holding(s: State, e: nat, id: Id): seq<Chunk> {
    if Conn(e) in s.host.handlers && s.host.handlers[Conn(e)].Delivering? && s.host.handlers[Conn(e)].id == id
    then [s.host.handlers[Conn(e)].chunk] else []
  }

  // What connection e may still bring for that client.
  function Left(s: State, e: nat, id: Id): seq<Chunk>
    requires e < |s.lines| && id in s.host.tuns
  {
    Holding(s, e, id) + if s.host.tuns[id].finish.Live? then DataBefore(s.lines[e], id) else []
  }

  function Rest(s: State, id: Id): seq<seq<Chunk>>
    requires id in s.host.tuns
  {
    seq(|s.lines|, e requires 0 <= e < |s.lines| => Left(s, e, id))
  }

  function Total(parts: seq<seq<Chunk>>): nat {
    if parts == [] then 0 else Total(parts[..|parts| - 1]) + |parts[|parts| - 1]|
  }

  lemma {:induction false} TotalUpdate(parts: seq<seq<Chunk>>, e: nat, x: seq<Chunk>)
    requires e < |parts|
    ensures Total(parts[e := x]) == Total(parts) - |parts[e]| + |x|
  {
    var n := |parts| - 1;
    if e == n {
      assert parts[e := x][..n] == parts[..n];
    } else {
      TotalUpdate(parts[..n], e, x);
      assert parts[e := x][..n] == parts[..n][e := x];
    }
  }

  // However the parts, each in its own order, are interleaved and cut short, what they add to the taken
  // bytes stays within the bytes read.
  predicate Fits(taken: Chunk, parts: seq<seq<Chunk>>, read: Chunk)
    decreases Total(parts)
  {
    && taken <= read
    && forall e :: 0 <= e < |parts| && parts[e] != [] ==>
         (TotalUpdate(parts, e, parts[e][1..]); Fits(taken + parts[e][0], parts[e := parts[e][1..]], read))
  }

  // The client of the tunnel is served, or still may be.
  predicate Answerable(s: State, id: Id)
    requires id in s.host.tuns
  {
    var u := s.host.tuns[id];
    || H.Serving(u)
    || (H.Unanswered(u) && exists e :: 0 <= e < |s.lines| && Answers(s, e, id))
  }

  predicate Answers(s: State, e: nat, id: Id)
    requires e < |s.lines| && id in s.host.tuns
  {
    || (Conn(e) in s.host.handlers && s.host.handlers[Conn(e)] == H.Posting(id, true))
    || (s.host.tuns[id].finish.Live? && AnswerIn(s.lines[e], id))
  }

  // No tunnel the host still has for a client can get a hole: everything its probe sent has been queued, or
  // the probe can read no more for it and the chunks that are still held somewhere fit in any order.
  predicate Harmless(s: State) {
    forall r :: 0 <= r < |s.agent.heap| ==>
      var t := s.agent.heap[r];
      t.id in s.host.tuns && s.host.tuns[t.id].finish.Live? && Answerable(s, t.id) ==> Safe(s, t)
  }

  predicate Safe(s: State, t: A.Tab)
    requires t.id in s.host.tuns
  {
    || AllHere(s, t)
    || (A.Still(t) && Fits(Bytes(s.host.tuns[t.id].out.accepted), Rest(s, t.id) + [A.Pending(t)], Bytes(t.src.read)))
  }

  // Everything the probe has sent for the tunnel has been queued, and nothing is held anywhere.
  predicate AllHere(s: State, t: A.Tab)
    requires t.id in s.host.tuns
  {
    && (forall e :: 0 <= e < |s.lines| ==> Left(s, e, t.id) == [])
    && Bytes(s.host.tuns[t.id].out.accepted) == Bytes(t.src.sent)
  }

  // The target is through, the probe has yet to send the ProxyClose, and the host still has the tunnel.
  predicate Due(s: State, t: A.Tab) {
    && t.cause.EndOfStream? && !t.drop.Dropped?
    && t.id in s.host.tuns && s.host.tuns[t.id].finish.Live? && Answerable(s, t.id)
  }

  // The ProxyClose of such a tunnel will arrive on the new connection and end the client's stream as if it
  // were complete: it is, if everything the probe sent is here.
  predicate Lossless(s: State) {
    forall r :: 0 <= r < |s.agent.heap| && Due(s, s.agent.heap[r]) ==> AllHere(s, s.agent.heap[r])
  }

  // ---- steps ----

  function Put(q: seq<Msg>, m: Option<Msg>): seq<Msg> { if m.Some? then q + [m.value] else q }

  // A message to the host goes on the current connection; while that is down, it is lost.
  function Wired(s: State, m: Option<Msg>): seq<seq<Msg>>
    requires s.lines != []
  {
    if s.up then s.lines[|s.lines| - 1 := Put(s.lines[|s.lines| - 1], m)] else s.lines
  }

  function Step(s: State, act: Action): State
    requires Can(s, act)
  {
    match act
    case HostStep(h) =>
      s.(host := H.Step(s.host, h),
         toAgent := if s.up && Sends(s.host, h) then Put(s.toAgent, H.OutputOf(s.host.tuns[h.id], h)) else s.toAgent)
    case HostReceive(e) =>
      s.(host := H.Step(s.host, H.Receive(Conn(e), s.lines[e][0])), lines := s.lines[e := s.lines[e][1..]])
    case AgentStep(a) =>
      var (b, m) := A.Step(s.agent, a);
      s.(agent := b, lines := Wired(s, m))
    case AgentReceive(ok) =>
      var (b, m) := A.Step(s.agent, A.Receive(s.toAgent[0], ok));
      s.(agent := b, toAgent := s.toAgent[1..], lines := Wired(s, m))
    case Disconnect => s.(toAgent := [], up := false)
    case Lose(e, n) => s.(lines := s.lines[e := s.lines[e][..n]])
    case Reconnect =>
      s.(lines := s.lines + [[]], up := true, orderly := s.orderly && NoneLeft(s), harmless := s.harmless && Harmless(s),
         lossless := s.lossless && Lossless(s))
  }

  predicate SameFlags(s: State, s': State) {
    s'.orderly == s.orderly && s'.harmless == s.harmless && s'.lossless == s.lossless
  }

  function RunFrom(s: State, acts: seq<Action>): Option<State> {
    if acts == [] then Some(s)
    else
      var before := RunFrom(s, acts[..|acts| - 1]);
      if before.Some? && Can(before.value, acts[|acts| - 1]) then Some(Step(before.value, acts[|acts| - 1])) else None
  }

  function Run(acts: seq<Action>): Option<State> { RunFrom(START, acts) }

  // ---- which tunnel of the probe belongs to which tunnel of the host ----

  ghost predicate HasTab(s: State, id: Id) {
    exists r :: 0 <= r < |s.agent.heap| && s.agent.heap[r].id == id
  }

  // A chunk the receive loop has taken off the wire but not queued yet.
  function AgentHeld(s: State, r: A.Ref): seq<Chunk> {
    if s.agent.recv.RecvEnqueue? && s.agent.recv.tab == r then [s.agent.recv.chunk] else []
  }

  predicate Mine(s: State, id: Id) { id in s.host.tuns && s.host.tuns[id].agent == ME }

  // Every tunnel id is opened at most once, and a tunnel is only pumped after the probe dialled for it.
  ghost predicate Opening(s: State) {
    && (forall q, r :: 0 <= q < r < |s.agent.heap| ==> s.agent.heap[q].id != s.agent.heap[r].id)
    && (forall r :: 0 <= r < |s.agent.heap| ==>
          Mine(s, s.agent.heap[r].id) && !s.host.tuns[s.agent.heap[r].id].opener.OpSending?)
    && (forall k :: 0 <= k < |s.toAgent| && s.toAgent[k].Open? ==>
          Mine(s, s.toAgent[k].id) && !s.host.tuns[s.toAgent[k].id].opener.OpSending? && !HasTab(s, s.toAgent[k].id))
    && (forall k, l :: 0 <= k < l < |s.toAgent| && s.toAgent[k].Open? && s.toAgent[l].Open? ==> s.toAgent[k].id != s.toAgent[l].id)
  }

  // A good dial result comes from a tunnel of the probe.
  ghost predicate Established(s: State) {
    && (forall id :: Mine(s, id) && H.Answered(s.host.tuns[id]) ==> HasTab(s, id))
    && (forall c :: c in s.host.handlers && c.agent == ME ==>
          c.number < |s.lines| && (s.host.handlers[c].Posting? && s.host.handlers[c].ok ==> HasTab(s, s.host.handlers[c].id)))
    && (forall e :: 0 <= e < |s.lines| ==> GoodAnswers(s, s.lines[e]))
  }

  ghost predicate GoodAnswers(s: State, q: seq<Msg>) {
    forall k :: 0 <= k < |q| && q[k].OpenResult? && q[k].ok ==> HasTab(s, q[k].id)
  }

  // Client to target, for tunnel r of the probe: while its tunnel is in the probe's table nothing is
  // missing between the host's send and the write queue.
  ghost predicate UpLink(s: State, r: A.Ref)
    requires r < |s.agent.heap| && s.agent.heap[r].id in s.host.tuns
  {
    var t := s.agent.heap[r];
    var sent := s.host.tuns[t.id].src.sent;
    && t.out.accepted + AgentHeld(s, r) <= sent
    && (s.up && t.drop.InTable? ==> t.out.accepted + AgentHeld(s, r) + DataOf(s.toAgent, t.id) == sent)
  }

  ghost predicate Linked(s: State) {
    forall r :: 0 <= r < |s.agent.heap| ==> s.agent.heap[r].id in s.host.tuns && UpLink(s, r)
  }

  // Nothing of a tunnel the probe never opened is under way to it.
  ghost predicate Unopened(s: State) {
    && (forall id :: !HasTab(s, id) ==> DataOf(s.toAgent, id) == [])
    && (forall id :: Mine(s, id) && !HasTab(s, id) ==> s.host.tuns[id].src.sent == [])
  }

  ghost predicate Sized(q: seq<Msg>) {
    forall k :: 0 <= k < |q| && q[k].Data? ==> 0 < |q[k].chunk| <= CHUNK_SIZE
  }

  ghost predicate Inv(s: State) {
    && s.lines != [] && (!s.up ==> s.toAgent == [])
    && Sized(s.toAgent) && (forall e :: 0 <= e < |s.lines| ==> Sized(s.lines[e]))
    && H.Inv(s.host) && A.Inv(s.agent) && Opening(s) && Established(s) && Linked(s) && Unopened(s)
  }

  // ---- the probe's own steps ----

  lemma SameTabs(s: State, s': State)
    requires |s'.agent.heap| == |s.agent.heap|
    requires forall r :: 0 <= r < |s.agent.heap| ==> s'.agent.heap[r].id == s.agent.heap[r].id
    ensures forall id :: HasTab(s', id) <==> HasTab(s, id)
  {
    forall id ensures HasTab(s', id) <==> HasTab(s, id) {
      if HasTab(s, id) { var r :| 0 <= r < |s.agent.heap| && s.agent.heap[r].id == id; assert s'.agent.heap[r].id == id; }
      if HasTab(s', id) { var r :| 0 <= r < |s'.agent.heap| && s'.agent.heap[r].id == id; assert s.agent.heap[r].id == id; }
    }
  }

  // What a step puts on the current connection keeps every queue's sizes and good answers.
  lemma WiredKeeps(s: State, s': State, m: Option<Msg>)
    requires s.lines != [] && s'.lines == Wired(s, m) && (forall id :: HasTab(s, id) ==> HasTab(s', id))
    requires forall e :: 0 <= e < |s.lines| ==> Sized(s.lines[e]) && GoodAnswers(s, s.lines[e])
    requires m.Some? && m.value.Data? ==> 0 < |m.value.chunk| <= CHUNK_SIZE
    requires m.Some? && m.value.OpenResult? && m.value.ok ==> HasTab(s', m.value.id)
    ensures |s'.lines| == |s.lines| && forall e :: 0 <= e < |s'.lines| ==> Sized(s'.lines[e]) && GoodAnswers(s', s'.lines[e])
  {
    hide HasTab;
  }

  lemma AgentTabs(s: State, a: A.Action)
    requires Inv(s) && Can(s, AgentStep(a))
    ensures var s' := Step(s, AgentStep(a));
            && |s'.agent.heap| == |s.agent.heap|
            && (forall r :: 0 <= r < |s.agent.heap| ==> s'.agent.heap[r].id == s.agent.heap[r].id)
            && (forall id :: HasTab(s', id) <==> HasTab(s, id))
  {
    hide A.Step, A.Inv, A.Can, A.Shape, H.Inv, Opening, Established, Linked, Unopened, Sized;
    A.StepShape(s.agent, a);
    var s' := Step(s, AgentStep(a));
    forall r | 0 <= r < |s.agent.heap| ensures s'.agent.heap[r].id == s.agent.heap[r].id {
      A.StreamStep(s.agent, a, r);
    }
    SameTabs(s, s');
  }

  lemma AgentWires(s: State, a: A.Action)
    requires Inv(s) && Can(s, AgentStep(a))
    ensures var s' := Step(s, AgentStep(a)); Opening(s') && Established(s') && Unopened(s')
    ensures forall e :: 0 <= e < |Step(s, AgentStep(a)).lines| ==> Sized(Step(s, AgentStep(a)).lines[e])
  {
    hide A.Step, A.Inv, A.Can, A.Shape, H.Inv, H.Answered, Linked, Sized, HasTab, GoodAnswers, Wired;
    var s' := Step(s, AgentStep(a));
    AgentTabs(s, a);
    A.StreamOutput(s.agent, a);
    if A.Step(s.agent, a).1.Some? { TabOfOutput(s, a); }
    WiredKeeps(s, s', A.Step(s.agent, a).1);
  }

  lemma TabOfOutput(s: State, a: A.Action)
    requires Inv(s) && Can(s, AgentStep(a)) && A.Step(s.agent, a).1.Some?
    ensures HasTab(s, A.Step(s.agent, a).1.value.id)
  {
    hide A.Step, A.Inv, A.Can, A.Shape, H.Inv, Opening, Established, Linked, Unopened, Sized;
    A.StreamOutput(s.agent, a);
  }

  lemma AgentUp(s: State, a: A.Action, r: A.Ref)
    requires Inv(s) && Can(s, AgentStep(a)) && r < |s.agent.heap|
    ensures r < |Step(s, AgentStep(a)).agent.heap| && Step(s, AgentStep(a)).agent.heap[r].id in s.host.tuns
    ensures UpLink(Step(s, AgentStep(a)), r)
  {
    hide A.Step, A.Inv, A.Shape, H.Inv, Opening, Established, Unopened, Sized, DataOf, Linked, A.EnqueuedNow, Wired;
    A.StreamStep(s.agent, a, r);
    UpLinkAt(s, r);
    HeldMoves(s, a, r);
    Regroup(s.agent.heap[r].out.accepted, A.EnqueuedNow(s.agent, a, r), AgentHeld(Step(s, AgentStep(a)), r));
  }

  // The receiver's chunk is enqueued, or refused and gone, or stays where it is.
  lemma HeldMoves(s: State, a: A.Action, r: A.Ref)
    requires Inv(s) && Can(s, AgentStep(a)) && r < |s.agent.heap|
    requires Step(s, AgentStep(a)).agent.recv == if a.Enqueue? then A.RecvIdle else s.agent.recv
    ensures var now := A.EnqueuedNow(s.agent, a, r); var held := AgentHeld(Step(s, AgentStep(a)), r);
            || now + held == AgentHeld(s, r)
            || (now == [] && held == [] && a.Enqueue? && s.agent.recv.tab == r)
  {
    hide A.Step, A.Inv, H.Inv, Opening, Established, Unopened, Sized, DataOf, Linked, Wired;
  }

  lemma AgentKeeps(s: State, a: A.Action)
    requires Inv(s) && Can(s, AgentStep(a))
    ensures Inv(Step(s, AgentStep(a)))
  {
    hide A.Step, A.Inv, A.Can, A.Shape, H.Inv, Opening, Established, Unopened, Sized, UpLink;
    AgentWires(s, a);
    A.StepShape(s.agent, a);
    A.StepKeeps(s.agent, a);
    var s' := Step(s, AgentStep(a));
    forall r | 0 <= r < |s'.agent.heap| ensures s'.agent.heap[r].id in s'.host.tuns && UpLink(s', r) {
      AgentUp(s, a, r);
    }
  }

  // ---- messages taken by the probe ----

  lemma ReceiveTabs(s: State, ok: bool)
    requires Inv(s) && Can(s, AgentReceive(ok))
    ensures var s' := Step(s, AgentReceive(ok)); var m := s.toAgent[0]; var n := |s.agent.heap|;
            && (|s'.agent.heap| == n || (|s'.agent.heap| == n + 1 && m.Open? && s'.agent.heap[n] == A.NewTab(m.id)))
            && (forall r :: 0 <= r < n ==> s'.agent.heap[r].id == s.agent.heap[r].id)
            && (forall id :: HasTab(s', id) <==> HasTab(s, id) || (|s'.agent.heap| == n + 1 && id == m.id))
  {
    hide A.ReceiveStep, A.Inv, A.Shape, H.Inv, Opening, Established, Linked, Unopened, Sized, Wired;
    var s' := Step(s, AgentReceive(ok));
    A.ReceiveShape(s.agent, s.toAgent[0], ok);
    forall r | 0 <= r < |s.agent.heap| ensures s'.agent.heap[r].id == s.agent.heap[r].id {
      A.ReceiveOnTab(s.agent, s.toAgent[0], ok, r);
    }
    forall id ensures HasTab(s', id) <==> HasTab(s, id) || (|s'.agent.heap| == |s.agent.heap| + 1 && id == s.toAgent[0].id) {
      if HasTab(s, id) { var r :| 0 <= r < |s.agent.heap| && s.agent.heap[r].id == id; assert s'.agent.heap[r].id == id; }
      if |s'.agent.heap| == |s.agent.heap| + 1 { assert s'.agent.heap[|s.agent.heap|].id == s.toAgent[0].id; }
    }
  }

  lemma ReceiveOpening(s: State, ok: bool)
    requires Inv(s) && Can(s, AgentReceive(ok))
    ensures Opening(Step(s, AgentReceive(ok)))
  {
    hide A.ReceiveStep, A.Inv, A.Shape, H.Inv, H.Answered, Established, Linked, Unopened, Sized, Wired;
    ReceiveTabs(s, ok);
    assert s.toAgent[0].Open? ==> !HasTab(s, s.toAgent[0].id);
    forall r | 0 <= r < |s.agent.heap| ensures s.agent.heap[r].id != s.toAgent[0].id || !s.toAgent[0].Open? {
      assert HasTab(s, s.agent.heap[r].id);
    }
    hide HasTab;
  }

  lemma ReceiveWires(s: State, ok: bool)
    requires Inv(s) && Can(s, AgentReceive(ok))
    ensures var s' := Step(s, AgentReceive(ok)); Established(s') && Unopened(s') && Sized(s'.toAgent)
    ensures forall e :: 0 <= e < |Step(s, AgentReceive(ok)).lines| ==> Sized(Step(s, AgentReceive(ok)).lines[e])
  {
    hide A.ReceiveStep, A.Inv, A.Shape, H.Inv, Opening, Linked, Sized, HasTab, GoodAnswers, Wired;
    var s' := Step(s, AgentReceive(ok));
    ReceiveTabs(s, ok);
    A.ReceiveShape(s.agent, s.toAgent[0], ok);
    WiredKeeps(s, s', A.Step(s.agent, A.Receive(s.toAgent[0], ok)).1);
    SizedTail(s.toAgent);
  }

  lemma ReceiveUp(s: State, ok: bool, r: A.Ref)
    requires Inv(s) && Can(s, AgentReceive(ok)) && r < |s.agent.heap|
    ensures var s' := Step(s, AgentReceive(ok)); r < |s'.agent.heap| && s'.agent.heap[r].id in s'.host.tuns && UpLink(s', r)
  {
    hide A.ReceiveStep, A.Inv, A.Shape, H.Inv, Established, Unopened, Opening, Sized, DataOf, Linked, Wired;
    var m := s.toAgent[0];
    A.ReceiveOnTab(s.agent, m, ok, r);
    A.ReceiveShape(s.agent, m, ok);
    UpLinkAt(s, r);
    FirstSized(s.toAgent);
    var t := s.agent.heap[r];
    var now := FirstData(s.toAgent, t.id);
    Regroup(t.out.accepted, now, DataOf(s.toAgent[1..], t.id));
    assert AgentHeld(s, r) == [] && t.out.accepted + [] == t.out.accepted;
    assert t.drop.InTable? ==> AgentHeld(Step(s, AgentReceive(ok)), r) == now;
    assert !t.drop.InTable? ==> AgentHeld(Step(s, AgentReceive(ok)), r) == [];
  }

  lemma UpLinkAt(s: State, r: A.Ref)
    requires Linked(s) && r < |s.agent.heap|
    ensures s.agent.heap[r].id in s.host.tuns && UpLink(s, r)
  {
  }

  lemma FirstData(q: seq<Msg>, id: Id) returns (now: seq<Chunk>)
    requires q != []
    ensures now == if q[0].Data? && q[0].id == id then [q[0].chunk] else []
    ensures DataOf(q, id) == now + DataOf(q[1..], id)
  {
    now := if q[0].Data? && q[0].id == id then [q[0].chunk] else [];
  }

  lemma Regroup(a: seq<Chunk>, b: seq<Chunk>, c: seq<Chunk>)
    ensures a + (b + c) == a + b + c
  {
  }

  lemma FirstSized(q: seq<Msg>)
    requires Sized(q) && q != []
    ensures q[0].Data? ==> q[0].chunk != [] && |q[0].chunk| <= MAX_PAYLOAD
  {
  }

  lemma SizedTail(q: seq<Msg>)
    requires q != [] && Sized(q)
    ensures Sized(q[1..])
  {
  }

  lemma ReceiveNew(s: State, ok: bool)
    requires Inv(s) && Can(s, AgentReceive(ok)) && |Step(s, AgentReceive(ok)).agent.heap| == |s.agent.heap| + 1
    ensures var s' := Step(s, AgentReceive(ok)); var n := |s.agent.heap|;
            s'.agent.heap[n].id in s'.host.tuns && UpLink(s', n)
  {
    hide A.ReceiveStep, A.Inv, A.Shape, H.Inv, Established, Linked, Sized, HasTab, Wired;
    A.ReceiveShape(s.agent, s.toAgent[0], ok);
    var m := s.toAgent[0];
    assert Mine(s, m.id) && !HasTab(s, m.id);
  }

  lemma ReceiveKeeps(s: State, ok: bool)
    requires Inv(s) && Can(s, AgentReceive(ok))
    ensures Inv(Step(s, AgentReceive(ok)))
  {
    hide A.ReceiveStep, A.Inv, A.Shape, H.Inv, Opening, Established, Unopened, UpLink, HasTab, Sized;
    A.ReceiveKeeps(s.agent, s.toAgent[0], ok);
    ReceiveOpening(s, ok);
    ReceiveWires(s, ok);
    ReceiveTabs(s, ok);
    var s' := Step(s, AgentReceive(ok));
    forall r | 0 <= r < |s'.agent.heap| ensures s'.agent.heap[r].id in s'.host.tuns && UpLink(s', r) {
      if r < |s.agent.heap| { ReceiveUp(s, ok, r); } else { ReceiveNew(s, ok); }
    }
  }

  // ---- the host's own steps ----

  // What the host puts on the wire.
  function Emitted(s: State, h: H.Action): Option<Msg>
    requires H.Can(s.host, h)
  {
    if s.up && Sends(s.host, h) then H.OutputOf(s.host.tuns[h.id], h) else None
  }

  lemma EmittedFacts(s: State, h: H.Action)
    requires Inv(s) && Can(s, HostStep(h))
    ensures Step(s, HostStep(h)).toAgent == Put(s.toAgent, Emitted(s, h))
    ensures Emitted(s, h).Some? ==> s.up && Mine(s, Emitted(s, h).value.id)
    ensures Emitted(s, h).Some? && Emitted(s, h).value.Data? ==>
              H.SentNow(s.host, h, Emitted(s, h).value.id) == [Emitted(s, h).value.chunk]
    ensures Emitted(s, h).Some? && Emitted(s, h).value.Open? ==>
              var id := Emitted(s, h).value.id;
              && s.host.tuns[id].opener.OpSending?
              && id in Step(s, HostStep(h)).host.tuns && !Step(s, HostStep(h)).host.tuns[id].opener.OpSending?
    ensures forall id :: Mine(s, id) && H.SentNow(s.host, h, id) != [] && s.up ==>
              Emitted(s, h) == Some(Data(id, H.SentNow(s.host, h, id)[0])) && |H.SentNow(s.host, h, id)| == 1
  {
    hide A.Inv, H.Inv, Opening, Established, Linked, Unopened;
  }

  lemma HostUp(s: State, h: H.Action, r: A.Ref)
    requires Inv(s) && Can(s, HostStep(h)) && r < |s.agent.heap|
    ensures s.agent.heap[r].id in Step(s, HostStep(h)).host.tuns && UpLink(Step(s, HostStep(h)), r)
  {
    hide H.Step, H.Can, H.OutputOf, H.SentNow, A.Inv, H.Inv, Established, Unopened, Sends, Emitted;
    var id := s.agent.heap[r].id;
    assert UpLink(s, r) && Mine(s, id);
    H.StreamStep(s.host, h, id);
    EmittedFacts(s, h);
    var m := Emitted(s, h);
    if m.Some? { DataOfAppend(s.toAgent, m.value, id); }
  }

  lemma HostOpening(s: State, h: H.Action)
    requires Inv(s) && Can(s, HostStep(h))
    ensures Opening(Step(s, HostStep(h)))
  {
    hide H.Step, H.Can, H.OutputOf, H.Answered, A.Inv, H.Inv, Established, Linked, Unopened, Sends, Emitted;
    var s' := Step(s, HostStep(h));
    EmittedFacts(s, h);
    SameTabs(s, s');
    forall id | id in s.host.tuns
      ensures id in s'.host.tuns && s'.host.tuns[id].agent == s.host.tuns[id].agent
      ensures s'.host.tuns[id].opener.OpSending? ==> s.host.tuns[id].opener.OpSending?
    {
      H.StreamStep(s.host, h, id);
    }
    if Emitted(s, h).Some? && Emitted(s, h).value.Open? {
      assert !HasTab(s, Emitted(s, h).value.id);
    }
    hide HasTab;
  }

  // Handlers only finish in a host step, except those of other probes.
  lemma HostHandlers(s: State, h: H.Action)
    requires Can(s, HostStep(h))
    ensures forall c: H.ConnId :: c.agent == ME && c in Step(s, HostStep(h)).host.handlers ==>
              c in s.host.handlers && Step(s, HostStep(h)).host.handlers[c] == s.host.handlers[c] && !(H.ByHandler(h) && h.conn == c)
    ensures forall c: H.ConnId :: c.agent == ME && c in s.host.handlers && !(H.ByHandler(h) && h.conn == c) ==>
              c in Step(s, HostStep(h)).host.handlers
  {
    hide H.Take, H.Known, H.TunNext, H.ReceiveStep, H.LiveIn, H.Told;
    if h.Receive? {
      H.ReceiveIs(s.host, h.conn, h.msg);
    } else {
      H.HandlerStep(s.host, h);
    }
  }

  lemma HostEstablished(s: State, h: H.Action)
    requires Inv(s) && Can(s, HostStep(h))
    ensures Established(Step(s, HostStep(h)))
  {
    hide H.OutputOf, A.Inv, H.Inv, Opening, Linked, Unopened, Sends, HasTab, H.TunNext, H.LiveIn;
    var s' := Step(s, HostStep(h));
    SameTabs(s, s');
    HostHandlers(s, h);
    forall id | Mine(s', id) && H.Answered(s'.host.tuns[id]) ensures HasTab(s', id) {
      if id in s.host.tuns {
        hide H.Step;
        H.StreamStep(s.host, h, id);
        H.StreamOwner(s.host, h, id);
      }
    }
  }

  lemma HostQuietWire(s: State, h: H.Action)
    requires Inv(s) && Can(s, HostStep(h))
    ensures Sized(Step(s, HostStep(h)).toAgent)
    ensures forall id :: !HasTab(s, id) ==> DataOf(Step(s, HostStep(h)).toAgent, id) == []
  {
    hide H.Step, H.Can, H.OutputOf, H.Answered, A.Inv, H.Inv, Opening, Linked, Sends, HasTab, Emitted;
    EmittedFacts(s, h);
    var m := Emitted(s, h);
    if m.Some? { H.StreamOwner(s.host, h, m.value.id); }
    forall id | !HasTab(s, id) ensures DataOf(Step(s, HostStep(h)).toAgent, id) == [] {
      if m.Some? { DataOfAppend(s.toAgent, m.value, id); }
    }
  }

  lemma HostQuietTunnel(s: State, h: H.Action, id: Id)
    requires Inv(s) && Can(s, HostStep(h)) && Mine(Step(s, HostStep(h)), id) && !HasTab(s, id)
    ensures Step(s, HostStep(h)).host.tuns[id].src.sent == []
  {
    hide H.OutputOf, H.Answered, A.Inv, H.Inv, Opening, Linked, Sends, HasTab, H.TunNext, H.LiveIn;
    if id in s.host.tuns {
      hide H.Step;
      H.StreamStep(s.host, h, id);
      H.StreamOwner(s.host, h, id);
    }
  }

  lemma HostUnopened(s: State, h: H.Action)
    requires Inv(s) && Can(s, HostStep(h))
    ensures Unopened(Step(s, HostStep(h))) && Sized(Step(s, HostStep(h)).toAgent)
  {
    hide H.Step, H.Can, A.Inv, H.Inv, Opening, Established, Linked, Sized, Sends, HasTab;
    var s' := Step(s, HostStep(h));
    SameTabs(s, s');
    HostQuietWire(s, h);
    forall id | Mine(s', id) && !HasTab(s', id) ensures s'.host.tuns[id].src.sent == [] {
      HostQuietTunnel(s, h, id);
    }
  }

  lemma HostKeeps(s: State, h: H.Action)
    requires Inv(s) && Can(s, HostStep(h))
    ensures Inv(Step(s, HostStep(h)))
  {
    hide H.Step, H.Can, H.OutputOf, A.Inv, H.Inv, Opening, Established, Unopened, UpLink, Sized, Emitted, Sends;
    H.StepKeeps(s.host, h);
    EmittedFacts(s, h);
    HostOpening(s, h);
    HostEstablished(s, h);
    HostUnopened(s, h);
    var s' := Step(s, HostStep(h));
    forall r | 0 <= r < |s'.agent.heap| ensures s'.agent.heap[r].id in s'.host.tuns && UpLink(s', r) {
      HostUp(s, h, r);
    }
  }

  // ---- messages taken by the host ----

  lemma HostReceiveTunnels(s: State, e: nat)
    requires Can(s, HostReceive(e))
    ensures Step(s, HostReceive(e)).host.tuns.Keys == s.host.tuns.Keys
    ensures forall id :: id in s.host.tuns ==>
              var t, t' := s.host.tuns[id], Step(s, HostReceive(e)).host.tuns[id];
              t'.agent == t.agent && t'.src == t.src && t'.out == t.out && t'.opener == t.opener && t'.result == t.result
    ensures forall c :: c in Step(s, HostReceive(e)).host.handlers ==>
              || (c in s.host.handlers && Step(s, HostReceive(e)).host.handlers[c] == s.host.handlers[c])
              || (c == Conn(e) && s.lines[e][0].OpenResult?
                  && Step(s, HostReceive(e)).host.handlers[c] == H.Posting(s.lines[e][0].id, s.lines[e][0].ok))
              || (c == Conn(e) && s.lines[e][0].Data?
                  && Step(s, HostReceive(e)).host.handlers[c] == H.Delivering(s.lines[e][0].id, s.lines[e][0].chunk))
  {
    hide H.ReceiveStep;
    H.ReceiveIs(s.host, Conn(e), s.lines[e][0]);
  }

  lemma HostReceiveOpening(s: State, e: nat)
    requires Inv(s) && Can(s, HostReceive(e))
    ensures Opening(Step(s, HostReceive(e))) && Unopened(Step(s, HostReceive(e)))
  {
    hide A.Inv, H.Inv, H.Step, H.Can, H.Answered, Linked, Established, Sized, HasTab;
    SameTabs(s, Step(s, HostReceive(e)));
    HostReceiveTunnels(s, e);
  }

  lemma HostReceiveEstablished(s: State, e: nat)
    requires Inv(s) && Can(s, HostReceive(e))
    ensures Established(Step(s, HostReceive(e)))
    ensures forall i :: 0 <= i < |s.lines| ==> Sized(Step(s, HostReceive(e)).lines[i])
  {
    hide A.Inv, H.Inv, H.Step, H.Can, Linked, Opening, Unopened, Sized, HasTab;
    SameTabs(s, Step(s, HostReceive(e)));
    HostReceiveTunnels(s, e);
    SizedTail(s.lines[e]);
    assert GoodAnswers(s, s.lines[e]);
  }

  lemma HostReceiveKeeps(s: State, e: nat)
    requires Inv(s) && Can(s, HostReceive(e))
    ensures Inv(Step(s, HostReceive(e)))
  {
    hide H.Step, A.Inv, H.Inv, Opening, Established, Unopened, Sized;
    H.StepKeeps(s.host, H.Receive(Conn(e), s.lines[e][0]));
    HostReceiveOpening(s, e);
    HostReceiveEstablished(s, e);
    HostReceiveTunnels(s, e);
    var s' := Step(s, HostReceive(e));
    forall r | 0 <= r < |s'.agent.heap| ensures s'.agent.heap[r].id in s'.host.tuns && UpLink(s', r) {
      assert UpLink(s, r);
    }
  }

  // ---- connections that break and come back ----

  lemma BreakTabs(s: State, act: Action)
    requires Inv(s) && Can(s, act) && (act.Disconnect? || act.Lose? || act.Reconnect?)
    ensures var s' := Step(s, act); Opening(s') && Established(s') && Unopened(s')
    ensures forall e :: 0 <= e < |Step(s, act).lines| ==> Sized(Step(s, act).lines[e])
  {
    hide A.Inv, H.Inv, HasTab, H.Answered, Harmless, NoneLeft, Lossless, Linked;
    var s' := Step(s, act);
    SameTabs(s, s');
    if act.Lose? { assert GoodAnswers(s, s.lines[act.e]) && Sized(s.lines[act.e]); }
  }

  lemma BreakKeeps(s: State, act: Action)
    requires Inv(s) && Can(s, act) && (act.Disconnect? || act.Lose? || act.Reconnect?)
    ensures Inv(Step(s, act))
  {
    hide A.Inv, H.Inv, Harmless, NoneLeft, Lossless, Opening, Established, Unopened, HasTab, A.ByReceiver;
    BreakTabs(s, act);
    var s' := Step(s, act);
    forall r | 0 <= r < |s'.agent.heap| ensures s'.agent.heap[r].id in s'.host.tuns && UpLink(s', r) {
      assert UpLink(s, r);
      if act.Reconnect? { NoTable(s, r); }
    }
  }

  lemma NoTable(s: State, r: A.Ref)
    requires Inv(s) && s.agent.tabs == map[] && r < |s.agent.heap|
    ensures !s.agent.heap[r].drop.InTable?
  {
    assert A.TabInv(s.agent, r);
  }

  // ---- runs ----

  lemma StepKeeps(s: State, act: Action)
    requires Inv(s) && Can(s, act)
    ensures Inv(Step(s, act))
  {
    hide Inv, Can, Step;
    match act
    case HostStep(h) => HostKeeps(s, h);
    case HostReceive(e) => HostReceiveKeeps(s, e);
    case AgentStep(a) => AgentKeeps(s, a);
    case AgentReceive(ok) => ReceiveKeeps(s, ok);
    case _ => BreakKeeps(s, act);
  }

  lemma {:induction false} RunKeeps(acts: seq<Action>)
    requires Run(acts).Some?
    ensures Inv(Run(acts).value)
  {
    hide Step, Can, Inv;
    if acts == [] {
      StartInv();
    } else {
      RunKeeps(acts[..|acts| - 1]);
      StepKeeps(Run(acts[..|acts| - 1]).value, acts[|acts| - 1]);
    }
  }

  lemma StartInv()
    ensures Inv(START)
  {
    H.RunKeeps([]);
    A.RunKeeps([]);
  }

  lemma {:induction false} RunJoins(s: State, acts: seq<Action>, more: seq<Action>)
    requires RunFrom(s, acts).Some?
    ensures RunFrom(s, acts + more) == RunFrom(RunFrom(s, acts).value, more)
  {
    hide Step, Can;
    if more == [] {
      assert acts + more == acts;
    } else {
      RunJoins(s, acts, more[..|more| - 1]);
      assert (acts + more)[..|acts + more| - 1] == acts + more[..|more| - 1];
    }
  }

  // In every reachable state, whatever overflows, times out, fails, closes or reconnects: the bytes the
  // probe has written to a target are a prefix of the bytes the host has read from that tunnel's client.
  lemma TargetReceivesPrefix(acts: seq<Action>, r: A.Ref)
    requires Run(acts).Some? && r < |Run(acts).value.agent.heap|
    ensures var s := Run(acts).value; var t := s.agent.heap[r];
            t.id in s.host.tuns && Delivered(t.out) <= Bytes(s.host.tuns[t.id].src.read)
  {
    hide Run;
    RunKeeps(acts);
    var s := Run(acts).value;
    var t := s.agent.heap[r];
    var u := s.host.tuns[t.id];
    assert A.TabInv(s.agent, r) && UpLink(s, r) && H.TunOk(u);
    DeliveredPrefix(t.out, t.core.writes);
    BytesPrefix(t.out.accepted, u.src.read);
  }
}
