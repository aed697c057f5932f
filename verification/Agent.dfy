// The probe's half of the tunnel protocol as a transition system. Every step is one critical section or
// one channel, dial, read or write operation of agent/internal/client/proxy.go; the goroutines are the
// receive loop, and per tunnel the dialer, the read loop, the write loop and whoever dropped it.
// Messages from the host are arbitrary here.
module Agent {
  import opened Options
  import opened Wire
  import opened ProxyTab

  // Position in heap of a tunnel; a tunnel keeps its position when it leaves the table.
  type Ref = nat

  // Where the dialled connection of a tunnel is: not there yet, returned by dial but not installed,
  // installed in the tunnel, taken out by close but not closed yet, closed.
  datatype ConnState = NoConn | InDial | Installed | Releasing | ConnClosed

  datatype Dialer = Dialing | Connected | Reporting | Refusing | DialDone

  // Progress of the one drop that takes a tunnel out of the table.
  datatype Drop = InTable | Removed(notify: bool) | Closing(notify: bool) | Notifying | Dropped

  // Who dropped the tunnel, and why: its read loop at the end of the target's stream, another failure of its
  // own goroutines, or the receive loop, on a ProxyClose or for a reason of its own.
  datatype Cause = NotDropped | EndOfStream | LoopFault | HostClosed | ReceiverFault

  // The receive loop closes what it drops before it does anything else.
  predicate ByReceiver(c: Cause) { c.HostClosed? || c.ReceiverFault? }

  datatype Tab = Tab(
    id: Id,
    core: Core<Ref>,
    conn: ConnState,
    dialer: Dialer,
    src: Source,      // read loop: target to host
    out: Outlet,      // write loop: host to target
    drop: Drop,
    cause: Cause,
    closes: nat       // how often the write channel was closed
  )

  datatype Receiver = RecvIdle | RecvEnqueue(tab: Ref, chunk: Chunk)

  datatype Agent = Agent(tabs: map<Id, Ref>, heap: seq<Tab>, recv: Receiver)

  const START := Agent(map[], [], RecvIdle)

  function NewTab(id: Id): Tab {
    Tab(id, Core(false, None, []), NoConn, Dialing, NEW_SOURCE, NEW_OUTLET, InTable, NotDropped, 0)
  }

  datatype Action =
    | Receive(msg: Msg, ok: bool)      // ok: whether a reply could be sent
    | Enqueue
    | DialOk(r: Ref) | DialFail(r: Ref) | Refuse(r: Ref, ok: bool)
    | SetConn(r: Ref) | Report(r: Ref, ok: bool)
    | TargetRead(r: Ref, chunk: Chunk) | TargetSend(r: Ref, ok: bool) | TargetEnd(r: Ref)
    | TakeWrite(r: Ref) | WriteOk(r: Ref) | WriteFail(r: Ref, n: nat) | WritesDone(r: Ref)
    | CloseTab(r: Ref) | ReleaseConn(r: Ref) | Notify(r: Ref, ok: bool)
    | DropAll

  // ---- steps ----

  predicate Shape(a: Agent) {
    && (forall id :: id in a.tabs ==> a.tabs[id] < |a.heap|)
    && (a.recv.RecvEnqueue? ==> a.recv.tab < |a.heap|)
  }

  function Remove(t: Tab, notify: bool, cause: Cause): Tab { t.(drop := Removed(notify), cause := cause) }

  // The table section of dropIf.
  function DropIf(a: Agent, id: Id, only: Option<Ref>, notify: bool, cause: Cause): Agent
    requires Shape(a)
  {
    var (tabs, hit) := DropEntry(a.tabs, id, only);
    if hit.None? then a else Agent(tabs, a.heap[hit.value := Remove(a.heap[hit.value], notify, cause)], a.recv)
  }

  function With(a: Agent, r: Ref, t: Tab): Agent
    requires r < |a.heap|
  {
    a.(heap := a.heap[r := t])
  }

  function Reply(ok: bool, m: Msg): Option<Msg> { if ok then Some(m) else None }

  // handleProxyMessage up to the point where it needs the tunnel's own lock.
  function ReceiveStep(a: Agent, m: Msg, ok: bool): (Agent, Option<Msg>)
    requires Shape(a) && a.recv.RecvIdle?
  {
    match m
    case Open(id, host, port) =>
      if port < 1 || port > 65535 || host == "" || id in a.tabs then (a, Reply(ok, OpenResult(id, false)))
      else (Agent(a.tabs[id := |a.heap|], a.heap + [NewTab(id)], a.recv), None)
    case Data(id, chunk) =>
      if chunk == [] then (a, None)
      else if |chunk| > MAX_PAYLOAD then (DropIf(a, id, None, true, ReceiverFault), None)
      else if id !in a.tabs then (a, None)
      else (a.(recv := RecvEnqueue(a.tabs[id], chunk)), None)
    case Garbled(id) => (DropIf(a, id, None, true, ReceiverFault), None)
    case Close(id) => (DropIf(a, id, None, false, HostClosed), None)
    case OpenResult(_, _) => (a, None)
  }

  // The tunnel after enqueue; unchanged when it is closed or its channel is full.
  function Enqueued(t: Tab, c: Chunk): Tab {
    var (core, ok) := EnqueueCore(t.core, c);
    if ok then t.(core := core, out := t.out.(accepted := t.out.accepted + [c])) else t
  }

  function EnqueueStep(a: Agent): Agent
    requires Shape(a) && a.recv.RecvEnqueue?
  {
    var r, t := a.recv.tab, a.heap[a.recv.tab];
    if EnqueueCore(t.core, a.recv.chunk).1 then With(a, r, Enqueued(t, a.recv.chunk)).(recv := RecvIdle)
    else DropIf(a, t.id, Some(r), true, ReceiverFault).(recv := RecvIdle)
  }

  predicate OfTab(act: Action) { !act.Receive? && !act.Enqueue? && !act.DropAll? }

  // When a goroutine of tunnel t can take the step. A closed connection neither delivers nor accepts bytes.
  predicate TabCan(t: Tab, act: Action)
    requires OfTab(act)
  {
    match act
    case DialOk(_) => t.dialer.Dialing?
    case DialFail(_) => t.dialer.Dialing?
    case Refuse(_, _) => t.dialer.Refusing?
    case SetConn(_) => t.dialer.Connected?
    case Report(_, _) => t.dialer.Reporting?
    case TargetRead(_, c) => t.src.pc.SrcReading? && !t.conn.ConnClosed? && 0 < |c| <= CHUNK_SIZE
    case TargetSend(_, _) => t.src.pc.SrcSending?
    case TargetEnd(_) => t.src.pc.SrcReading?
    case TakeWrite(_) => t.out.pc.OutSelecting? && t.core.writes != []
    case WriteOk(_) => t.out.pc.OutWriting? && !t.conn.ConnClosed?
    case WriteFail(_, n) => t.out.pc.OutWriting? && n <= |t.out.pc.chunk| && (t.conn.ConnClosed? ==> n == 0)
    case WritesDone(_) => t.out.pc.OutSelecting? && t.core.closed && t.core.writes == []
    case CloseTab(_) => t.drop.Removed?
    case ReleaseConn(_) => t.drop.Closing?
    case Notify(_, _) => t.drop.Notifying?
  }

  predicate Can(a: Agent, act: Action) {
    match act
    case Receive(_, _) => a.recv.RecvIdle?
    case Enqueue => a.recv.RecvEnqueue?
    case DropAll => true
    case _ => act.r < |a.heap| && TabCan(a.heap[act.r], act)
  }

  // What a goroutine of the tunnel does to the tunnel itself, before any dropIf that follows.
  function TabNext(t: Tab, act: Action): Tab
    requires OfTab(act) && TabCan(t, act)
  {
    match act
    case DialOk(_) => t.(dialer := Connected, conn := InDial)
    case DialFail(_) => t.(dialer := Refusing)
    case Refuse(_, _) => t.(dialer := DialDone)
    case SetConn(r) =>
      var (core, ok) := SetConnCore(t.core, r);
      if ok then t.(core := core, conn := Installed, dialer := Reporting, out := t.out.(pc := OutSelecting))
      else t.(conn := ConnClosed, dialer := DialDone)
    case Report(_, ok) => if ok then t.(dialer := DialDone, src := t.src.(pc := SrcReading)) else t.(dialer := DialDone)
    case TargetRead(_, c) => t.(src := SrcRead(t.src, c))
    case TargetSend(_, ok) => t.(src := SrcSend(t.src, ok))
    case TargetEnd(_) => t.(src := t.src.(pc := SrcEnded))
    case TakeWrite(_) => t.(core := t.core.(writes := t.core.writes[1..]), out := OutTake(t.out, t.core.writes[0]))
    case WriteOk(_) => t.(out := OutWrote(t.out))
    case WriteFail(_, n) => t.(out := OutFailed(t.out, n))
    case WritesDone(_) => t.(out := t.out.(pc := OutEnded(true)))
    case CloseTab(_) =>
      var (core, c) := CloseCore(t.core);
      t.(core := core, conn := if c.Some? then Releasing else t.conn, drop := Closing(t.drop.notify),
         closes := if t.core.closed then t.closes else t.closes + 1)
    case ReleaseConn(_) =>
      t.(conn := if t.conn.Releasing? then ConnClosed else t.conn, drop := if t.drop.notify then Notifying else Dropped)
    case Notify(_, _) => t.(drop := Dropped)
  }

  // The dropIf that follows, with the tunnel itself as the expected entry.
  datatype Fallout = Stays | Drops(notify: bool, cause: Cause)

  function FalloutOf(act: Action): Fallout {
    match act
    case DialFail(_) => Drops(false, LoopFault)
    case Report(_, ok) => if ok then Stays else Drops(false, LoopFault)
    case TargetSend(_, ok) => if ok then Stays else Drops(false, LoopFault)
    case TargetEnd(_) => Drops(true, EndOfStream)
    case WriteFail(_, _) => Drops(true, LoopFault)
    case _ => Stays
  }

  function OutputOf(t: Tab, act: Action): Option<Msg>
    requires OfTab(act) && TabCan(t, act)
  {
    match act
    case Refuse(_, ok) => Reply(ok, OpenResult(t.id, false))
    case Report(_, ok) => Reply(ok, OpenResult(t.id, true))
    case TargetSend(_, ok) => Reply(ok, Data(t.id, t.src.pc.chunk))
    case Notify(_, ok) => Reply(ok, Close(t.id))
    case _ => None
  }

  // The next state, and the message put on the connection to the host if any.
  function Step(a: Agent, act: Action): (Agent, Option<Msg>)
    requires Shape(a) && Can(a, act)
  {
    match act
    case Receive(m, ok) => ReceiveStep(a, m, ok)
    case Enqueue => (EnqueueStep(a), None)
    case DropAll =>
      (Agent(map[], seq(|a.heap|, i requires 0 <= i < |a.heap| =>
         if a.heap[i].drop.InTable? then Remove(a.heap[i], false, ReceiverFault) else a.heap[i]), a.recv), None)
    case _ => TabStep(a, act)
  }

  function TabStep(a: Agent, act: Action): (Agent, Option<Msg>)
    requires Shape(a) && Can(a, act) && OfTab(act)
  {
    var t := a.heap[act.r];
    var b := With(a, act.r, TabNext(t, act));
    match FalloutOf(act)
    case Stays => (b, OutputOf(t, act))
    case Drops(notify, cause) => (DropIf(b, t.id, Some(act.r), notify, cause), OutputOf(t, act))
  }

  // ---- what every step keeps ----

  // The read and write loops of a tunnel.
  ghost predicate LoopsOk(t: Tab) {
    && |t.core.writes| <= QUEUE_SIZE
    && OutletInv(t.out, t.core.writes)
    && SourceInv(t.src)
  }

  // The life of a tunnel and of its connection.
  ghost predicate LifeOk(t: Tab) {
    // Closed at the close of its one drop and only then.
    && (t.core.closed <==> t.drop.Closing? || t.drop.Notifying? || t.drop.Dropped?)
    && t.closes == (if t.core.closed then 1 else 0)
    && (t.cause.NotDropped? <==> t.drop.InTable?)
    // The connection is in the dialer's hands, installed in an unclosed tunnel, being released by the drop, or closed.
    && (t.conn.InDial? <==> t.dialer.Connected?)
    && (t.dialer.Dialing? || t.dialer.Refusing? ==> t.conn.NoConn?)
    && (t.dialer.Reporting? ==> !t.conn.NoConn?)
    && (t.conn.NoConn? ==> t.src.pc.SrcNotStarted?)
    && (t.conn.Installed? <==> t.core.conn.Some? && !t.core.closed)
    && (t.conn.Releasing? ==> t.drop.Closing?)
    && (t.core.conn.None? <==> t.out.pc.OutNotStarted?)
    && !t.out.pc.OutDraining? && !(t.out.pc.OutWriting? && t.out.pc.draining)
    && (t.conn.NoConn? || t.conn.InDial? ==> t.core.conn.None?)
    && (!t.dialer.DialDone? ==> t.src.pc.SrcNotStarted?)
    && (t.cause.EndOfStream? ==> t.src.pc.SrcEnded? && t.src.sent == t.src.read)
    && (t.cause.EndOfStream? && (t.drop.Removed? || t.drop.Closing?) ==> t.drop.notify)
  }

  ghost predicate TabOk(t: Tab) { LifeOk(t) && LoopsOk(t) }

  // In the table until it is dropped.
  ghost predicate TabInv(a: Agent, r: Ref)
    requires r < |a.heap|
  {
    && TabOk(a.heap[r])
    && (a.heap[r].drop.InTable? <==> a.heap[r].id in a.tabs && a.tabs[a.heap[r].id] == r)
  }

  ghost predicate Inv(a: Agent) {
    && Shape(a)
    && (forall id :: id in a.tabs ==> a.heap[a.tabs[id]].id == id)
    && (forall r :: 0 <= r < |a.heap| ==> TabInv(a, r))
  }

  predicate CanEnd(t: Tab) { t.src.pc.SrcEnded? && t.src.sent == t.src.read }

  lemma DropIfKeeps(a: Agent, id: Id, only: Option<Ref>, notify: bool, cause: Cause)
    requires Inv(a)
    requires cause.EndOfStream? ==> only.Some? && notify
    requires cause.EndOfStream? && only.value < |a.heap| ==> CanEnd(a.heap[only.value])
    requires !cause.NotDropped?
    ensures Inv(DropIf(a, id, only, notify, cause))
  {
    hide OutletInv, SourceInv;
    var b := DropIf(a, id, only, notify, cause);
    forall r | 0 <= r < |b.heap| ensures TabInv(b, r) {
      assert TabInv(a, r);
    }
  }

  lemma WithKeeps(a: Agent, r: Ref, t: Tab)
    requires Inv(a) && r < |a.heap| && t.id == a.heap[r].id && TabOk(t)
    requires t.drop.InTable? <==> a.heap[r].drop.InTable?
    ensures Inv(With(a, r, t))
  {
    hide TabOk;
    assert TabInv(a, r);
    forall q | 0 <= q < |a.heap| ensures TabInv(With(a, r, t), q) {
      assert TabInv(a, q);
    }
  }

  lemma ReceiveKeeps(a: Agent, m: Msg, ok: bool)
    requires Inv(a) && a.recv.RecvIdle?
    ensures Inv(ReceiveStep(a, m, ok).0)
  {
    hide OutletInv, SourceInv;
    match m
    case Open(id, host, port) =>
      var b := ReceiveStep(a, m, ok).0;
      assert OutletInv(NEW_OUTLET, []) && SourceInv(NEW_SOURCE) by { NewLoops(); }
      forall r | 0 <= r < |b.heap| ensures TabInv(b, r) {
        if r < |a.heap| { assert TabInv(a, r); }
      }
    case Data(id, chunk) =>
      DropIfKeeps(a, id, None, true, ReceiverFault);
      assert forall r :: 0 <= r < |a.heap| ==> TabInv(a, r);
      var b := ReceiveStep(a, m, ok).0;
      if b.recv.RecvEnqueue? {
        forall r | 0 <= r < |b.heap| ensures TabInv(b, r) { assert TabInv(a, r); }
      }
    case Garbled(id) => DropIfKeeps(a, id, None, true, ReceiverFault);
    case Close(id) => DropIfKeeps(a, id, None, false, HostClosed);
    case OpenResult(_, _) =>
  }

  lemma NewLoops()
    ensures OutletInv(NEW_OUTLET, []) && SourceInv(NEW_SOURCE)
  {
  }

  lemma RecvIrrelevant(a: Agent)
    requires Inv(a)
    ensures Inv(a.(recv := RecvIdle))
  {
    forall r | 0 <= r < |a.heap| ensures TabInv(a.(recv := RecvIdle), r) { assert TabInv(a, r); }
  }

  lemma EnqueuedOk(t: Tab, c: Chunk)
    requires TabOk(t)
    ensures TabOk(Enqueued(t, c))
    ensures Enqueued(t, c).id == t.id && Enqueued(t, c).drop == t.drop
  {
  }

  lemma EnqueueKeeps(a: Agent)
    requires Inv(a) && a.recv.RecvEnqueue?
    ensures Inv(EnqueueStep(a))
  {
    hide TabOk, Enqueued;
    var r, t, c := a.recv.tab, a.heap[a.recv.tab], a.recv.chunk;
    assert TabInv(a, r);
    EnqueuedOk(t, c);
    if EnqueueCore(t.core, c).1 {
      WithKeeps(a, r, Enqueued(t, c));
      RecvIrrelevant(With(a, r, Enqueued(t, c)));
    } else {
      DropIfKeeps(a, t.id, Some(r), true, ReceiverFault);
      RecvIrrelevant(DropIf(a, t.id, Some(r), true, ReceiverFault));
    }
  }

  lemma DropAllKeeps(a: Agent)
    requires Inv(a)
    ensures Inv(Step(a, DropAll).0)
  {
    hide OutletInv, SourceInv;
    var b := Step(a, DropAll).0;
    forall r | 0 <= r < |b.heap| ensures TabInv(b, r) { assert TabInv(a, r); }
  }

  lemma SourceNext(t: Tab, act: Action)
    requires OfTab(act) && TabCan(t, act) && LifeOk(t) && SourceInv(t.src)
    ensures SourceInv(TabNext(t, act).src)
  {
    hide OutletInv;
  }

  lemma OutletNext(t: Tab, act: Action)
    requires OfTab(act) && TabCan(t, act) && LifeOk(t) && |t.core.writes| <= QUEUE_SIZE && OutletInv(t.out, t.core.writes)
    ensures |TabNext(t, act).core.writes| <= QUEUE_SIZE && OutletInv(TabNext(t, act).out, TabNext(t, act).core.writes)
  {
    hide SourceInv, OutletInv;
    OutletMoves(t.out, t.core.writes);
    match act
    case TakeWrite(_) => OutletTakes(t.out, t.core.writes);
    case WriteOk(_) => OutletWrites(t.out, t.core.writes, 0);
    case WriteFail(_, n) => OutletWrites(t.out, t.core.writes, n);
    case _ =>
  }

  lemma LoopsNext(t: Tab, act: Action)
    requires OfTab(act) && TabCan(t, act) && LifeOk(t) && LoopsOk(t)
    ensures LoopsOk(TabNext(t, act))
  {
    hide TabNext, SourceInv, OutletInv, LifeOk;
    SourceNext(t, act);
    OutletNext(t, act);
  }

  lemma LifeNext(t: Tab, act: Action)
    requires OfTab(act) && TabCan(t, act) && LifeOk(t)
    ensures LifeOk(TabNext(t, act))
  {
  }

  lemma TabNextKeeps(a: Agent, act: Action)
    requires Inv(a) && Can(a, act) && OfTab(act)
    ensures TabOk(TabNext(a.heap[act.r], act))
    ensures TabNext(a.heap[act.r], act).id == a.heap[act.r].id
    ensures TabNext(a.heap[act.r], act).drop.InTable? <==> a.heap[act.r].drop.InTable?
    ensures FalloutOf(act).Drops? && FalloutOf(act).cause.EndOfStream? ==> CanEnd(TabNext(a.heap[act.r], act))
  {
    assert TabInv(a, act.r);
    hide LoopsOk, LifeOk;
    LoopsNext(a.heap[act.r], act);
    LifeNext(a.heap[act.r], act);
  }

  lemma TabStepKeeps(a: Agent, act: Action)
    requires Inv(a) && Can(a, act) && OfTab(act)
    ensures Inv(TabStep(a, act).0)
  {
    hide TabNext, OutputOf, TabOk;
    TabNextKeeps(a, act);
    var t := a.heap[act.r];
    var b := With(a, act.r, TabNext(t, act));
    WithKeeps(a, act.r, TabNext(t, act));
    match FalloutOf(act)
    case Stays =>
    case Drops(notify, cause) => DropIfKeeps(b, t.id, Some(act.r), notify, cause);
  }

  lemma StepKeeps(a: Agent, act: Action)
    requires Inv(a) && Can(a, act)
    ensures Inv(Step(a, act).0)
  {
    hide TabStep, TabInv;
    match act
    case Receive(m, ok) => ReceiveKeeps(a, m, ok);
    case Enqueue => EnqueueKeeps(a);
    case DropAll => DropAllKeeps(a);
    case _ => TabStepKeeps(a, act);
  }

  // ---- every run, whatever the host sends ----

  function Run(acts: seq<Action>): Option<Agent> {
    if acts == [] then Some(START)
    else
      var before := Run(acts[..|acts| - 1]);
      var act := acts[|acts| - 1];
      if before.Some? && Shape(before.value) && Can(before.value, act) then Some(Step(before.value, act).0) else None
  }

  lemma {:induction false} RunKeeps(acts: seq<Action>)
    requires Run(acts).Some?
    ensures Inv(Run(acts).value)
  {
    if acts != [] {
      var front := acts[..|acts| - 1];
      RunKeeps(front);
      StepKeeps(Run(front).value, acts[|acts| - 1]);
    }
  }

  // In every reachable state: table entries are open tunnels under their own id; a write channel is closed
  // at most once; and a dialled connection is with its dialer, installed in an unclosed tunnel, being
  // released by the drop that closed its tunnel, or closed. Once the tunnel's goroutines for dialling and
  // dropping are done, nothing is left open.
  lemma Ownership(acts: seq<Action>, r: Ref)
    requires Run(acts).Some? && r < |Run(acts).value.heap|
    ensures var a := Run(acts).value; var t := a.heap[r];
            && (t.id in a.tabs && a.tabs[t.id] == r <==> t.drop.InTable?)
            && (t.drop.InTable? ==> !t.core.closed)
            && t.closes <= 1 && (t.closes == 1 <==> t.core.closed)
            && (t.conn.InDial? ==> t.dialer.Connected?)
            && (t.conn.Installed? ==> !t.core.closed && t.core.conn.Some?)
            && (t.conn.Releasing? ==> t.drop.Closing?)
            && (t.drop.Dropped? && t.dialer.DialDone? ==> t.conn.NoConn? || t.conn.ConnClosed?)
    ensures forall id :: id in Run(acts).value.tabs ==>
              Run(acts).value.tabs[id] < |Run(acts).value.heap| && Run(acts).value.heap[Run(acts).value.tabs[id]].id == id
  {
    hide Run;
    RunKeeps(acts);
    assert TabInv(Run(acts).value, r);
  }

  // What a step makes of tunnel r, leaving aside whether it also takes it out of the table.
  function TabAfter(a: Agent, act: Action, r: Ref): Tab
    requires Shape(a) && Can(a, act) && r < |a.heap|
  {
    if OfTab(act) && act.r == r then TabNext(a.heap[r], act)
    else if act.Enqueue? && a.recv.tab == r then Enqueued(a.heap[r], a.recv.chunk)
    else a.heap[r]
  }

  predicate SameUpToDrop(t: Tab, u: Tab) { u.(drop := t.drop, cause := t.cause) == t }

  lemma DropIfOnTab(a: Agent, id: Id, only: Option<Ref>, notify: bool, cause: Cause, r: Ref)
    requires Shape(a) && r < |a.heap|
    ensures var b := DropIf(a, id, only, notify, cause);
            && |b.heap| == |a.heap| && SameUpToDrop(a.heap[r], b.heap[r])
            && (b.heap[r].drop == a.heap[r].drop || b.heap[r].drop.Removed?)
  {
  }

  lemma StepOnTab(a: Agent, act: Action, r: Ref)
    requires Shape(a) && Can(a, act) && r < |a.heap|
    ensures |a.heap| <= |Step(a, act).0.heap| <= |a.heap| + 1
    ensures SameUpToDrop(TabAfter(a, act, r), Step(a, act).0.heap[r])
    ensures Step(a, act).0.heap[r].drop == TabAfter(a, act, r).drop || Step(a, act).0.heap[r].drop.Removed?
  {
    hide TabNext, OutputOf, DropIf, Enqueued, TabStep;
    if OfTab(act) {
      TabStepOnTab(a, act, r);
    } else if act.Receive? {
      DropIfOnTab(a, act.msg.id, None, true, ReceiverFault, r);
      DropIfOnTab(a, act.msg.id, None, false, HostClosed, r);
    } else if act.Enqueue? {
      DropIfOnTab(a, a.heap[a.recv.tab].id, Some(a.recv.tab), true, ReceiverFault, r);
      EnqueuedRefused(a.heap[a.recv.tab], a.recv.chunk);
    }
  }

  lemma TabStepOnTab(a: Agent, act: Action, r: Ref)
    requires Shape(a) && Can(a, act) && OfTab(act) && r < |a.heap|
    ensures var h := TabStep(a, act).0.heap;
            && |h| == |a.heap| && SameUpToDrop(TabAfter(a, act, r), h[r])
            && (h[r].drop == TabAfter(a, act, r).drop || h[r].drop.Removed?)
  {
    hide TabNext, OutputOf, DropIf, FalloutOf, TabCan;
    var b, fall := With(a, act.r, TabNext(a.heap[act.r], act)), FalloutOf(act);
    if fall.Drops? { DropIfOnTab(b, a.heap[act.r].id, Some(act.r), fall.notify, fall.cause, r); }
  }

  lemma EnqueuedRefused(t: Tab, c: Chunk)
    ensures !EnqueueCore(t.core, c).1 ==> Enqueued(t, c) == t
  {
  }

  // A goroutine of one tunnel never touches another tunnel, even one that has meanwhile been opened under
  // the same id: a stale drop removes nothing.
  lemma StaleStepsHarmless(a: Agent, act: Action, r: Ref)
    requires Inv(a) && Can(a, act) && r < |a.heap|
    requires (OfTab(act) && act.r != r) || (act.Enqueue? && a.recv.tab != r)
    ensures r < |Step(a, act).0.heap| && Step(a, act).0.heap[r] == a.heap[r]
    ensures a.heap[r].id in a.tabs && a.tabs[a.heap[r].id] == r ==>
              a.heap[r].id in Step(a, act).0.tabs && Step(a, act).0.tabs[a.heap[r].id] == r
  {
    hide TabNext, OutputOf, TabOk;
    assert TabInv(a, r);
  }

  // After close the channel only drains: nothing is ever sent on it again, and it is not closed again.
  lemma NoSendAfterClose(a: Agent, act: Action, r: Ref)
    requires Inv(a) && Can(a, act) && r < |a.heap| && a.heap[r].core.closed
    ensures r < |Step(a, act).0.heap|
    ensures var t, t' := a.heap[r], Step(a, act).0.heap[r];
            && t'.core.closed && t'.closes == t.closes && t'.out.accepted == t.out.accepted
            && (t'.core.writes == t.core.writes || (t.core.writes != [] && t'.core.writes == t.core.writes[1..]))
  {
    hide Step, OutletInv, SourceInv;
    assert TabInv(a, r);
    StepOnTab(a, act, r);
  }

  // Once its connection is closed a tunnel delivers nothing more to the target.
  lemma FrozenWhenClosed(a: Agent, act: Action, r: Ref)
    requires Inv(a) && Can(a, act) && r < |a.heap| && a.heap[r].conn.ConnClosed?
    ensures r < |Step(a, act).0.heap|
    ensures Step(a, act).0.heap[r].conn.ConnClosed?
    ensures Delivered(Step(a, act).0.heap[r].out) == Delivered(a.heap[r].out)
  {
    hide Step, SourceInv;
    assert TabInv(a, r);
    StepOnTab(a, act, r);
  }

  // ---- what a step does to the streams of tunnel r ----

  function EnqueuedNow(a: Agent, act: Action, r: Ref): seq<Chunk>
    requires Shape(a) && Can(a, act) && r < |a.heap|
  {
    if act.Enqueue? && a.recv.tab == r && EnqueueCore(a.heap[r].core, a.recv.chunk).1 then [a.recv.chunk] else []
  }

  function SentNow(a: Agent, act: Action, r: Ref): seq<Chunk>
    requires Shape(a) && Can(a, act) && r < |a.heap|
  {
    if act == TargetSend(r, true) then [a.heap[r].src.pc.chunk] else []
  }

  lemma StepShape(a: Agent, act: Action)
    requires Shape(a) && Can(a, act) && !act.Receive?
    ensures |Step(a, act).0.heap| == |a.heap|
    ensures Step(a, act).0.recv == if act.Enqueue? then RecvIdle else a.recv
  {
    hide TabNext, OutputOf, Enqueued;
  }

  lemma StreamAfter(a: Agent, act: Action, r: Ref)
    requires Shape(a) && Can(a, act) && !act.Receive? && r < |a.heap|
    ensures var t, t' := a.heap[r], TabAfter(a, act, r);
            && t'.id == t.id
            && t'.out.accepted == t.out.accepted + EnqueuedNow(a, act, r)
            && t'.src.sent == t.src.sent + SentNow(a, act, r)
            && (t'.drop.InTable? <==> t.drop.InTable?)
  {
  }

  lemma StreamStep(a: Agent, act: Action, r: Ref)
    requires Inv(a) && Can(a, act) && !act.Receive? && r < |a.heap|
    ensures |Step(a, act).0.heap| == |a.heap|
    ensures Step(a, act).0.recv == if act.Enqueue? then RecvIdle else a.recv
    ensures var t, t' := a.heap[r], Step(a, act).0.heap[r];
            && t'.id == t.id
            && t'.out.accepted == t.out.accepted + EnqueuedNow(a, act, r)
            && t'.src.sent == t.src.sent + SentNow(a, act, r)
            && (t'.drop.InTable? ==> t.drop.InTable?)
            && (act.Enqueue? && a.recv.tab == r && EnqueuedNow(a, act, r) == [] ==> !t'.drop.InTable?)
  {
    hide TabOk, TabInv, TabAfter, EnqueueStep, TabStep, OutputOf, ReceiveStep;
    StepOnTab(a, act, r);
    StepShape(a, act);
    StreamAfter(a, act, r);
    if act.Enqueue? { EnqueueStream(a, r); }
  }

  lemma EnqueueStream(a: Agent, r: Ref)
    requires Inv(a) && a.recv.RecvEnqueue? && r < |a.heap|
    ensures a.recv.tab == r && !EnqueueCore(a.heap[r].core, a.recv.chunk).1 ==> !EnqueueStep(a).heap[r].drop.InTable?
  {
    hide TabOk, Enqueued;
    assert TabInv(a, r);
  }

  lemma StreamOutput(a: Agent, act: Action)
    requires Inv(a) && Can(a, act) && !act.Receive?
    ensures Step(a, act).1.Some? && Step(a, act).1.value.Data? ==>
              && act.TargetSend? && act.ok && act.r < |a.heap|
              && Step(a, act).1.value == Data(a.heap[act.r].id, a.heap[act.r].src.pc.chunk)
              && 0 < |a.heap[act.r].src.pc.chunk| <= CHUNK_SIZE
    ensures act.TargetSend? && act.ok ==> Step(a, act).1 == Some(Data(a.heap[act.r].id, a.heap[act.r].src.pc.chunk))
    ensures Step(a, act).1.Some? ==> exists r :: 0 <= r < |a.heap| && a.heap[r].id == Step(a, act).1.value.id
    ensures Step(a, act).1.Some? ==> !Step(a, act).1.value.Open?
  {
    hide TabNext, LifeOk;
    if OfTab(act) {
      assert TabInv(a, act.r);
      var src := a.heap[act.r].src;
      assert src.pc.SrcSending? ==> src.read[|src.read| - 1] == src.pc.chunk;
    }
  }

  lemma ReceiveOnTab(a: Agent, m: Msg, ok: bool, r: Ref)
    requires Inv(a) && a.recv.RecvIdle? && r < |a.heap|
    ensures r < |ReceiveStep(a, m, ok).0.heap|
    ensures SameUpToDrop(a.heap[r], ReceiveStep(a, m, ok).0.heap[r])
    ensures ReceiveStep(a, m, ok).0.heap[r].drop.InTable? ==> a.heap[r].drop.InTable?
    ensures m.Data? && m.chunk != [] && |m.chunk| <= MAX_PAYLOAD ==>
              (ReceiveStep(a, m, ok).0.recv == RecvEnqueue(r, m.chunk) <==> a.heap[r].id == m.id && a.heap[r].drop.InTable?)
  {
    hide TabOk;
    assert TabInv(a, r);
  }

  lemma ReceiveShape(a: Agent, m: Msg, ok: bool)
    requires Inv(a) && a.recv.RecvIdle?
    ensures var (b, out) := ReceiveStep(a, m, ok);
            && (|b.heap| == |a.heap| || (|b.heap| == |a.heap| + 1 && m.Open? && b.heap[|a.heap|] == NewTab(m.id)))
            && (out.Some? ==> ok && out.value == OpenResult(m.id, false))
            && (b.recv.RecvIdle? || (m.Data? && b.recv.chunk == m.chunk))
  {
    hide TabOk;
  }

  // ---- how a tunnel ends ----

  // A tunnel that can read nothing more from its target.
  predicate Still(t: Tab) { t.conn.ConnClosed? || t.src.pc.SrcEnded? }

  lemma DropIfOther(a: Agent, id: Id, only: Option<Ref>, notify: bool, cause: Cause, r: Ref)
    requires Shape(a) && r < |a.heap| && !(id in a.tabs && a.tabs[id] == r)
    ensures |DropIf(a, id, only, notify, cause).heap| == |a.heap| && DropIf(a, id, only, notify, cause).heap[r] == a.heap[r]
  {
  }

  lemma NotInTable(a: Agent, r: Ref)
    requires Inv(a) && r < |a.heap| && !a.heap[r].drop.InTable?
    ensures forall id :: id in a.tabs ==> a.tabs[id] != r
  {
    hide TabOk;
    assert TabInv(a, r);
  }

  // Once a tunnel is out of the table, only its own goroutines and a pending enqueue still touch it.
  lemma OutOfTable(a: Agent, act: Action, r: Ref)
    requires Inv(a) && Can(a, act) && r < |a.heap| && !a.heap[r].drop.InTable?
    ensures r < |Step(a, act).0.heap| && Step(a, act).0.heap[r] == TabAfter(a, act, r)
  {
    hide TabNext, OutputOf, DropIf, Enqueued, TabStep, TabCan, TabInv;
    NotInTable(a, r);
    if OfTab(act) {
      OutOfTableTab(a, act, r);
    } else if act.Receive? {
      DropIfOther(a, act.msg.id, None, true, ReceiverFault, r);
      DropIfOther(a, act.msg.id, None, false, HostClosed, r);
    } else if act.Enqueue? {
      DropIfOther(a, a.heap[a.recv.tab].id, Some(a.recv.tab), true, ReceiverFault, r);
      EnqueuedRefused(a.heap[a.recv.tab], a.recv.chunk);
    }
  }

  lemma OutOfTableTab(a: Agent, act: Action, r: Ref)
    requires Shape(a) && Can(a, act) && OfTab(act) && r < |a.heap| && forall id :: id in a.tabs ==> a.tabs[id] != r
    ensures r < |TabStep(a, act).0.heap| && TabStep(a, act).0.heap[r] == TabAfter(a, act, r)
  {
    hide TabNext, OutputOf, DropIf, FalloutOf, TabCan;
    var b, fall := With(a, act.r, TabNext(a.heap[act.r], act)), FalloutOf(act);
    if fall.Drops? { DropIfOther(b, a.heap[act.r].id, Some(act.r), fall.notify, fall.cause, r); }
  }

  // The drop of a tunnel is final: its cause never changes, and once the drop is over it stays over.
  lemma DropFinal(a: Agent, act: Action, r: Ref)
    requires Inv(a) && Can(a, act) && r < |a.heap|
    ensures r < |Step(a, act).0.heap|
    ensures var t, t' := a.heap[r], Step(a, act).0.heap[r];
            && t'.id == t.id
            && (t.drop.Dropped? ==> t'.drop.Dropped?)
            && (!t.drop.InTable? ==> !t'.drop.InTable? && t'.cause == t.cause)
            && (t.cause.EndOfStream? ==> t'.cause.EndOfStream? && t'.src == t.src)
  {
    assert TabInv(a, r);
    assert a.heap[r].cause.EndOfStream? ==> !a.heap[r].drop.InTable?;
    if a.heap[r].drop.InTable? {
      StepOnTab(a, act, r);
      AfterDrop(a, act, r);
    } else {
      OutOfTable(a, act, r);
      AfterDrop(a, act, r);
    }
    hide Step, TabAfter, TabInv, LifeOk, LoopsOk;
  }

  lemma AfterDrop(a: Agent, act: Action, r: Ref)
    requires Shape(a) && Can(a, act) && r < |a.heap| && LifeOk(a.heap[r])
    ensures var t, t' := a.heap[r], TabAfter(a, act, r);
            && t'.id == t.id && t'.cause == t.cause
            && (t'.drop.InTable? <==> t.drop.InTable?)
            && (t.drop.Dropped? ==> t'.drop.Dropped?)
            && (t.cause.EndOfStream? ==> t'.src == t.src)
  {
    hide TabNext, OutletInv, SourceInv;
    if OfTab(act) && act.r == r { TabNextDrop(a.heap[r], act); }
  }

  // A tunnel that sends a chunk has not come to the end of its stream.
  lemma SenderNotEnded(a: Agent, r: Ref)
    requires Inv(a) && Can(a, TargetSend(r, true))
    ensures r < |Step(a, TargetSend(r, true)).0.heap| && !Step(a, TargetSend(r, true)).0.heap[r].cause.EndOfStream?
  {
    hide LoopsOk;
    assert TabInv(a, r);
  }

  // One whose dial result goes out has not come to it either.
  lemma ReporterNotEnded(a: Agent, act: Action)
    requires Inv(a) && Can(a, act) && act.Report?
    ensures act.r < |Step(a, act).0.heap| && !Step(a, act).0.heap[act.r].cause.EndOfStream?
  {
    hide LoopsOk;
    assert TabInv(a, act.r);
  }

  lemma TabNextDrop(t: Tab, act: Action)
    requires OfTab(act) && TabCan(t, act) && LifeOk(t)
    ensures var t' := TabNext(t, act);
            && t'.id == t.id && t'.cause == t.cause
            && (t'.drop.InTable? <==> t.drop.InTable?)
            && (t.drop.Dropped? ==> t'.drop.Dropped?)
            && (t.cause.EndOfStream? ==> t'.src == t.src)
  {
  }

  // A ProxyClose is the last act of a drop.
  lemma CloseOutput(a: Agent, act: Action, id: Id)
    requires Inv(a) && Can(a, act) && Step(a, act).1 == Some(Close(id))
    ensures act.Notify? && act.r < |a.heap| && a.heap[act.r].id == id && a.heap[act.r].drop.Notifying?
    ensures act.r < |Step(a, act).0.heap| && Step(a, act).0.heap[act.r].drop.Dropped?
  {
    hide TabOk;
  }

  // A good dial result goes out before anything of the tunnel's stream.
  lemma AnswerFirst(a: Agent, act: Action, id: Id)
    requires Inv(a) && Can(a, act) && !act.Receive? && Step(a, act).1 == Some(OpenResult(id, true))
    ensures act.Report? && act.r < |a.heap| && a.heap[act.r].id == id && a.heap[act.r].src.sent == []
    ensures !a.heap[act.r].dialer.DialDone?
  {
    hide DropIf;
    if OfTab(act) { assert TabInv(a, act.r); }
  }

  // A tunnel that a dial result or a chunk is sent for has a dialer that is done.
  lemma SpeakerSettled(a: Agent, act: Action)
    requires Inv(a) && Can(a, act) && !act.Receive? && Step(a, act).1.Some?
    requires Step(a, act).1.value.OpenResult? || Step(a, act).1.value.Data?
    ensures OfTab(act) && act.r < |a.heap| && a.heap[act.r].id == Step(a, act).1.value.id
    ensures act.r < |Step(a, act).0.heap| && Step(a, act).0.heap[act.r].dialer.DialDone?
  {
    if OfTab(act) {
      assert TabInv(a, act.r);
      hide DropIf, LoopsOk;
      DropIfOnTab(With(a, act.r, TabNext(a.heap[act.r], act)), a.heap[act.r].id, Some(act.r), false, LoopFault, act.r);
    }
  }

  // Chunks read from the target but not sent yet.
  function Pending(t: Tab): seq<Chunk> { if t.src.pc.SrcSending? then [t.src.pc.chunk] else [] }

  lemma StillAfter(a: Agent, act: Action, r: Ref)
    requires Shape(a) && Can(a, act) && r < |a.heap| && LifeOk(a.heap[r])
    ensures var t, t' := a.heap[r], TabAfter(a, act, r);
            && t.src.read <= t'.src.read
            && (Still(t) ==> Still(t') && t'.src.read == t.src.read && SentNow(a, act, r) + Pending(t') <= Pending(t))
            && (t.dialer.DialDone? ==> t'.dialer.DialDone?)
  {
    hide OutletInv;
  }

  // A still tunnel stays still; it can only send the one chunk it holds.
  lemma StillStep(a: Agent, act: Action, r: Ref)
    requires Inv(a) && Can(a, act) && r < |a.heap|
    ensures r < |Step(a, act).0.heap|
    ensures var t, t' := a.heap[r], Step(a, act).0.heap[r];
            && t.src.read <= t'.src.read
            && (Still(t) ==> Still(t') && t'.src.read == t.src.read && SentNow(a, act, r) + Pending(t') <= Pending(t))
            && (t.dialer.DialDone? ==> t'.dialer.DialDone?)
  {
    hide Step, LoopsOk, TabAfter;
    assert TabInv(a, r);
    StepOnTab(a, act, r);
    StillAfter(a, act, r);
    hide LifeOk, TabInv;
  }

  lemma DropIfCause(a: Agent, id: Id, only: Option<Ref>, notify: bool, cause: Cause, r: Ref)
    requires Inv(a) && r < |a.heap|
    ensures var b := DropIf(a, id, only, notify, cause);
            && |b.heap| == |a.heap|
            && (b.heap[r].cause == a.heap[r].cause || (b.heap[r].cause == cause && a.heap[r].id == id && a.heap[r].drop.InTable?))
  {
    hide TabOk;
    assert TabInv(a, r);
  }

  // Only a ProxyClose for the tunnel in the table closes a tunnel on the host's word.
  lemma ClosedByHost(a: Agent, act: Action, r: Ref)
    requires Inv(a) && Can(a, act) && r < |a.heap|
    ensures r < |Step(a, act).0.heap|
    ensures Step(a, act).0.heap[r].cause.HostClosed? && !a.heap[r].cause.HostClosed? ==>
              act.Receive? && act.msg == Close(a.heap[r].id) && a.heap[r].drop.InTable?
  {
    hide TabNext, OutputOf, TabInv, DropIf, TabCan, Enqueued;
    if OfTab(act) {
      TabStepCause(a, act, r);
    } else if act.Receive? {
      DropIfCause(a, act.msg.id, None, true, ReceiverFault, r);
      DropIfCause(a, act.msg.id, None, false, HostClosed, r);
    } else if act.Enqueue? {
      DropIfCause(a, a.heap[a.recv.tab].id, Some(a.recv.tab), true, ReceiverFault, r);
      EnqueuedCause(a.heap[a.recv.tab], a.recv.chunk);
    }
  }

  lemma EnqueuedCause(t: Tab, c: Chunk)
    ensures Enqueued(t, c).cause == t.cause
  {
  }

  lemma TabStepCause(a: Agent, act: Action, r: Ref)
    requires Inv(a) && Can(a, act) && OfTab(act) && r < |a.heap|
    ensures r < |TabStep(a, act).0.heap|
    ensures TabStep(a, act).0.heap[r].cause.HostClosed? ==> a.heap[r].cause.HostClosed?
  {
    hide TabNext, OutputOf, TabOk, TabCan;
    TabNextCause(a.heap[act.r], act);
  }

  lemma TabNextCause(t: Tab, act: Action)
    requires OfTab(act) && TabCan(t, act)
    ensures TabNext(t, act).cause == t.cause && TabNext(t, act).id == t.id
  {
  }

  // Closed, and its connection, if it ever had one, closed as well.
  predicate Shut(t: Tab) { t.core.closed && !t.conn.Releasing? }

  // Such a tunnel accepts and delivers nothing more.
  lemma ShutStays(a: Agent, act: Action, r: Ref)
    requires Inv(a) && Can(a, act) && r < |a.heap| && Shut(a.heap[r])
    ensures r < |Step(a, act).0.heap|
    ensures var t, t' := a.heap[r], Step(a, act).0.heap[r];
            Shut(t') && t'.out.accepted == t.out.accepted && Delivered(t'.out) == Delivered(t.out)
  {
    hide Step, TabAfter, LoopsOk, LifeOk, Delivered;
    assert TabInv(a, r);
    StepOnTab(a, act, r);
    ShutAfter(a, act, r);
  }

  lemma ShutAfter(a: Agent, act: Action, r: Ref)
    requires Shape(a) && Can(a, act) && r < |a.heap| && Shut(a.heap[r]) && TabOk(a.heap[r])
    ensures var t, t' := a.heap[r], TabAfter(a, act, r);
            Shut(t') && t'.out.accepted == t.out.accepted && Delivered(t'.out) == Delivered(t.out)
  {
    hide SourceInv, Bytes;
  }
}
