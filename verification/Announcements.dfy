// Each end tells the other about the tunnels it gives up, once, and answers what it is asked: which steps of
// a run must be followed by a ProxyClose and which must not, and what goes on the wire.
module Announcements {
  import opened Options
  import opened Wire
  import A = Agent
  import H = Host

  // ---- the probe gives a tunnel up ----

  // Steps that take tunnel r out of the probe's table and that the host is told about: a failed write to the
  // target, the target's end of stream, a full write channel, a chunk that does not decode or is too long.
  predicate ProbeTells(a: A.Agent, act: A.Action, r: A.Ref)
    requires r < |a.heap|
  {
    var t := a.heap[r];
    match act
    case WriteFail(q, _) => q == r
    case TargetEnd(q) => q == r
    case Enqueue => a.recv.RecvEnqueue? && a.recv.tab == r && |t.core.writes| >= 32
    case Receive(m, _) => m == Garbled(t.id) || (m.Data? && m.id == t.id && |m.chunk| > 65536)
    case _ => false
  }

  // And those it is not told about: a failed dial, a message that could not be sent, the host's own
  // ProxyClose, and the end of the connection.
  predicate ProbeKeepsQuiet(a: A.Agent, act: A.Action, r: A.Ref)
    requires r < |a.heap|
  {
    match act
    case DialFail(q) => q == r
    case Report(q, ok) => q == r && !ok
    case TargetSend(q, ok) => q == r && !ok
    case Receive(m, _) => m == Close(a.heap[r].id)
    case DropAll => true
    case _ => false
  }

  // How many announcements of tunnel r were made.
  function ProbeNotices(acts: seq<A.Action>, r: A.Ref): nat {
    if acts == [] then 0
    else ProbeNotices(acts[..|acts| - 1], r) + if acts[|acts| - 1].Notify? && acts[|acts| - 1].r == r then 1 else 0
  }

  // Whether a drop still has to announce the tunnel.
  function Owed(d: A.Drop): nat {
    match d
    case Removed(notify) => if notify then 1 else 0
    case Closing(notify) => if notify then 1 else 0
    case Notifying => 1
    case _ => 0
  }

  lemma DropIfLeaves(a: A.Agent, id: Id, only: Option<A.Ref>, notify: bool, cause: A.Cause, r: A.Ref)
    requires A.Inv(a) && r < |a.heap| && a.heap[r].drop.InTable?
    ensures var b := A.DropIf(a, id, only, notify, cause);
            && |b.heap| == |a.heap|
            && b.heap[r].drop == if a.heap[r].id == id && (only.None? || only.value == r) then A.Removed(notify) else A.InTable
  {
    hide A.TabOk;
    assert A.TabInv(a, r);
  }

  // A step of the tunnel's own goroutines takes it out, or not.
  lemma TabLeaves(a: A.Agent, act: A.Action, r: A.Ref)
    requires A.Inv(a) && A.Can(a, act) && A.OfTab(act) && r < |a.heap| && a.heap[r].drop.InTable?
    ensures r < |A.TabStep(a, act).0.heap|
    ensures var d := A.TabStep(a, act).0.heap[r].drop;
            d == if ProbeTells(a, act, r) then A.Removed(true) else if ProbeKeepsQuiet(a, act, r) then A.Removed(false) else A.InTable
  {
    hide A.TabOk;
    assert A.TabInv(a, r);
  }

  // These steps and no others take the tunnel out of the table.
  lemma ProbeLeaves(a: A.Agent, act: A.Action, r: A.Ref)
    requires A.Inv(a) && A.Can(a, act) && r < |a.heap| && a.heap[r].drop.InTable?
    ensures r < |A.Step(a, act).0.heap|
    ensures var d := A.Step(a, act).0.heap[r].drop;
            d == if ProbeTells(a, act, r) then A.Removed(true) else if ProbeKeepsQuiet(a, act, r) then A.Removed(false) else A.InTable
  {
    hide A.DropIf, A.TabStep, A.TabOk, A.Enqueued;
    assert A.TabInv(a, r);
    if A.OfTab(act) {
      TabLeaves(a, act, r);
    } else if act.Receive? {
      DropIfLeaves(a, act.msg.id, None, true, A.ReceiverFault, r);
      DropIfLeaves(a, act.msg.id, None, false, A.HostClosed, r);
    } else if act.Enqueue? {
      DropIfLeaves(a, a.heap[a.recv.tab].id, Some(a.recv.tab), true, A.ReceiverFault, r);
      OpenInTable(a, r);
      A.EnqueuedOk(a.heap[r], a.recv.chunk);
    }
  }

  lemma OpenInTable(a: A.Agent, r: A.Ref)
    requires A.Inv(a) && r < |a.heap|
    ensures a.heap[r].drop.InTable? ==> !a.heap[r].core.closed
  {
    hide A.LoopsOk;
    assert A.TabInv(a, r);
  }

  // Out of the table, what is owed is paid by the announcement and by nothing else.
  lemma ProbeOwes(a: A.Agent, act: A.Action, r: A.Ref)
    requires A.Inv(a) && A.Can(a, act) && r < |a.heap| && !a.heap[r].drop.InTable?
    ensures r < |A.Step(a, act).0.heap| && !A.Step(a, act).0.heap[r].drop.InTable?
    ensures Owed(A.Step(a, act).0.heap[r].drop) + (if act.Notify? && act.r == r then 1 else 0) == Owed(a.heap[r].drop)
  {
    hide A.Step, A.LoopsOk, A.LifeOk;
    A.OutOfTable(a, act, r);
  }

  lemma {:induction false} ProbeUntold(acts: seq<A.Action>, r: A.Ref)
    requires A.Run(acts).Some? && (r < |A.Run(acts).value.heap| ==> A.Run(acts).value.heap[r].drop.InTable?)
    ensures ProbeNotices(acts, r) == 0
  {
    hide A.Step, A.Inv, A.Can, A.Shape;
    if acts != [] {
      var front, act := acts[..|acts| - 1], acts[|acts| - 1];
      A.RunKeeps(front);
      ProbeBefore(A.Run(front).value, act, r);
      ProbeUntold(front, r);
    }
  }

  lemma ProbeBefore(a: A.Agent, act: A.Action, r: A.Ref)
    requires A.Inv(a) && A.Can(a, act)
    requires r < |A.Step(a, act).0.heap| ==> A.Step(a, act).0.heap[r].drop.InTable?
    ensures r < |a.heap| ==> a.heap[r].drop.InTable?
    ensures !(act.Notify? && act.r == r)
  {
    hide A.TabOk, A.Step;
    if r < |a.heap| {
      A.StepOnTab(a, act, r);
      if !a.heap[r].drop.InTable? { ProbeOwes(a, act, r); }
    }
  }

  lemma {:induction false} ProbeDebt(acts: seq<A.Action>, k: nat, r: A.Ref)
    requires A.Run(acts).Some? && k < |acts| && A.Run(acts[..k]).Some?
    requires r < |A.Run(acts[..k]).value.heap| && A.Run(acts[..k]).value.heap[r].drop.InTable?
    requires var a := A.Run(acts[..k]).value; ProbeTells(a, acts[k], r) || ProbeKeepsQuiet(a, acts[k], r)
    ensures var t := r; t < |A.Run(acts).value.heap| && !A.Run(acts).value.heap[r].drop.InTable?
    ensures ProbeNotices(acts, r) + Owed(A.Run(acts).value.heap[r].drop) ==
            if ProbeTells(A.Run(acts[..k]).value, acts[k], r) then 1 else 0
  {
    hide A.Step, A.Inv, A.Can, A.Shape, ProbeTells, ProbeKeepsQuiet;
    var front, act := acts[..|acts| - 1], acts[|acts| - 1];
    A.RunKeeps(front);
    if k == |acts| - 1 {
      ProbeUntold(front, r);
      ProbeLeaves(A.Run(front).value, act, r);
      TellsOnce(A.Run(front).value, act, r);
    } else {
      assert front[..k] == acts[..k];
      ProbeDebt(front, k, r);
      ProbeOwes(A.Run(front).value, act, r);
    }
  }

  lemma TellsOnce(a: A.Agent, act: A.Action, r: A.Ref)
    requires r < |a.heap| && (ProbeTells(a, act, r) || ProbeKeepsQuiet(a, act, r))
    ensures !act.Notify?
  {
  }

  // When the drop of a tunnel is over, the host has been told exactly once if the step that took the tunnel
  // out of the table is one to be told about, after that step, and never otherwise.
  lemma DropAnnounced(acts: seq<A.Action>, k: nat, r: A.Ref)
    requires A.Run(acts).Some? && k < |acts| && A.Run(acts[..k]).Some?
    requires r < |A.Run(acts[..k]).value.heap| && A.Run(acts[..k]).value.heap[r].drop.InTable?
    requires r < |A.Run(acts).value.heap| && A.Run(acts).value.heap[r].drop.Dropped?
    ensures ProbeTells(A.Run(acts[..k]).value, acts[k], r) ==> ProbeNotices(acts[..k], r) == 0 && ProbeNotices(acts, r) == 1
    ensures ProbeKeepsQuiet(A.Run(acts[..k]).value, acts[k], r) ==> ProbeNotices(acts, r) == 0
  {
    hide A.Run, ProbeTells, ProbeKeepsQuiet;
    var a := A.Run(acts[..k]).value;
    if ProbeTells(a, acts[k], r) || ProbeKeepsQuiet(a, acts[k], r) {
      ProbeUntold(acts[..k], r);
      ProbeDebt(acts, k, r);
      Exclusive(a, acts[k], r);
    }
  }

  lemma Exclusive(a: A.Agent, act: A.Action, r: A.Ref)
    requires r < |a.heap|
    ensures !(ProbeTells(a, act, r) && ProbeKeepsQuiet(a, act, r))
  {
  }

  // ---- what the probe says ----

  // Every message the probe puts on the wire, and when.
  lemma ProbeSays(a: A.Agent, act: A.Action, m: Msg)
    requires A.Inv(a) && A.Can(a, act)
    ensures A.Step(a, act).1 == Some(m) <==>
            match m
            case Close(id) => act.Notify? && act.ok && a.heap[act.r].id == id
            case Data(id, c) => act.TargetSend? && act.ok && a.heap[act.r].id == id && a.heap[act.r].src.pc == SrcSending(c)
            case OpenResult(id, true) => act.Report? && act.ok && a.heap[act.r].id == id
            case OpenResult(id, false) =>
              || (act.Refuse? && act.ok && a.heap[act.r].id == id)
              || (act.Receive? && act.ok && act.msg.Open? && act.msg.id == id
                  && (act.msg.host == "" || act.msg.port <= 0 || act.msg.port >= 65536 || id in a.tabs))
            case _ => false
  {
    hide A.DropIf, A.TabNext, A.TabOk;
  }

  // A request opens a tunnel exactly if it names a host and a port and the id is free.
  lemma RequestOpens(a: A.Agent, id: Id, host: string, port: int, ok: bool)
    requires A.Inv(a) && a.recv.RecvIdle?
    ensures var b := A.Step(a, A.Receive(Open(id, host, port), ok)).0;
            if host != "" && 0 < port < 65536 && id !in a.tabs
            then b.heap == a.heap + [A.NewTab(id)] && b.tabs == a.tabs[id := |a.heap|]
            else b == a
  {
    hide A.TabOk;
  }

  function Dials(acts: seq<A.Action>, r: A.Ref, failed: bool): nat {
    if acts == [] then 0
    else
      var act := acts[|acts| - 1];
      Dials(acts[..|acts| - 1], r, failed)
      + if (if failed then act == A.DialFail(r) else act == A.DialOk(r)) then 1 else 0
  }

  function Answers(acts: seq<A.Action>, r: A.Ref, good: bool): nat {
    if acts == [] then 0
    else
      var act := acts[|acts| - 1];
      Answers(acts[..|acts| - 1], r, good)
      + if (if good then act.Report? else act.Refuse?) && act.r == r then 1 else 0
  }

  ghost predicate DialerOk(acts: seq<A.Action>, a: A.Agent, r: A.Ref) {
    var fails, oks, bad, good := Dials(acts, r, true), Dials(acts, r, false), Answers(acts, r, false), Answers(acts, r, true);
    if r >= |a.heap| then fails == oks == bad == good == 0
    else match a.heap[r].dialer
      case Dialing => fails == oks == bad == good == 0
      case Connected => fails == bad == good == 0 && oks == 1
      case Reporting => fails == bad == good == 0 && oks == 1
      case Refusing => oks == bad == good == 0 && fails == 1
      case DialDone =>
        && fails + oks == 1 && bad == fails && good <= oks && (a.heap[r].conn.NoConn? <==> fails == 1)
        && (good == 0 && oks == 1 ==> a.heap[r].core.closed && a.heap[r].core.conn.None?)
  }

  lemma DialerKeeps(acts: seq<A.Action>, a: A.Agent, act: A.Action, r: A.Ref)
    requires A.Inv(a) && A.Can(a, act) && DialerOk(acts, a, r)
    ensures DialerOk(acts + [act], A.Step(a, act).0, r)
  {
    assert (acts + [act])[..|acts + [act]| - 1] == acts;
    hide A.Step, A.LoopsOk;
    if r < |a.heap| {
      assert A.TabInv(a, r);
      A.StepOnTab(a, act, r);
      hide A.TabNext, A.Enqueued;
      DialerAfter(a, act, r);
    } else {
      NewDialer(a, act, r);
    }
  }

  lemma NewDialer(a: A.Agent, act: A.Action, r: A.Ref)
    requires A.Inv(a) && A.Can(a, act) && r >= |a.heap|
    ensures r < |A.Step(a, act).0.heap| ==> A.Step(a, act).0.heap[r].dialer.Dialing? && act.Receive?
  {
    hide A.TabNext, A.TabOk, A.OutputOf;
    if act.Receive? { A.ReceiveShape(a, act.msg, act.ok); }
  }

  // The dialer of one tunnel over one step.
  lemma DialerAfter(a: A.Agent, act: A.Action, r: A.Ref)
    requires A.Shape(a) && A.Can(a, act) && r < |a.heap| && A.LifeOk(a.heap[r])
    ensures var t, t' := a.heap[r], A.TabAfter(a, act, r);
            && (act == A.DialFail(r) ==> t.dialer.Dialing? && t'.dialer.Refusing?)
            && (act == A.DialOk(r) ==> t.dialer.Dialing? && t'.dialer.Connected?)
            && (act.Refuse? && act.r == r ==> t.dialer.Refusing? && t'.dialer.DialDone? && t'.conn.NoConn?)
            && (act.Report? && act.r == r ==> t.dialer.Reporting? && t'.dialer.DialDone? && !t'.conn.NoConn?)
            && (act == A.SetConn(r) ==>
                  && t.dialer.Connected? && !t'.conn.NoConn?
                  && (t'.dialer.Reporting? || (t'.dialer.DialDone? && t'.core.closed && t'.core.conn.None?)))
            && (act == A.SetConn(r) || (act.Report? && act.r == r) || (act.Refuse? && act.r == r)
                || act == A.DialOk(r) || act == A.DialFail(r) || t'.dialer == t.dialer)
            && (t.dialer.DialDone? ==> (t'.conn.NoConn? <==> t.conn.NoConn?) && t'.core.conn == t.core.conn
                                       && (t.core.closed ==> t'.core.closed))
  {
    hide A.LoopsOk;
  }

  lemma {:induction false} DialerRun(acts: seq<A.Action>, r: A.Ref)
    requires A.Run(acts).Some?
    ensures DialerOk(acts, A.Run(acts).value, r)
  {
    hide A.Step, A.Inv, A.Can, A.Shape;
    if acts != [] {
      var front, act := acts[..|acts| - 1], acts[|acts| - 1];
      assert acts == front + [act];
      A.RunKeeps(front);
      DialerRun(front, r);
      hide DialerOk;
      DialerKeeps(front, A.Run(front).value, act, r);
    }
  }

  // Every request that opened a tunnel is dialled for once, and when the dialer is done a failed dial has been
  // refused once, and a successful one reported once, unless the tunnel was closed before its connection came.
  lemma RequestAnswered(acts: seq<A.Action>, r: A.Ref)
    requires A.Run(acts).Some? && r < |A.Run(acts).value.heap| && A.Run(acts).value.heap[r].dialer.DialDone?
    ensures var t := A.Run(acts).value.heap[r];
            if Dials(acts, r, true) == 1
            then Dials(acts, r, false) == 0 && Answers(acts, r, false) == 1 && Answers(acts, r, true) == 0
            else
              && Dials(acts, r, true) == 0 && Dials(acts, r, false) == 1 && Answers(acts, r, false) == 0
              && (Answers(acts, r, true) == 1 || (Answers(acts, r, true) == 0 && t.core.closed && t.core.conn.None?))
  {
    DialerRun(acts, r);
    hide A.Run, Dials, Answers;
  }

  // ---- the host gives a tunnel up ----

  // Steps that take tunnel id out of the host's table and that the probe is told about: the dial took too
  // long or its caller has gone, the client has closed, a failed write to it or a client too slow, a chunk that
  // does not decode or is too long, a revoked session.
  predicate HostTells(h: H.Host, act: H.Action, id: Id)
    requires id in h.tuns
  {
    match act
    case OpenTimeout(i) => i == id
    case AbandonOpen(i) => i == id
    case ClientEnd(i) => i == id
    case WriteFail(i, _) => i == id
    case Drop(i, notify) => i == id && notify
    case DeliverTimeout(conn) => conn in h.handlers && h.handlers[conn].id == id
    case Receive(conn, m) =>
      conn.agent == h.tuns[id].agent && (m == Garbled(id) || (m.Data? && m.id == id && |m.chunk| > 65536))
    case _ => false
  }

  // And those it is not told about: a message that could not be sent, a refused dial, the probe's own
  // ProxyClose, a probe that has disconnected.
  predicate HostKeepsQuiet(h: H.Host, act: H.Action, id: Id)
    requires id in h.tuns
  {
    match act
    case SendOpen(i, ok, _, _) => i == id && !ok
    case TakeResult(i) => i == id && h.tuns[id].result == Some(false)
    case ClientSend(i, ok) => i == id && !ok
    case Drop(i, notify) => i == id && !notify
    case Receive(conn, m) => conn.agent == h.tuns[id].agent && m == Close(id)
    case _ => false
  }

  function HostNotices(acts: seq<H.Action>, id: Id): nat {
    if acts == [] then 0
    else HostNotices(acts[..|acts| - 1], id) + if acts[|acts| - 1].Notice? && acts[|acts| - 1].id == id then 1 else 0
  }

  function Due(f: H.Finish): nat {
    match f
    case Removing(notify) => if notify then 1 else 0
    case Noticing => 1
    case _ => 0
  }

  // One tunnel over one step: what it becomes is what its own goroutine, a message or a handler makes of it.
  lemma HostStepIs(h: H.Host, act: H.Action, id: Id)
    requires H.Inv(h) && H.Can(h, act) && id in h.tuns
    ensures id in H.Step(h, act).tuns
    ensures var t, t' := h.tuns[id], H.Step(h, act).tuns[id];
            && (H.OfTunnel(act) ==> t' == if act.id == id then H.TunNext(t, act) else t)
            && (act.Receive? ==> t' == H.Told(t, act.conn.agent, act.msg, id))
            && (H.ByHandler(act) ==> t' == if h.handlers[act.conn].id == id then H.Handled(t, h.handlers[act.conn], act) else t)
            && (act.Add? ==> t' == t)
  {
    hide H.LiveIn, H.TunOk, H.ReceiveStep, H.TunNext, H.Told, H.Handled;
    if act.Receive? {
      H.ReceiveIs(h, act.conn, act.msg);
    } else if H.ByHandler(act) {
      H.HandlerStepIs(h, act);
    }
  }

  // These steps and no others take the tunnel out of the table.
  lemma HostLeaves(h: H.Host, act: H.Action, id: Id)
    requires H.Inv(h) && H.Can(h, act) && id in h.tuns && h.tuns[id].finish.Live?
    ensures id in H.Step(h, act).tuns
    ensures H.Step(h, act).tuns[id].finish ==
            if HostTells(h, act, id) then H.Removing(true) else if HostKeepsQuiet(h, act, id) then H.Removing(false) else H.Live
  {
    hide H.Step, H.Inv;
    HostStepIs(h, act, id);
    NotDone(h, id);
  }

  lemma NotDone(h: H.Host, id: Id)
    requires H.Inv(h) && id in h.tuns
    ensures h.tuns[id].finish.Live? ==> !h.tuns[id].done
  {
    hide H.LiveIn, H.LoopsOk;
    assert H.TunOk(h.tuns[id]);
  }

  lemma HostOwes(h: H.Host, act: H.Action, id: Id)
    requires H.Inv(h) && H.Can(h, act) && id in h.tuns && !h.tuns[id].finish.Live?
    ensures id in H.Step(h, act).tuns && !H.Step(h, act).tuns[id].finish.Live?
    ensures Due(H.Step(h, act).tuns[id].finish) + (if act.Notice? && act.id == id then 1 else 0) == Due(h.tuns[id].finish)
  {
    hide H.Step, H.Inv;
    HostStepIs(h, act, id);
    if H.OfTunnel(act) && act.id == id {
      TunOwes(h.tuns[id], act);
      hide *;
    }
  }

  lemma TunOwes(t: H.Tunnel, act: H.Action)
    requires H.OfTunnel(act) && H.TunCan(t, act) && !t.finish.Live?
    ensures !H.TunNext(t, act).finish.Live?
    ensures Due(H.TunNext(t, act).finish) + (if act.Notice? then 1 else 0) == Due(t.finish)
  {
  }

  lemma HostBefore(h: H.Host, act: H.Action, id: Id)
    requires H.Inv(h) && H.Can(h, act)
    requires id in H.Step(h, act).tuns ==> H.Step(h, act).tuns[id].finish.Live?
    ensures id in h.tuns ==> h.tuns[id].finish.Live?
    ensures !(act.Notice? && act.id == id)
  {
    hide H.Step, H.TunOk, H.LiveIn;
    if id in h.tuns && !h.tuns[id].finish.Live? { HostOwes(h, act, id); }
  }

  lemma {:induction false} HostUntold(acts: seq<H.Action>, id: Id)
    requires H.Run(acts).Some? && (id in H.Run(acts).value.tuns ==> H.Run(acts).value.tuns[id].finish.Live?)
    ensures HostNotices(acts, id) == 0
  {
    hide H.Step, H.Inv, H.Can;
    if acts != [] {
      var front, act := acts[..|acts| - 1], acts[|acts| - 1];
      H.RunKeeps(front);
      HostBefore(H.Run(front).value, act, id);
      HostUntold(front, id);
    }
  }

  lemma HostTellsOnce(h: H.Host, act: H.Action, id: Id)
    requires id in h.tuns
    ensures HostTells(h, act, id) || HostKeepsQuiet(h, act, id) ==> !act.Notice?
    ensures !(HostTells(h, act, id) && HostKeepsQuiet(h, act, id))
  {
  }

  lemma {:induction false} HostDebt(acts: seq<H.Action>, k: nat, id: Id)
    requires H.Run(acts).Some? && k < |acts| && H.Run(acts[..k]).Some?
    requires id in H.Run(acts[..k]).value.tuns && H.Run(acts[..k]).value.tuns[id].finish.Live?
    requires var h := H.Run(acts[..k]).value; HostTells(h, acts[k], id) || HostKeepsQuiet(h, acts[k], id)
    ensures id in H.Run(acts).value.tuns && !H.Run(acts).value.tuns[id].finish.Live?
    ensures HostNotices(acts, id) + Due(H.Run(acts).value.tuns[id].finish) ==
            if HostTells(H.Run(acts[..k]).value, acts[k], id) then 1 else 0
  {
    hide H.Step, H.Inv, H.Can, HostTells, HostKeepsQuiet;
    var front, act := acts[..|acts| - 1], acts[|acts| - 1];
    H.RunKeeps(front);
    if k == |acts| - 1 {
      HostUntold(front, id);
      HostLeaves(H.Run(front).value, act, id);
      HostTellsOnce(H.Run(front).value, act, id);
    } else {
      assert front[..k] == acts[..k];
      HostDebt(front, k, id);
      HostOwes(H.Run(front).value, act, id);
    }
  }

  // When a removal is over, the probe has been told exactly once if the step that took the tunnel out of the
  // table is one to be told about, after that step, and never otherwise.
  lemma RemovalAnnounced(acts: seq<H.Action>, k: nat, id: Id)
    requires H.Run(acts).Some? && k < |acts| && H.Run(acts[..k]).Some?
    requires id in H.Run(acts[..k]).value.tuns && H.Run(acts[..k]).value.tuns[id].finish.Live?
    requires id in H.Run(acts).value.tuns && H.Run(acts).value.tuns[id].finish.Finished?
    ensures HostTells(H.Run(acts[..k]).value, acts[k], id) ==> HostNotices(acts[..k], id) == 0 && HostNotices(acts, id) == 1
    ensures HostKeepsQuiet(H.Run(acts[..k]).value, acts[k], id) ==> HostNotices(acts, id) == 0
  {
    hide H.Run, HostTells, HostKeepsQuiet;
    var h := H.Run(acts[..k]).value;
    if HostTells(h, acts[k], id) || HostKeepsQuiet(h, acts[k], id) {
      HostUntold(acts[..k], id);
      HostDebt(acts, k, id);
      HostTellsOnce(h, acts[k], id);
    }
  }

  // A new tunnel is admitted exactly while its session has fewer than 64.
  lemma TunnelAdmitted(h: H.Host, id: Id, agent: H.AgentId, session: H.SessionId)
    requires H.Inv(h) && id !in h.tuns
    ensures var g := H.Step(h, H.Add(id, agent, session)); var live := set i | i in h.tuns && h.tuns[i].finish.Live? && h.tuns[i].session == session;
            if |live| < 64
            then g.tuns == h.tuns[id := H.NewTunnel(agent, session)] && g.handlers == h.handlers
            else g == h
  {
    hide H.TunOk;
    assert H.LiveIn(h, session) == set i | i in h.tuns && h.tuns[i].finish.Live? && h.tuns[i].session == session;
  }

  // Every message a goroutine of tunnel t puts on the wire, and when.
  lemma HostSays(t: H.Tunnel, act: H.Action, m: Msg)
    requires H.OfTunnel(act) && H.TunCan(t, act)
    ensures H.OutputOf(t, act) == Some(m) <==>
            match m
            case Open(id, host, port) => act == H.SendOpen(id, true, host, port)
            case Data(id, c) => act == H.ClientSend(id, true) && t.src.pc == SrcSending(c)
            case Close(id) => act == H.Notice(id, true)
            case _ => false
  {
  }
}
