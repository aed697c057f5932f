// No goroutine outlives its tunnel: once a tunnel has been dropped, whatever else happens, its goroutines take
// a bounded number of steps more, and only a goroutine that has ended can take none.
module Goroutines {
  import opened Wire
  import A = Agent
  import H = Host

  // ---- the probe ----

  predicate ProbeStep(act: A.Action, r: A.Ref) { A.OfTab(act) && act.r == r }

  // Dialer, read loop and write loop have returned, and the connection, if there ever was one, is closed.
  predicate ProbeDone(t: A.Tab) {
    && t.dialer.DialDone? && (t.src.pc.SrcNotStarted? || t.src.pc.SrcEnded?)
    && (t.out.pc.OutNotStarted? || t.out.pc.OutEnded?) && (t.conn.NoConn? || t.conn.ConnClosed?)
  }

  // A bound on the steps that are left.
  function ProbeLeft(t: A.Tab): nat {
    (match t.dialer case Dialing => 5 case Connected => 4 case Reporting => 4 case Refusing => 1 case DialDone => 0)
    + (match t.src.pc case SrcNotStarted => 0 case SrcReading => 1 case SrcSending(_) => 2 case SrcEnded => 0)
    + (match t.out.pc case OutNotStarted => 0 case OutSelecting => 2 case OutDraining => 2 case OutWriting(_, _) => 1 case OutEnded(_) => 0)
  }

  // From the moment it is out of the table until its drop is over, whoever dropped it can go on.
  lemma ProbeDrops(t: A.Tab, r: A.Ref)
    requires !t.drop.InTable? && !t.drop.Dropped?
    ensures exists act :: ProbeStep(act, r) && (act.CloseTab? || act.ReleaseConn? || act.Notify?) && A.TabCan(t, act)
  {
    assert t.drop.Removed? ==> A.TabCan(t, A.CloseTab(r));
    assert t.drop.Closing? ==> A.TabCan(t, A.ReleaseConn(r));
    assert t.drop.Notifying? ==> A.TabCan(t, A.Notify(r, true));
  }

  // A goroutine that has not ended can go on.
  lemma ProbeCanEnd(a: A.Agent, r: A.Ref)
    requires A.Inv(a) && r < |a.heap| && a.heap[r].drop.Dropped? && !ProbeDone(a.heap[r])
    ensures exists act :: ProbeStep(act, r) && A.Can(a, act)
  {
    var t := a.heap[r];
    DroppedClosed(a, r);
    hide A.Inv;
    if t.dialer.Dialing? { assert A.Can(a, A.DialFail(r)); }
    else if t.dialer.Connected? { assert A.Can(a, A.SetConn(r)); }
    else if t.dialer.Refusing? { assert A.Can(a, A.Refuse(r, true)); }
    else if t.dialer.Reporting? { assert A.Can(a, A.Report(r, true)); }
    else if t.src.pc.SrcReading? { assert A.Can(a, A.TargetEnd(r)); }
    else if t.src.pc.SrcSending? { assert A.Can(a, A.TargetSend(r, true)); }
    else if t.out.pc.OutWriting? { assert A.Can(a, A.WriteFail(r, 0)); }
    else if t.core.writes != [] { assert A.Can(a, A.TakeWrite(r)); }
    else { assert A.Can(a, A.WritesDone(r)); }
  }

  lemma DroppedClosed(a: A.Agent, r: A.Ref)
    requires A.Inv(a) && r < |a.heap| && a.heap[r].drop.Dropped?
    ensures var t := a.heap[r];
            && t.core.closed && !t.out.pc.OutDraining? && !t.conn.Installed? && !t.conn.Releasing?
            && (t.conn.InDial? ==> t.dialer.Connected?) && (t.conn.NoConn? ==> t.src.pc.SrcNotStarted?)
            && (t.dialer.Connected? || t.dialer.Dialing? || t.dialer.Refusing? || t.dialer.Reporting? ==> t.src.pc.SrcNotStarted?)
            && (t.dialer.Connected? ==> t.conn.InDial?)
  {
    hide A.LoopsOk;
    assert A.TabInv(a, r);
  }

  // Its steps are numbered, and no other step touches it.
  lemma TabWinds(t: A.Tab, act: A.Action)
    requires A.OfTab(act) && A.TabCan(t, act) && t.drop.Dropped? && t.core.closed
    requires A.LifeOk(t)
    ensures A.TabNext(t, act).drop.Dropped? && ProbeLeft(A.TabNext(t, act)) < ProbeLeft(t)
  {
  }

  lemma ProbeWinds(a: A.Agent, act: A.Action, r: A.Ref)
    requires A.Inv(a) && A.Can(a, act) && r < |a.heap| && a.heap[r].drop.Dropped?
    ensures r < |A.Step(a, act).0.heap| && A.Step(a, act).0.heap[r].drop.Dropped?
    ensures ProbeStep(act, r) ==> ProbeLeft(A.Step(a, act).0.heap[r]) < ProbeLeft(a.heap[r])
    ensures !ProbeStep(act, r) ==> A.Step(a, act).0.heap[r] == a.heap[r]
  {
    hide A.Step, A.LoopsOk, ProbeLeft;
    DroppedClosed(a, r);
    A.OutOfTable(a, act, r);
    assert A.TabInv(a, r);
    if ProbeStep(act, r) { TabWinds(a.heap[r], act); }
    hide A.LifeOk, A.TabNext, A.TabCan;
  }

  function ProbeSteps(acts: seq<A.Action>, r: A.Ref): nat {
    if acts == [] then 0 else ProbeSteps(acts[..|acts| - 1], r) + if ProbeStep(acts[|acts| - 1], r) then 1 else 0
  }

  lemma {:induction false} ProbeCountdown(acts: seq<A.Action>, k: nat, r: A.Ref)
    requires A.Run(acts).Some? && k <= |acts| && A.Run(acts[..k]).Some?
    requires r < |A.Run(acts[..k]).value.heap| && A.Run(acts[..k]).value.heap[r].drop.Dropped?
    ensures r < |A.Run(acts).value.heap| && A.Run(acts).value.heap[r].drop.Dropped?
    ensures ProbeSteps(acts, r) - ProbeSteps(acts[..k], r) + ProbeLeft(A.Run(acts).value.heap[r])
            <= ProbeLeft(A.Run(acts[..k]).value.heap[r])
  {
    hide A.Step, A.Inv, A.Can, A.Shape, ProbeLeft, ProbeStep;
    if k == |acts| {
      assert acts[..k] == acts;
    } else {
      var front := acts[..|acts| - 1];
      assert front[..k] == acts[..k];
      ProbeCountdown(front, k, r);
      A.RunKeeps(front);
      ProbeWinds(A.Run(front).value, acts[|acts| - 1], r);
    }
  }

  // After its drop is over, the goroutines of a tunnel take at most nine steps together, however the run goes
  // on; and when none of them can take another, all have ended and the connection is closed.
  lemma ProbeGoroutinesEnd(acts: seq<A.Action>, k: nat, r: A.Ref)
    requires A.Run(acts).Some? && k <= |acts| && A.Run(acts[..k]).Some?
    requires r < |A.Run(acts[..k]).value.heap| && A.Run(acts[..k]).value.heap[r].drop.Dropped?
    ensures ProbeSteps(acts, r) <= ProbeSteps(acts[..k], r) + 9 && r < |A.Run(acts).value.heap|
    ensures (forall act :: A.Can(A.Run(acts).value, act) ==> !ProbeStep(act, r)) <==> ProbeDone(A.Run(acts).value.heap[r])
  {
    ProbeCountdown(acts, k, r);
    A.RunKeeps(acts);
    var a := A.Run(acts).value;
    if ProbeDone(a.heap[r]) {
      forall act | A.Can(a, act) ensures !ProbeStep(act, r) {
        if ProbeStep(act, r) { ProbeWinds(a, act, r); }
      }
    } else {
      ProbeCanEnd(a, r);
    }
  }

  // ---- the host ----

  // Steps of the opener, the writer to the client and the finish. The reader waits for the client.
  predicate HostStep(act: H.Action, id: Id) {
    match act
    case SendOpen(i, _, _, _) => i == id
    case TakeResult(i) => i == id
    case OpenTimeout(i) => i == id
    case OpenDone(i) => i == id
    case StartPump(i) => i == id
    case AbandonOpen(i) => i == id
    case TakeChunk(i) => i == id
    case SeeDone(i) => i == id
    case DrainEnd(i) => i == id
    case WriteOk(i) => i == id
    case WriteFail(i, _) => i == id
    case CloseDone(i) => i == id
    case Notice(i, _) => i == id
    case _ => false
  }

  predicate HostDone(t: H.Tunnel) {
    && (t.opener.OpFailed? || (t.opener.OpPumping? && t.out.pc.OutEnded?)) && t.finish.Finished?
  }

  function HostLeft(t: H.Tunnel): nat {
    (match t.opener case OpSending => 6 case OpWaiting => 5 case OpReturned => 4 case OpPumping => 0 case OpFailed => 0)
    + (match t.out.pc
       case OutNotStarted => 0 case OutSelecting => 2 case OutDraining => 1 case OutEnded(_) => 0
       case OutWriting(_, draining) => if draining then 3 else 4)
    + (match t.finish case Live => 2 case Removing(_) => 2 case Noticing => 1 case Finished => 0)
    + 3 * |t.inbound|
  }

  lemma HostCanEnd(h: H.Host, id: Id)
    requires H.Inv(h) && id in h.tuns && !h.tuns[id].finish.Live? && !HostDone(h.tuns[id])
    ensures exists act :: HostStep(act, id) && H.Can(h, act)
  {
    hide H.Inv, H.LoopsOk;
    var t := h.tuns[id];
    TunnelOk(h, id);
    if t.finish.Removing? { assert H.Can(h, H.CloseDone(id)); }
    else if t.finish.Noticing? { assert H.Can(h, H.Notice(id, true)); }
    else if t.opener.OpSending? { assert H.Can(h, H.SendOpen(id, true, "", 0)); }
    else if t.opener.OpWaiting? { assert H.Can(h, H.OpenDone(id)); }
    else if t.opener.OpReturned? { assert H.Can(h, H.StartPump(id)); }
    else if t.out.pc.OutSelecting? { assert H.Can(h, H.SeeDone(id)); }
    else if t.out.pc.OutWriting? { assert H.Can(h, H.WriteOk(id)); }
    else if t.inbound != [] { assert H.Can(h, H.TakeChunk(id)); }
    else { assert H.Can(h, H.DrainEnd(id)); }
  }

  lemma TunnelOk(h: H.Host, id: Id)
    requires H.Inv(h) && id in h.tuns
    ensures H.LifeOk(h.tuns[id]) && (!h.tuns[id].out.pc.OutWriting? || H.TunCan(h.tuns[id], H.WriteOk(id)))
  {
    hide H.LiveIn, H.LoopsOk;
    assert H.TunOk(h.tuns[id]);
  }

  function QueuedFor(h: H.Host, act: H.Action, id: Id): nat
    requires H.Can(h, act)
  {
    if act.DeliverOk? && h.handlers[act.conn].id == id then 1 else 0
  }

  lemma OpenerWinds(t: H.Tunnel, act: H.Action)
    requires act.SendOpen? || act.TakeResult? || act.OpenTimeout? || act.OpenDone? || act.StartPump? || act.AbandonOpen?
    requires H.TunCan(t, act) && !t.finish.Live?
    ensures !H.TunNext(t, act).finish.Live? && HostLeft(H.TunNext(t, act)) < HostLeft(t)
  {
  }

  lemma TunWinds(t: H.Tunnel, act: H.Action)
    requires H.OfTunnel(act) && H.TunCan(t, act) && !t.finish.Live?
    ensures !H.TunNext(t, act).finish.Live?
    ensures HostStep(act, act.id) ==> HostLeft(H.TunNext(t, act)) < HostLeft(t)
    ensures !HostStep(act, act.id) ==> HostLeft(H.TunNext(t, act)) == HostLeft(t)
  {
    if act.SendOpen? || act.TakeResult? || act.OpenTimeout? || act.OpenDone? || act.StartPump? || act.AbandonOpen? {
      OpenerWinds(t, act);
      hide *;
    }
  }

  lemma HostWinds(h: H.Host, act: H.Action, id: Id)
    requires H.Inv(h) && H.Can(h, act) && id in h.tuns && !h.tuns[id].finish.Live?
    ensures id in H.Step(h, act).tuns && !H.Step(h, act).tuns[id].finish.Live?
    ensures HostLeft(H.Step(h, act).tuns[id]) + (if HostStep(act, id) then 1 else 0)
            <= HostLeft(h.tuns[id]) + 3 * QueuedFor(h, act, id)
  {
    hide H.LiveIn, H.TunOk;
    if H.OfTunnel(act) {
      if act.id == id { TunWinds(h.tuns[id], act); }
      hide H.TunNext, H.TunCan, HostLeft;
    }
  }

  function HostSteps(acts: seq<H.Action>, id: Id): nat {
    if acts == [] then 0 else HostSteps(acts[..|acts| - 1], id) + if HostStep(acts[|acts| - 1], id) then 1 else 0
  }

  // How many chunks have been queued for the client.
  ghost function HostQueued(acts: seq<H.Action>, id: Id): nat
    requires H.Run(acts).Some?
  {
    if acts == [] then 0
    else
      var front := acts[..|acts| - 1];
      HostQueued(front, id) + QueuedFor(H.Run(front).value, acts[|acts| - 1], id)
  }

  lemma {:induction false} HostCountdown(acts: seq<H.Action>, k: nat, id: Id)
    requires H.Run(acts).Some? && k <= |acts| && H.Run(acts[..k]).Some?
    requires id in H.Run(acts[..k]).value.tuns && !H.Run(acts[..k]).value.tuns[id].finish.Live?
    ensures id in H.Run(acts).value.tuns && !H.Run(acts).value.tuns[id].finish.Live?
    ensures HostSteps(acts, id) - HostSteps(acts[..k], id) + HostLeft(H.Run(acts).value.tuns[id])
            <= HostLeft(H.Run(acts[..k]).value.tuns[id]) + 3 * (HostQueued(acts, id) - HostQueued(acts[..k], id))
  {
    hide H.Step, H.Inv, H.Can, HostLeft, HostStep, QueuedFor;
    if k == |acts| {
      assert acts[..k] == acts;
    } else {
      var front := acts[..|acts| - 1];
      assert front[..k] == acts[..k];
      HostCountdown(front, k, id);
      H.RunKeeps(front);
      HostWinds(H.Run(front).value, acts[|acts| - 1], id);
    }
  }

  // After its removal, opener, writer and finish of a tunnel take at most 104 steps together, and three for
  // every chunk that a handler still queues, however the run goes on; and when none of them can take another,
  // all have ended.
  lemma HostGoroutinesEnd(acts: seq<H.Action>, k: nat, id: Id)
    requires H.Run(acts).Some? && k <= |acts| && H.Run(acts[..k]).Some?
    requires id in H.Run(acts[..k]).value.tuns && !H.Run(acts[..k]).value.tuns[id].finish.Live?
    ensures HostSteps(acts, id) - HostSteps(acts[..k], id) <= 104 + 3 * (HostQueued(acts, id) - HostQueued(acts[..k], id))
    ensures id in H.Run(acts).value.tuns
    ensures (forall act :: H.Can(H.Run(acts).value, act) ==> !HostStep(act, id)) <==> HostDone(H.Run(acts).value.tuns[id])
  {
    hide H.Run, HostSteps, HostQueued;
    HostCountdown(acts, k, id);
    H.RunKeeps(acts[..k]);
    HostBound(H.Run(acts[..k]).value, id);
    H.RunKeeps(acts);
    var h := H.Run(acts).value;
    if HostDone(h.tuns[id]) {
      HostEnded(h, id);
    } else {
      HostCanEnd(h, id);
    }
  }

  lemma HostBound(h: H.Host, id: Id)
    requires H.Inv(h) && id in h.tuns
    ensures HostLeft(h.tuns[id]) <= 104
  {
    hide H.LiveIn, OutletInv, SourceInv;
    assert H.TunOk(h.tuns[id]);
  }

  lemma HostEnded(h: H.Host, id: Id)
    requires H.Inv(h) && id in h.tuns && HostDone(h.tuns[id])
    ensures forall act :: H.Can(h, act) ==> !HostStep(act, id)
  {
    hide H.Inv, H.LoopsOk;
    TunnelOk(h, id);
  }
}
