// What a target has received when its client closes: everything that was read from the client has reached
// the probe's write queue, and it reaches the target exactly if the write loop has emptied the queue by the
// time the connection is released.
module Upload {
  import opened Options
  import opened Wire
  import opened Relay
  import opened Reconnects
  import H = Host
  import A = Agent

  // A ProxyClose on its way to the probe is the last act of a removal, and if the client's end of stream was
  // the cause no data follows it.
  ghost predicate ClosesLast(s: State, id: Id) {
    && (Close(id) in s.toAgent ==> Mine(s, id) && s.host.tuns[id].finish.Finished?)
    && (Mine(s, id) && s.host.tuns[id].ending.ClientEnded? ==> NoDataAfterClose(s.toAgent, id))
  }

  // A tunnel the probe has dropped on that ProxyClose has been given everything the client sent.
  ghost predicate AllAccepted(s: State, r: A.Ref)
    requires r < |s.agent.heap| && s.agent.heap[r].id in s.host.tuns
  {
    var t := s.agent.heap[r];
    var u := s.host.tuns[t.id];
    t.cause.HostClosed? ==>
      && u.finish.Finished?
      && (u.ending.ClientEnded? ==> AgentHeld(s, r) == [] && t.out.accepted == u.src.sent)
  }

  ghost predicate UpInv(s: State) {
    && Inv(s) && (forall id :: ClosesLast(s, id))
    && forall r :: 0 <= r < |s.agent.heap| ==> s.agent.heap[r].id in s.host.tuns && AllAccepted(s, r)
  }

  // ---- the host's steps ----

  // What the host puts on the wire for tunnel id.
  lemma EmittedEnd(s: State, h: H.Action, id: Id)
    requires Inv(s) && Can(s, HostStep(h)) && id in s.host.tuns
    ensures Emitted(s, h) == Some(Close(id)) ==>
              Mine(s, id) && id in Step(s, HostStep(h)).host.tuns && Step(s, HostStep(h)).host.tuns[id].finish.Finished?
    ensures h == H.ClientEnd(id) ==> Emitted(s, h).None?
  {
    hide A.Inv, H.Inv, Opening, Established, Linked, Unopened, Sized, H.LiveIn;
  }

  lemma HostClosesLast(s: State, h: H.Action, id: Id)
    requires Inv(s) && Can(s, HostStep(h)) && ClosesLast(s, id)
    ensures ClosesLast(Step(s, HostStep(h)), id)
  {
    hide A.Inv, H.Inv, Opening, Established, Linked, Unopened, Sized, H.Step, H.Can, Emitted, H.SentNow;
    EmittedFacts(s, h);
    var m := Emitted(s, h);
    if id in s.host.tuns {
      H.EndStep(s.host, h, id);
      H.StreamStep(s.host, h, id);
      EmittedEnd(s, h, id);
    } else if id in Step(s, HostStep(h)).host.tuns {
      NewRunning(s, h, id);
    }
  }

  lemma NewRunning(s: State, h: H.Action, id: Id)
    requires Can(s, HostStep(h)) && id !in s.host.tuns && id in Step(s, HostStep(h)).host.tuns
    ensures Step(s, HostStep(h)).host.tuns[id].ending.Running?
  {
    H.SealNew(s.host, h, id);
  }

  lemma HostAccepted(s: State, h: H.Action, r: A.Ref)
    requires Inv(s) && Can(s, HostStep(h)) && r < |s.agent.heap| && s.agent.heap[r].id in s.host.tuns && AllAccepted(s, r)
    ensures var s' := Step(s, HostStep(h));
            r < |s'.agent.heap| && s'.agent.heap[r].id in s'.host.tuns && AllAccepted(s', r)
  {
    hide A.Inv, H.Inv, Opening, Established, Linked, Unopened, Sized, H.Step, H.Can, H.SentNow;
    SameLines(s, h);
    H.EndStep(s.host, h, s.agent.heap[r].id);
    LifeAt(s, s.agent.heap[r].id);
  }

  lemma LifeAt(s: State, id: Id)
    requires Inv(s) && id in s.host.tuns
    ensures var u := s.host.tuns[id];
            && (u.ending.ClientEnded? ==> u.src.sent == u.src.read && !u.finish.Live?)
            && forall k :: 0 <= k < |u.src.read| ==> u.src.read[k] != []
  {
    hide A.Inv, H.LiveIn, OutletInv, Opening, Established, Linked, Unopened, Sized;
    assert H.TunOk(s.host.tuns[id]);
  }

  lemma HostUpKeeps(s: State, h: H.Action)
    requires UpInv(s) && Can(s, HostStep(h))
    ensures UpInv(Step(s, HostStep(h)))
  {
    hide Step, Can, Inv, ClosesLast, AllAccepted;
    var s' := Step(s, HostStep(h));
    HostKeeps(s, h);
    SameLines(s, h);
    forall id ensures ClosesLast(s', id) { HostClosesLast(s, h, id); }
    forall r | 0 <= r < |s'.agent.heap| ensures s'.agent.heap[r].id in s'.host.tuns && AllAccepted(s', r) { HostAccepted(s, h, r); }
  }

  // ---- messages taken by the host ----

  lemma HostReceiveUpKeeps(s: State, e: nat)
    requires UpInv(s) && Can(s, HostReceive(e))
    ensures UpInv(Step(s, HostReceive(e)))
  {
    hide Inv, H.Step, H.Can, H.SentNow, NoDataAfterClose;
    var s' := Step(s, HostReceive(e));
    HostReceiveKeeps(s, e);
    HasHostInv(s);
    HostReceiveTunnels(s, e);
    forall id | id in s.host.tuns
      ensures id in s'.host.tuns && s'.host.tuns[id].agent == s.host.tuns[id].agent && s'.host.tuns[id].src == s.host.tuns[id].src
      ensures s.host.tuns[id].finish.Finished? ==> s'.host.tuns[id].finish.Finished?
      ensures s'.host.tuns[id].ending.ClientEnded? ==> s.host.tuns[id].ending.ClientEnded?
    {
      H.EndStep(s.host, H.Receive(Conn(e), s.lines[e][0]), id);
    }
    forall id ensures ClosesLast(s', id) { assert ClosesLast(s, id); }
    forall r | 0 <= r < |s'.agent.heap| ensures s'.agent.heap[r].id in s'.host.tuns && AllAccepted(s', r) {
      assert AllAccepted(s, r);
    }
  }

  lemma HasHostInv(s: State)
    requires Inv(s)
    ensures H.Inv(s.host) && A.Inv(s.agent)
  {
    hide A.Inv, H.Inv, Opening, Established, Linked, Unopened, Sized;
  }

  // ---- the probe's steps ----

  lemma AgentAccepted(s: State, a: A.Action, r: A.Ref)
    requires Inv(s) && Can(s, AgentStep(a)) && r < |s.agent.heap| && s.agent.heap[r].id in s.host.tuns && AllAccepted(s, r)
    ensures var s' := Step(s, AgentStep(a));
            r < |s'.agent.heap| && s'.agent.heap[r].id in s'.host.tuns && AllAccepted(s', r)
  {
    hide A.Step, A.Inv, A.Shape, A.Can, H.Inv, Opening, Established, Linked, Unopened, Sized, Wired, A.EnqueuedNow;
    A.ClosedByHost(s.agent, a, r);
    A.StreamStep(s.agent, a, r);
    HeldMoves(s, a, r);
    var t, now := s.agent.heap[r], A.EnqueuedNow(s.agent, a, r);
    if AgentHeld(s, r) == [] {
      assert now == [] && AgentHeld(Step(s, AgentStep(a)), r) == [];
      assert t.out.accepted + [] == t.out.accepted;
    }
  }

  lemma AgentUpKeeps(s: State, a: A.Action)
    requires UpInv(s) && Can(s, AgentStep(a))
    ensures UpInv(Step(s, AgentStep(a)))
  {
    hide A.Step, A.Can, A.Shape, Inv, NoDataAfterClose, AllAccepted, Wired;
    var s' := Step(s, AgentStep(a));
    AgentKeeps(s, a);
    AgentTabs(s, a);
    forall id ensures ClosesLast(s', id) { assert ClosesLast(s, id); }
    forall r | 0 <= r < |s'.agent.heap| ensures s'.agent.heap[r].id in s'.host.tuns && AllAccepted(s', r) { AgentAccepted(s, a, r); }
  }

  // ---- messages taken by the probe ----

  lemma NoneBehind(q: seq<Msg>, id: Id)
    requires q != [] && NoDataAfterClose(q, id)
    ensures NoDataAfterClose(q[1..], id) && (q[0] == Close(id) ==> DataOf(q, id) == [])
  {
    forall k, l | 0 <= k < l < |q[1..]| && q[1..][k] == Close(id) ensures !(q[1..][l].Data? && q[1..][l].id == id) {
      assert q[k + 1] == Close(id) && q[1..][l] == q[l + 1];
    }
    if q[0] == Close(id) {
      forall k | 0 <= k < |q[1..]| ensures !(q[1..][k].Data? && q[1..][k].id == id) { assert q[1..][k] == q[k + 1]; }
      DataOfNone(q[1..], id);
    }
  }

  lemma ReceiveAccepted(s: State, ok: bool, r: A.Ref)
    requires Inv(s) && Can(s, AgentReceive(ok)) && r < |s.agent.heap| && s.agent.heap[r].id in s.host.tuns
    requires AllAccepted(s, r) && ClosesLast(s, s.agent.heap[r].id)
    ensures var s' := Step(s, AgentReceive(ok));
            r < |s'.agent.heap| && s'.agent.heap[r].id in s'.host.tuns && AllAccepted(s', r)
  {
    hide A.ReceiveStep, A.Inv, A.Shape, H.Inv, Opening, Established, Unopened, Sized, Wired, NoDataAfterClose, DataOf;
    var m, t := s.toAgent[0], s.agent.heap[r];
    A.ClosedByHost(s.agent, A.Receive(m, ok), r);
    A.DropFinal(s.agent, A.Receive(m, ok), r);
    A.ReceiveOnTab(s.agent, m, ok, r);
    A.ReceiveShape(s.agent, m, ok);
    FirstSized(s.toAgent);
    NotInTable(s, r);
    UpLinkAt(s, r);
    if s.host.tuns[t.id].ending.ClientEnded? { NoneBehind(s.toAgent, t.id); }
    assert t.out.accepted + [] + [] == t.out.accepted;
  }

  lemma NotInTable(s: State, r: A.Ref)
    requires Inv(s) && r < |s.agent.heap|
    ensures s.agent.heap[r].cause.HostClosed? ==> !s.agent.heap[r].drop.InTable?
  {
    hide H.Inv, Opening, Established, Linked, Unopened, Sized, A.LoopsOk;
    assert A.TabInv(s.agent, r);
  }

  lemma ReceiveUpKeeps(s: State, ok: bool)
    requires UpInv(s) && Can(s, AgentReceive(ok))
    ensures UpInv(Step(s, AgentReceive(ok)))
  {
    hide A.ReceiveStep, A.Shape, Inv, NoDataAfterClose, AllAccepted, Wired;
    var s' := Step(s, AgentReceive(ok));
    ReceiveKeeps(s, ok);
    ReceiveTabs(s, ok);
    forall id ensures ClosesLast(s', id) {
      assert ClosesLast(s, id);
      if Mine(s, id) && s.host.tuns[id].ending.ClientEnded? { NoneBehind(s.toAgent, id); }
    }
    forall r | 0 <= r < |s'.agent.heap| ensures s'.agent.heap[r].id in s'.host.tuns && AllAccepted(s', r) {
      if r < |s.agent.heap| { ReceiveAccepted(s, ok, r); } else { ReceiveNew(s, ok); FreshAccepted(s', r); }
    }
  }

  lemma FreshAccepted(s: State, r: A.Ref)
    requires r < |s.agent.heap| && s.agent.heap[r].id in s.host.tuns && s.agent.heap[r] == A.NewTab(s.agent.heap[r].id)
    ensures AllAccepted(s, r)
  {
  }

  lemma BreakUpKeeps(s: State, act: Action)
    requires UpInv(s) && Can(s, act) && (act.Disconnect? || act.Lose? || act.Reconnect?)
    ensures UpInv(Step(s, act))
  {
    hide Inv, NoDataAfterClose, Harmless, NoneLeft, Lossless, A.Shape, A.ByReceiver;
    var s' := Step(s, act);
    BreakKeeps(s, act);
    forall id ensures ClosesLast(s', id) {
      assert ClosesLast(s, id);
      NothingBehind(id);
    }
    forall r | 0 <= r < |s'.agent.heap| ensures s'.agent.heap[r].id in s'.host.tuns && AllAccepted(s', r) {
      assert AllAccepted(s, r);
    }
  }

  lemma NothingBehind(id: Id)
    ensures NoDataAfterClose([], id)
  {
  }

  // ---- runs ----

  lemma StepUpKeeps(s: State, act: Action)
    requires UpInv(s) && Can(s, act)
    ensures UpInv(Step(s, act))
  {
    hide UpInv, Can, Step;
    match act
    case HostStep(h) => HostUpKeeps(s, h);
    case HostReceive(e) => HostReceiveUpKeeps(s, e);
    case AgentStep(a) => AgentUpKeeps(s, a);
    case AgentReceive(ok) => ReceiveUpKeeps(s, ok);
    case _ => BreakUpKeeps(s, act);
  }

  lemma {:induction false} RunUpKeeps(acts: seq<Action>)
    requires Run(acts).Some?
    ensures UpInv(Run(acts).value)
  {
    if acts == [] {
      StartInv();
      hide Inv;
    } else {
      hide Step, Can, UpInv;
      RunUpKeeps(acts[..|acts| - 1]);
      StepUpKeeps(Run(acts[..|acts| - 1]).value, acts[|acts| - 1]);
    }
  }

  // The client's end of stream ended tunnel r at both ends: the host removed it there, and the probe
  // dropped it on the host's ProxyClose.
  ghost predicate EndedByClient(s: State, r: A.Ref)
    requires r < |s.agent.heap|
  {
    var t := s.agent.heap[r];
    t.cause.HostClosed? && t.id in s.host.tuns && s.host.tuns[t.id].ending.ClientEnded?
  }

  // Then every chunk read from the client has been put on the probe's write queue, in order.
  lemma UploadAccepted(acts: seq<Action>, r: A.Ref)
    requires Run(acts).Some? && r < |Run(acts).value.agent.heap| && EndedByClient(Run(acts).value, r)
    ensures var s := Run(acts).value; var t := s.agent.heap[r];
            t.out.accepted == s.host.tuns[t.id].src.read
  {
    hide Run, Inv;
    RunUpKeeps(acts);
    var s := Run(acts).value;
    LifeAt(s, s.agent.heap[r].id);
    assert AllAccepted(s, r);
  }

  // The write loop has nothing left, and if a write failed, it was the last one and all of its chunk got through.
  predicate Flushed(t: A.Tab) {
    && t.core.writes == [] && !t.out.pc.OutWriting?
    && (t.out.pc == OutEnded(false) ==> t.out.accepted != [] && t.out.part == t.out.accepted[|t.out.accepted| - 1])
  }

  // Exactly then all that was accepted has been delivered.
  lemma FlushedDelivers(t: A.Tab)
    requires OutletInv(t.out, t.core.writes) && forall k :: 0 <= k < |t.out.accepted| ==> t.out.accepted[k] != []
    ensures Delivered(t.out) == Bytes(t.out.accepted) <==> Flushed(t)
  {
    var o := t.out;
    if o.pc == OutEnded(false) {
      FailedDelivers(o, t.core.writes);
    } else {
      RestDelivers(o.written, Held(o) + t.core.writes, o.accepted);
      assert o.part == [] && Delivered(o) == Bytes(o.written) + [] == Bytes(o.written);
    }
  }

  lemma RestDelivers(written: seq<Chunk>, rest: seq<Chunk>, accepted: seq<Chunk>)
    requires accepted == written + rest && forall k :: 0 <= k < |accepted| ==> accepted[k] != []
    ensures Bytes(written) == Bytes(accepted) <==> rest == []
  {
    BytesConcat(written, rest);
    if rest == [] {
      assert accepted == written;
    } else {
      assert rest[|rest| - 1] == accepted[|accepted| - 1];
      SomeBytes(rest);
    }
  }

  lemma FailedDelivers(o: Outlet, queue: seq<Chunk>)
    requires OutletInv(o, queue) && o.pc == OutEnded(false) && forall k :: 0 <= k < |o.accepted| ==> o.accepted[k] != []
    ensures Delivered(o) == Bytes(o.accepted) <==> queue == [] && o.part == o.accepted[|o.accepted| - 1]
  {
    var n := |o.written|;
    var c, rest := o.accepted[n], o.accepted[n + 1..];
    assert o.accepted == o.written + [c] + rest;
    LongerBytes(o.written, c, rest);
    if rest != [] {
      assert rest[|rest| - 1] == o.accepted[|o.accepted| - 1];
      SomeBytes(rest);
    } else {
      assert Bytes(o.accepted) == Bytes(o.written) + c + [] == Bytes(o.written) + c;
    }
    assert |Delivered(o)| == |Bytes(o.written)| + |o.part|;
  }

  lemma LongerBytes(a: seq<Chunk>, c: Chunk, rest: seq<Chunk>)
    ensures Bytes(a + [c] + rest) == Bytes(a) + c + Bytes(rest)
  {
    BytesConcat(a + [c], rest);
    TakenMore(a, c);
  }

  lemma SomeBytes(cs: seq<Chunk>)
    requires cs != [] && cs[|cs| - 1] != []
    ensures Bytes(cs) != []
  {
  }

  // ---- what the target ends up with ----

  lemma {:induction false} ShutForGood(s: State, more: seq<Action>, r: A.Ref)
    requires UpInv(s) && RunFrom(s, more).Some? && r < |s.agent.heap| && A.Shut(s.agent.heap[r]) && EndedByClient(s, r)
    ensures var g := RunFrom(s, more).value;
            && UpInv(g) && r < |g.agent.heap| && A.Shut(g.agent.heap[r]) && EndedByClient(g, r)
            && g.agent.heap[r].id == s.agent.heap[r].id
            && g.agent.heap[r].out.accepted == s.agent.heap[r].out.accepted
            && Delivered(g.agent.heap[r].out) == Delivered(s.agent.heap[r].out)
  {
    hide UpInv, Step, Can, EndedByClient, A.Shut, Delivered;
    if more != [] {
      var front := more[..|more| - 1];
      ShutForGood(s, front, r);
      ShutStep(RunFrom(s, front).value, more[|more| - 1], r);
      StepUpKeeps(RunFrom(s, front).value, more[|more| - 1]);
    }
  }

  lemma ShutStep(s: State, act: Action, r: A.Ref)
    requires UpInv(s) && Can(s, act) && r < |s.agent.heap| && A.Shut(s.agent.heap[r]) && EndedByClient(s, r)
    ensures var g := Step(s, act);
            && r < |g.agent.heap| && A.Shut(g.agent.heap[r]) && EndedByClient(g, r)
            && g.agent.heap[r].id == s.agent.heap[r].id
            && g.agent.heap[r].out.accepted == s.agent.heap[r].out.accepted
            && Delivered(g.agent.heap[r].out) == Delivered(s.agent.heap[r].out)
  {
    hide A.Step, H.Step, A.Can, H.Can, A.Shape, Inv, ClosesLast, AllAccepted, A.Shut, Delivered, Harmless,
      NoneLeft, Wired, Sends, H.OutputOf, H.SentNow;
    UpHas(s, r);
    match act
    case AgentStep(a) => A.ShutStays(s.agent, a, r); A.DropFinal(s.agent, a, r);
    case AgentReceive(ok) => A.ShutStays(s.agent, A.Receive(s.toAgent[0], ok), r); A.DropFinal(s.agent, A.Receive(s.toAgent[0], ok), r);
    case HostStep(h) => H.EndStep(s.host, h, s.agent.heap[r].id);
    case HostReceive(e) => H.EndStep(s.host, H.Receive(Conn(e), s.lines[e][0]), s.agent.heap[r].id);
    case _ =>
  }

  lemma UpHas(s: State, r: A.Ref)
    requires UpInv(s) && r < |s.agent.heap|
    ensures A.Inv(s.agent) && H.Inv(s.host)
    ensures s.agent.heap[r].cause.HostClosed? ==> !s.agent.heap[r].drop.InTable?
  {
    HasHostInv(s);
    NotInTable(s, r);
  }

  lemma Released(s: State, r: A.Ref)
    requires UpInv(s) && Can(s, AgentStep(A.ReleaseConn(r))) && EndedByClient(s, r)
    ensures var g := Step(s, AgentStep(A.ReleaseConn(r)));
            && r < |g.agent.heap| && A.Shut(g.agent.heap[r]) && EndedByClient(g, r)
            && g.agent.heap[r].id == s.agent.heap[r].id && g.agent.heap[r].out == s.agent.heap[r].out
  {
    hide H.Inv, Opening, Established, Linked, Unopened, Sized, ClosesLast, AllAccepted, A.LoopsOk;
    assert A.TabInv(s.agent, r);
  }

  lemma AcceptedNow(s: State, r: A.Ref)
    requires UpInv(s) && r < |s.agent.heap| && EndedByClient(s, r)
    ensures var t := s.agent.heap[r];
            && t.out.accepted == s.host.tuns[t.id].src.read && OutletInv(t.out, t.core.writes)
            && forall k :: 0 <= k < |t.out.accepted| ==> t.out.accepted[k] != []
  {
    hide H.Inv, Opening, Established, Linked, Unopened, Sized, ClosesLast, OutletInv, A.LifeOk;
    assert AllAccepted(s, r) && A.TabInv(s.agent, r);
    LifeAt(s, s.agent.heap[r].id);
  }

  // The upload is complete exactly if the write loop is done with the queue when the connection is released:
  // then the target has everything that was read from the client, and otherwise it never gets it, whatever
  // happens later.
  lemma UploadComplete(acts: seq<Action>, r: A.Ref, more: seq<Action>)
    requires Run(acts).Some? && r < |Run(acts).value.agent.heap| && EndedByClient(Run(acts).value, r)
    requires Can(Run(acts).value, AgentStep(A.ReleaseConn(r)))
    requires RunFrom(Step(Run(acts).value, AgentStep(A.ReleaseConn(r))), more).Some?
    ensures var s := Run(acts).value; var g := RunFrom(Step(s, AgentStep(A.ReleaseConn(r))), more).value;
            && r < |g.agent.heap| && g.agent.heap[r].id in g.host.tuns
            && (Delivered(g.agent.heap[r].out) == Bytes(g.host.tuns[g.agent.heap[r].id].src.read) <==> Flushed(s.agent.heap[r]))
  {
    hide Run, UpInv, Step, Can, A.Shut, Delivered, Flushed, OutletInv;
    var s := Run(acts).value;
    var s' := Step(s, AgentStep(A.ReleaseConn(r)));
    RunUpKeeps(acts);
    StepUpKeeps(s, AgentStep(A.ReleaseConn(r)));
    Released(s, r);
    ShutForGood(s', more, r);
    AcceptedNow(s, r);
    AcceptedNow(RunFrom(s', more).value, r);
    FlushedDelivers(s.agent.heap[r]);
  }
}
