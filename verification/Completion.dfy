// What a client has received when its tunnel ends: everything, if the target's end of stream ended it.
module Completion {
  import opened Options
  import opened Wire
  import opened Relay
  import opened Reconnects
  import H = Host
  import A = Agent

  // A ProxyClose on the wire comes from a finished drop.
  ghost predicate CloseLast(s: State, t: A.Tab) {
    forall e :: 0 <= e < |s.lines| ==> Close(t.id) in s.lines[e] ==> t.drop.Dropped?
  }

  // Line e brings exactly what is missing, and nothing is held elsewhere.
  ghost predicate OnClose(s: State, t: A.Tab, e: nat)
    requires e < |s.lines| && t.id in s.host.tuns
  {
    && Taken(s, t.id) + Bytes(Left(s, e, t.id)) == Bytes(t.src.sent)
    && forall i :: 0 <= i < |s.lines| && i != e ==> Left(s, i, t.id) == []
  }

  // While the host has the tunnel, nothing is missing where its ProxyClose is or will be.
  ghost predicate CloseHere(s: State, t: A.Tab)
    requires s.lines != [] && t.id in s.host.tuns
  {
    s.lossless && t.cause.EndOfStream? && s.host.tuns[t.id].finish.Live? && Answerable(s, t.id) ==>
      && (s.up && !t.drop.Dropped? ==> Whole(s, t))
      && forall e :: 0 <= e < |s.lines| && CloseIn(s.lines[e], t.id) ==> OnClose(s, t, e)
  }

  // Once the host has removed the tunnel on that ProxyClose, its queue has taken all the probe sent.
  ghost predicate AllQueued(s: State, t: A.Tab)
    requires t.id in s.host.tuns
  {
    var u := s.host.tuns[t.id];
    u.ending.ProbeClosed? ==>
      && t.drop.Dropped?
      && (t.cause.EndOfStream? && s.lossless && Answerable(s, t.id) ==>
            && Taken(s, t.id) == Bytes(t.src.sent) && (forall e :: 0 <= e < |s.lines| ==> Holding(s, e, t.id) == [])
            && (u.done ==> u.sealed == |u.out.accepted|))
  }

  ghost predicate EndOk(s: State, t: A.Tab)
    requires s.lines != [] && t.id in s.host.tuns
  {
    CloseLast(s, t) && CloseHere(s, t) && AllQueued(s, t)
  }

  // Only tunnels of the probe are closed by it.
  ghost predicate Closers(s: State) {
    && (forall e :: 0 <= e < |s.lines| ==> ClosersIn(s, s.lines[e]))
    && (forall id :: Mine(s, id) && s.host.tuns[id].ending.ProbeClosed? ==> HasTab(s, id))
  }

  ghost predicate ClosersIn(s: State, q: seq<Msg>) {
    forall k :: 0 <= k < |q| && q[k].Close? ==> HasTab(s, q[k].id)
  }

  ghost predicate EndInv(s: State) {
    && DownInv(s) && Closers(s)
    && (forall r :: 0 <= r < |s.agent.heap| ==> s.agent.heap[r].id in s.host.tuns && EndOk(s, s.agent.heap[r]))
  }

  // ---- the probe's steps ----

  // What the drop of t allows it to become and to say.
  ghost predicate Ending(t: A.Tab, t': A.Tab, now: seq<Chunk>, m: Option<Msg>) {
    && (t.drop.Dropped? ==> t'.drop.Dropped?)
    && (m == Some(Close(t.id)) ==> t'.drop.Dropped? && t.drop.Notifying?)
    && (t'.cause.EndOfStream? ==> now == [] && m != Some(OpenResult(t.id, true)) && (t.cause.EndOfStream? || t.drop.InTable?))
  }

  lemma GrownCloseLast(s: State, s': State, t: A.Tab, t': A.Tab, now: seq<Chunk>, m: Option<Msg>)
    requires Grown(s, s', t, t', now, m) && Ending(t, t', now, m) && CloseLast(s, t)
    ensures CloseLast(s', t')
  {
    hide A.Still, A.Pending;
  }

  // A ProxyClose that can be found is an old one, or the one just sent, behind everything else.
  lemma GrownClose(s: State, s': State, t: A.Tab, t': A.Tab, now: seq<Chunk>, m: Option<Msg>, e: nat)
    requires Grown(s, s', t, t', now, m) && now == [] && e < |s.lines| && CloseIn(s'.lines[e], t.id)
    ensures CloseIn(s.lines[e], t.id) ||
            (e == |s.lines| - 1 && s.up && m == Some(Close(t.id)) && DataBefore(s.lines[e], t.id) == DataOf(s.lines[e], t.id))
  {
    hide A.Still, A.Pending, DataOf, DataBefore, CloseIn;
    if s.up && e == |s.lines| - 1 && m.Some? { CloseInAppend(s.lines[e], m.value, t.id); }
  }

  lemma GrownCloseHere(s: State, s': State, t: A.Tab, t': A.Tab, now: seq<Chunk>, m: Option<Msg>)
    requires Grown(s, s', t, t', now, m) && Ending(t, t', now, m) && CloseLast(s, t) && CloseHere(s, t) && DownLink(s, t)
    ensures CloseHere(s', t')
  {
    hide A.Still, A.Pending, Left, Coming, Taken, Bytes, CloseIn, Whole, Answerable, Sound, OnClose;
    if s'.lossless && t'.cause.EndOfStream? && s.host.tuns[t.id].finish.Live? && Answerable(s', t.id) {
      GrownAnswers(s, s', t, t', now, m);
      if Whole(s, t) { GrownWhole(s, s', t, t', now, m); }
      forall e | 0 <= e < |s'.lines| && CloseIn(s'.lines[e], t.id) ensures OnClose(s', t', e) {
        GrownClose(s, s', t, t', now, m, e);
        if CloseIn(s.lines[e], t.id) { CloseInside(s.lines[e], t.id); } else { WholeOnClose(s, t); }
        GrownOnClose(s, s', t, t', m, e);
      }
    }
  }

  lemma GrownOnClose(s: State, s': State, t: A.Tab, t': A.Tab, m: Option<Msg>, e: nat)
    requires Grown(s, s', t, t', [], m) && e < |s.lines| && OnClose(s, t, e)
    ensures OnClose(s', t', e)
  {
    hide A.Still, A.Pending, Left, Coming, Taken, Bytes, Wired;
    GrownLeft(s, s', t, t', [], m);
    assert t'.src.sent == t.src.sent + [] == t.src.sent;
    forall i | 0 <= i < |s.lines| ensures Left(s', i, t.id) == Left(s, i, t.id) {}
  }

  lemma WholeOnClose(s: State, t: A.Tab)
    requires s.lines != [] && t.id in s.host.tuns && Whole(s, t) && s.up && s.host.tuns[t.id].finish.Live?
    requires var q := s.lines[|s.lines| - 1]; DataBefore(q, t.id) == DataOf(q, t.id)
    ensures OnClose(s, t, |s.lines| - 1)
  {
    hide DataBefore, DataOf, Bytes, Taken;
  }

  lemma GrownEnd(s: State, s': State, t: A.Tab, t': A.Tab, now: seq<Chunk>, m: Option<Msg>)
    requires Grown(s, s', t, t', now, m) && Ending(t, t', now, m) && EndOk(s, t) && DownLink(s, t)
    ensures EndOk(s', t')
  {
    hide A.Still, A.Pending, CloseLast, CloseHere, Bytes, Whole, Answerable, DownLink;
    GrownCloseLast(s, s', t, t', now, m);
    GrownCloseHere(s, s', t, t', now, m);
    if t'.cause.EndOfStream? && Answerable(s', t'.id) { GrownAnswers(s, s', t, t', now, m); }
    assert t'.cause.EndOfStream? ==> t'.src.sent == t.src.sent + [] == t.src.sent;
    assert forall e :: 0 <= e < |s.lines| ==> Holding(s', e, t.id) == Holding(s, e, t.id);
  }

  lemma AgentEnding(s: State, a: A.Action, r: A.Ref)
    requires Inv(s) && Can(s, AgentStep(a)) && r < |s.agent.heap|
    ensures var s' := Step(s, AgentStep(a));
            && r < |s'.agent.heap|
            && Ending(s.agent.heap[r], s'.agent.heap[r], A.SentNow(s.agent, a, r), A.Step(s.agent, a).1)
  {
    hide A.Step, A.Inv, A.Shape, A.Can, H.Inv, Established, Linked, Unopened, Sized, Wired;
    var s', t, m := Step(s, AgentStep(a)), s.agent.heap[r], A.Step(s.agent, a).1;
    A.DropFinal(s.agent, a, r);
    if m == Some(Close(t.id)) {
      A.CloseOutput(s.agent, a, t.id);
      assert a.r == r;
    }
    if A.SentNow(s.agent, a, r) != [] { A.SenderNotEnded(s.agent, r); }
    if m == Some(OpenResult(t.id, true)) {
      A.AnswerFirst(s.agent, a, t.id);
      A.ReporterNotEnded(s.agent, a);
    }
  }

  lemma AgentEnd(s: State, a: A.Action, r: A.Ref)
    requires EndInv(s) && Can(s, AgentStep(a)) && r < |s.agent.heap|
    ensures var s' := Step(s, AgentStep(a));
            s'.lines != [] && r < |s'.agent.heap| && s'.agent.heap[r].id in s'.host.tuns && EndOk(s', s'.agent.heap[r])
  {
    hide Step, Inv, EndOk, Ending, Unsent, Silent, A.Shape, A.Can, A.Step, Whole, Sound, Closers, A.Still,
      A.Pending, Wired;
    AgentGrows(s, a, r);
    AgentEnding(s, a, r);
    AgentKeeps(s, a);
    SomeLine(Step(s, AgentStep(a)));
    AgentHost(s, a);
    var s' := Step(s, AgentStep(a));
    GrownEnd(s, s', s.agent.heap[r], s'.agent.heap[r], A.SentNow(s.agent, a, r), A.Step(s.agent, a).1);
  }

  lemma AgentHost(s: State, a: A.Action)
    requires Can(s, AgentStep(a))
    ensures var s' := Step(s, AgentStep(a)); s'.host == s.host && SameFlags(s, s') && s'.lines == Wired(s, A.Step(s.agent, a).1)
  {
    hide A.Step, A.Can, Wired;
  }

  lemma AgentClosers(s: State, a: A.Action)
    requires Inv(s) && Can(s, AgentStep(a)) && Closers(s)
    ensures Closers(Step(s, AgentStep(a)))
  {
    hide A.Step, A.Inv, A.Shape, A.Can, H.Inv, Opening, Established, Linked, Unopened, Sized, HasTab;
    AgentTabs(s, a);
    if A.Step(s.agent, a).1.Some? { TabOfOutput(s, a); }
  }

  lemma AgentEndKeeps(s: State, a: A.Action)
    requires EndInv(s) && Can(s, AgentStep(a))
    ensures EndInv(Step(s, AgentStep(a)))
  {
    hide Step, Can, DownInv, Closers, EndOk;
    var s' := Step(s, AgentStep(a));
    AgentDownKeeps(s, a);
    DownHas(s);
    DownHas(s');
    AgentTabs(s, a);
    AgentClosers(s, a);
    forall r | 0 <= r < |s'.agent.heap| ensures s'.agent.heap[r].id in s'.host.tuns && EndOk(s', s'.agent.heap[r]) {
      AgentEnd(s, a, r);
    }
  }

  lemma DownHas(s: State)
    requires DownInv(s)
    ensures Inv(s) && s.lines != []
  {
    SomeLine(s);
  }

  lemma ReceiveEnding(s: State, ok: bool, r: A.Ref)
    requires Inv(s) && Can(s, AgentReceive(ok)) && r < |s.agent.heap|
    ensures var s' := Step(s, AgentReceive(ok));
            && r < |s'.agent.heap|
            && Ending(s.agent.heap[r], s'.agent.heap[r], [], A.Step(s.agent, A.Receive(s.toAgent[0], ok)).1)
  {
    hide A.TabOk, H.Inv, Opening, Established, Linked, Unopened, Sized, Wired;
    A.DropFinal(s.agent, A.Receive(s.toAgent[0], ok), r);
    A.ReceiveShape(s.agent, s.toAgent[0], ok);
    assert A.TabInv(s.agent, r);
  }

  lemma ReceiveEnd(s: State, ok: bool, r: A.Ref)
    requires EndInv(s) && Can(s, AgentReceive(ok)) && r < |s.agent.heap|
    ensures var s' := Step(s, AgentReceive(ok));
            s'.lines != [] && r < |s'.agent.heap| && s'.agent.heap[r].id in s'.host.tuns && EndOk(s', s'.agent.heap[r])
  {
    hide Step, Inv, EndOk, Ending, Unsent, Silent, A.Shape, A.Can, A.Step, Whole, Sound, Closers, A.Still,
      A.Pending, Wired;
    ReceiveGrows(s, ok, r);
    ReceiveEnding(s, ok, r);
    ReceiveKeeps(s, ok);
    SomeLine(Step(s, AgentReceive(ok)));
    ReceiveHost(s, ok);
    var s' := Step(s, AgentReceive(ok));
    GrownEnd(s, s', s.agent.heap[r], s'.agent.heap[r], [], A.Step(s.agent, A.Receive(s.toAgent[0], ok)).1);
  }

  lemma ReceiveHost(s: State, ok: bool)
    requires Can(s, AgentReceive(ok))
    ensures var s' := Step(s, AgentReceive(ok));
            && s'.host == s.host && SameFlags(s, s')
            && s'.lines == Wired(s, A.Step(s.agent, A.Receive(s.toAgent[0], ok)).1)
  {
    hide A.Step, A.Can, Wired;
  }

  // Nothing has been said about a tunnel just opened.
  lemma ReceiveNewEnd(s: State, ok: bool)
    requires EndInv(s) && Can(s, AgentReceive(ok)) && |Step(s, AgentReceive(ok)).agent.heap| == |s.agent.heap| + 1
    ensures var s' := Step(s, AgentReceive(ok)); var n := |s.agent.heap|;
            s'.lines != [] && s'.agent.heap[n].id in s'.host.tuns && EndOk(s', s'.agent.heap[n])
  {
    hide A.ReceiveStep, A.Inv, A.Shape, H.Inv, Established, Linked, Unopened, Sized, HasTab, EndOk, Unsent,
      Silent, DownLink, Wired;
    var s', n := Step(s, AgentReceive(ok)), |s.agent.heap|;
    A.ReceiveShape(s.agent, s.toAgent[0], ok);
    ReceiveHost(s, ok);
    var id := s.toAgent[0].id;
    assert Mine(s, id) && !HasTab(s, id);
    forall e | 0 <= e < |s.lines| ensures Close(id) !in s.lines[e] { assert ClosersIn(s, s.lines[e]); }
    NewEnd(s, s', s'.agent.heap[n], A.Step(s.agent, A.Receive(s.toAgent[0], ok)).1);
  }

  lemma NewEnd(s: State, s': State, t: A.Tab, m: Option<Msg>)
    requires s.lines != [] && s'.host == s.host && s'.lines == Wired(s, m) && (m.Some? ==> !m.value.Close?)
    requires t.id in s.host.tuns && !s.host.tuns[t.id].ending.ProbeClosed? && t == A.NewTab(t.id)
    requires forall e :: 0 <= e < |s.lines| ==> Close(t.id) !in s.lines[e]
    ensures s'.lines != [] && EndOk(s', t)
  {
  }

  lemma ReceiveClosers(s: State, ok: bool)
    requires Inv(s) && Can(s, AgentReceive(ok)) && Closers(s)
    ensures Closers(Step(s, AgentReceive(ok)))
  {
    hide A.ReceiveStep, A.Inv, A.Shape, H.Inv, Opening, Established, Linked, Unopened, Sized, HasTab;
    ReceiveTabs(s, ok);
    A.ReceiveShape(s.agent, s.toAgent[0], ok);
  }

  lemma ReceiveEndKeeps(s: State, ok: bool)
    requires EndInv(s) && Can(s, AgentReceive(ok))
    ensures EndInv(Step(s, AgentReceive(ok)))
  {
    hide Step, Can, DownInv, Closers, EndOk;
    var s' := Step(s, AgentReceive(ok));
    ReceiveDownKeeps(s, ok);
    DownHas(s);
    DownHas(s');
    ReceiveHeap(s, ok);
    ReceiveClosers(s, ok);
    forall r | 0 <= r < |s'.agent.heap| ensures s'.agent.heap[r].id in s'.host.tuns && EndOk(s', s'.agent.heap[r]) {
      if r < |s.agent.heap| { ReceiveEnd(s, ok, r); } else { ReceiveNewEnd(s, ok); }
    }
  }

  // ---- the host's steps ----

  lemma HostCloseHere(s: State, h: H.Action, t: A.Tab)
    requires Inv(s) && Can(s, HostStep(h)) && Mine(s, t.id) && !s.host.tuns[t.id].opener.OpSending? && CloseHere(s, t)
    ensures s.lines != [] && Step(s, HostStep(h)).lines != [] && t.id in Step(s, HostStep(h)).host.tuns
    ensures CloseHere(Step(s, HostStep(h)), t)
  {
    hide Step, Can, Inv, Whole, Bytes, OnClose, Answerable, CloseIn, MovedLive, Moved;
    SomeLine(s);
    SameLines(s, h);
    StillInTable(s, h, t.id);
    var s' := Step(s, HostStep(h));
    if s'.host.tuns[t.id].finish.Live? && Answerable(s', t.id) {
      HostAnswerable(s, h, t.id);
      if Whole(s, t) { HostWhole(s, h, t); }
      var q, now := HostMoved(s, h, t.id);
      forall e | 0 <= e < |s.lines| && OnClose(s, t, e) ensures OnClose(s', t, e) { MovedOnClose(s, s', t, e, q, now); }
    }
  }

  lemma MovedOnClose(s: State, s': State, t: A.Tab, e: nat, q: nat, now: seq<Chunk>)
    requires t.id in s.host.tuns && t.id in s'.host.tuns && MovedLive(s, s', t.id, q, now) && e < |s.lines| && OnClose(s, t, e)
    ensures OnClose(s', t, e)
  {
    hide Left, Bytes, Taken;
    if now != [] {
      assert q == e;
      FirstBytes(Left(s, e, t.id));
      assert Left(s', e, t.id) == Left(s, e, t.id)[1..];
      assert Taken(s', t.id) + Bytes(Left(s', e, t.id)) == Taken(s, t.id) + Bytes(Left(s, e, t.id));
    } else {
      assert Left(s', e, t.id) == Left(s, e, t.id);
    }
  }

  lemma StillInTable(s: State, h: H.Action, id: Id)
    requires Can(s, HostStep(h)) && id in s.host.tuns
    ensures id in Step(s, HostStep(h)).host.tuns
    ensures Step(s, HostStep(h)).host.tuns[id].finish.Live? ==> s.host.tuns[id].finish.Live?
  {
    hide H.Step, H.Can;
    H.StreamStep(s.host, h, id);
  }

  lemma HostAllQueued(s: State, h: H.Action, t: A.Tab)
    requires Inv(s) && Can(s, HostStep(h)) && Mine(s, t.id) && !s.host.tuns[t.id].opener.OpSending? && AllQueued(s, t)
    ensures t.id in Step(s, HostStep(h)).host.tuns && AllQueued(Step(s, HostStep(h)), t)
  {
    hide A.Inv, H.Inv, Opening, Established, Linked, Unopened, Sized, H.Step, H.Can, H.OutputOf, Sends, Taken, Answerable;
    var s', id := Step(s, HostStep(h)), t.id;
    HostTaken(s, h, id);
    H.StreamStep(s.host, h, id);
    HostHandlers(s, h);
    SameLines(s, h);
    H.SealStep(s.host, h, id);
    var now, had := H.QueuedNow(s.host, h, id), s.host.tuns[id].out.accepted;
    if now != [] { QueuedFrom(s, h, id); } else { assert had + now == had; }
    assert |s'.lines| == |s.lines|;
    forall e | 0 <= e < |s.lines| && Holding(s, e, id) == [] ensures Holding(s', e, id) == [] {}
    hide H.QueuedNow, Holding;
    if Answerable(s', id) { HostAnswerable(s, h, id); }
    if s'.host.tuns[id].ending.ProbeClosed? && t.cause.EndOfStream? && s.lossless && Answerable(s', id) { assert now == []; }
  }

  lemma HostEnd(s: State, h: H.Action, r: A.Ref)
    requires EndInv(s) && Can(s, HostStep(h)) && r < |s.agent.heap|
    ensures var s' := Step(s, HostStep(h)); s'.lines != [] && s.agent.heap[r].id in s'.host.tuns && EndOk(s', s.agent.heap[r])
  {
    hide Step, Can, Inv, DownLink, AllQueued, CloseHere, Closers, Unsent, Silent;
    var t := s.agent.heap[r];
    OwnTab(s, r);
    HostCloseHere(s, h, t);
    HostAllQueued(s, h, t);
    SameLines(s, h);
  }

  lemma HostClosers(s: State, h: H.Action)
    requires Inv(s) && Can(s, HostStep(h)) && Closers(s)
    ensures Closers(Step(s, HostStep(h)))
  {
    hide H.Step, H.Can, A.Inv, H.Inv, Opening, Established, Linked, Unopened, Sized, ClosersIn, HasTab;
    var s' := Step(s, HostStep(h));
    SameLines(s, h);
    SameTabs(s, s');
    forall id | Mine(s', id) && s'.host.tuns[id].ending.ProbeClosed? ensures HasTab(s', id) {
      if id !in s.host.tuns { H.SealNew(s.host, h, id); }
      if id in s.host.tuns {
        H.StreamStep(s.host, h, id);
        H.SealStep(s.host, h, id);
      }
    }
    forall e | 0 <= e < |s.lines| ensures ClosersIn(s', s'.lines[e]) { SameClosers(s, s', s.lines[e]); }
  }

  lemma SameClosers(s: State, s': State, q: seq<Msg>)
    requires ClosersIn(s, q) && forall id :: HasTab(s, id) ==> HasTab(s', id)
    ensures ClosersIn(s', q) && forall n :: 0 <= n <= |q| ==> ClosersIn(s', q[..n]) && ClosersIn(s', q[n..])
  {
    hide HasTab;
  }

  lemma HostEndKeeps(s: State, h: H.Action)
    requires EndInv(s) && Can(s, HostStep(h))
    ensures EndInv(Step(s, HostStep(h)))
  {
    hide Step, Can, DownInv, Closers, EndOk;
    var s' := Step(s, HostStep(h));
    HostDownKeeps(s, h);
    DownHas(s);
    DownHas(s');
    SameLines(s, h);
    HostClosers(s, h);
    forall r | 0 <= r < |s'.agent.heap| ensures s'.agent.heap[r].id in s'.host.tuns && EndOk(s', s'.agent.heap[r]) {
      HostEnd(s, h, r);
    }
  }

  // ---- messages taken by the host ----

  // The ProxyClose takes the tunnel out when everything has been queued.
  lemma ClosedQueued(s: State, s': State, e: nat, t: A.Tab)
    requires TakenOff(s, s', e, Close(t.id), t.id) && EndOk(s, t)
    requires Taken(s', t.id) == Taken(s, t.id) && SameFlags(s, s') && H.LifeOk(s.host.tuns[t.id])
    requires s.host.tuns[t.id].finish.Live?
    ensures AllQueued(s', t)
  {
    hide Taken, Bytes, Answerable, Whole;
    assert Close(t.id) in s.lines[e];
    if t.cause.EndOfStream? && s.lossless && Answerable(s', t.id) {
      ReceiveAnswerable(s, s', e, Close(t.id), t.id);
      assert OnClose(s, t, e);
      EmptyBytes();
      NotedHolding(s, s', e, Close(t.id), t.id, e);
      assert Left(s, e, t.id) == [] && Taken(s, t.id) + [] == Taken(s, t.id);
      forall i | 0 <= i < |s.lines| ensures Holding(s', i, t.id) == [] {
        NotedHolding(s, s', e, Close(t.id), t.id, i);
        if i != e { assert Left(s, i, t.id) == []; }
      }
    }
  }

  // A message changes nothing for a tunnel that is out of the table already, or is not taken out by it.
  lemma OtherQueued(s: State, s': State, e: nat, m: Msg, t: A.Tab)
    requires TakenOff(s, s', e, m, t.id) && AllQueued(s, t) && H.LifeOk(s.host.tuns[t.id])
    requires Taken(s', t.id) == Taken(s, t.id) && SameFlags(s, s')
    requires m != Close(t.id) || !s.host.tuns[t.id].finish.Live?
    ensures AllQueued(s', t)
  {
    hide Taken, Bytes, H.Noted, Answerable;
    var u := s.host.tuns[t.id];
    if Answerable(s', t.id) { ReceiveAnswerable(s, s', e, m, t.id); }
    if u.ending.ProbeClosed? {
      forall i | 0 <= i < |s.lines| ensures Holding(s', i, t.id) == Holding(s, i, t.id) {
        NotedHolding(s, s', e, m, t.id, i);
      }
      hide Holding;
    }
  }

  lemma TakenOffEnd(s: State, s': State, e: nat, m: Msg, t: A.Tab)
    requires TakenOff(s, s', e, m, t.id) && EndOk(s, t)
    requires Taken(s', t.id) == Taken(s, t.id) && SameFlags(s, s') && s'.up == s.up
    ensures CloseLast(s', t) && CloseHere(s', t)
  {
    hide Taken, Bytes, Coming, AllQueued, Left, Answerable, H.Noted;
    if s'.host.tuns[t.id].finish.Live? && Answerable(s', t.id) {
      ReceiveAnswerable(s, s', e, m, t.id);
      ReceiveComing(s, s', e, m, t.id);
      forall i | 0 <= i < |s.lines| ensures Left(s', i, t.id) == Left(s, i, t.id) { ReceiveLeft(s, s', e, m, t.id, i); }
      TakenOffClose(s, s', e, m, t.id);
      WholeSame(s, s', t);
      hide TakenOff, Whole, CloseLast;
    }
  }

  lemma TakenOffClose(s: State, s': State, e: nat, m: Msg, id: Id)
    requires TakenOff(s, s', e, m, id) && s'.host.tuns[id].finish.Live?
    ensures forall i :: 0 <= i < |s.lines| ==> (CloseIn(s'.lines[i], id) <==> CloseIn(s.lines[i], id))
  {
    hide H.Noted;
    assert !Ends(m, id);
  }

  lemma HostReceiveEnd(s: State, e: nat, r: A.Ref)
    requires EndInv(s) && Can(s, HostReceive(e)) && r < |s.agent.heap|
    ensures var s' := Step(s, HostReceive(e)); s'.lines != [] && s.agent.heap[r].id in s'.host.tuns && EndOk(s', s.agent.heap[r])
  {
    hide Step, H.Can, Inv, AllQueued, CloseHere, CloseLast, Closers, Unsent, Silent, TakenOff, Taken, Sound,
      Whole, H.LifeOk;
    var t, s', m := s.agent.heap[r], Step(s, HostReceive(e)), s.lines[e][0];
    OwnTab(s, r);
    TakenSame(s, e, t.id);
    ReceiveTakes(s, e, t.id);
    LifeOf(s, t.id);
    TakenOffEnd(s, s', e, m, t);
    if m == Close(t.id) && s.host.tuns[t.id].finish.Live? {
      ClosedQueued(s, s', e, t);
    } else {
      OtherQueued(s, s', e, m, t);
    }
  }

  lemma LifeOf(s: State, id: Id)
    requires Inv(s) && id in s.host.tuns
    ensures H.LifeOk(s.host.tuns[id])
  {
    hide A.Inv, H.LiveIn, H.LifeOk, H.LoopsOk, Opening, Established, Linked, Unopened, Sized;
    assert H.TunOk(s.host.tuns[id]);
  }

  lemma HostReceiveClosers(s: State, e: nat)
    requires Inv(s) && Can(s, HostReceive(e)) && Closers(s)
    ensures Closers(Step(s, HostReceive(e)))
  {
    hide A.Inv, H.Inv, Opening, Established, Linked, Unopened, Sized, HasTab, ClosersIn, H.Told, H.Noted;
    var s', m := Step(s, HostReceive(e)), s.lines[e][0];
    SameTabs(s, s');
    H.ReceiveIs(s.host, Conn(e), m);
    hide H.ReceiveStep;
    forall i | 0 <= i < |s.lines| ensures ClosersIn(s', s'.lines[i]) { SameClosers(s, s', s.lines[i]); }
    forall id | Mine(s', id) && s'.host.tuns[id].ending.ProbeClosed? ensures HasTab(s', id) {
      ToldClosed(s.host.tuns[id], m, id);
      if m == Close(id) { assert ClosersIn(s, s.lines[e]); FirstCloser(s, s.lines[e]); }
    }
  }

  lemma FirstCloser(s: State, q: seq<Msg>)
    requires q != [] && ClosersIn(s, q)
    ensures q[0].Close? ==> HasTab(s, q[0].id)
  {
    hide HasTab;
  }

  lemma ToldClosed(t: H.Tunnel, m: Msg, id: Id)
    ensures H.Told(t, ME, m, id).ending.ProbeClosed? ==> t.ending.ProbeClosed? || m == Close(id)
    ensures H.Told(t, ME, m, id).agent == t.agent
  {
  }

  lemma HostReceiveEndKeeps(s: State, e: nat)
    requires EndInv(s) && Can(s, HostReceive(e))
    ensures EndInv(Step(s, HostReceive(e)))
  {
    hide Step, Can, DownInv, Closers, EndOk;
    var s' := Step(s, HostReceive(e));
    HostReceiveDownKeeps(s, e);
    DownHas(s);
    DownHas(s');
    SameAgent(s, e);
    HostReceiveClosers(s, e);
    forall r | 0 <= r < |s'.agent.heap| ensures s'.agent.heap[r].id in s'.host.tuns && EndOk(s', s'.agent.heap[r]) {
      HostReceiveEnd(s, e, r);
    }
  }

  lemma SameAgent(s: State, e: nat)
    requires Can(s, HostReceive(e))
    ensures Step(s, HostReceive(e)).agent == s.agent
  {
    hide H.Step, H.Can;
  }

  // ---- connections that break and come back ----

  lemma SameTaken(s: State, s': State, id: Id)
    requires s'.host == s.host && id in s.host.tuns
    ensures Taken(s', id) == Taken(s, id)
  {
  }

  lemma LoseEnd(s: State, e: nat, n: nat, t: A.Tab)
    requires Can(s, Lose(e, n)) && t.id in s.host.tuns && EndOk(s, t)
    ensures EndOk(Step(s, Lose(e, n)), t)
  {
    hide DataOf, DataBefore, Bytes, Left, Answerable, Taken, CloseIn, Coming;
    var s', q := Step(s, Lose(e, n)), s.lines[e];
    LoseCuts(s, e, n, t.id);
    assert q == q[..n] + q[n..];
    assert forall m :: m in q[..n] ==> m in q;
    SameTaken(s, s', t.id);
    forall i | 0 <= i < |s.lines| && CloseIn(s'.lines[i], t.id)
      ensures CloseIn(s.lines[i], t.id) && Left(s', i, t.id) == Left(s, i, t.id)
    {
      LoseBehind(s, e, n, t.id, i);
    }
    assert forall i :: 0 <= i < |s.lines| ==> Holding(s', i, t.id) == Holding(s, i, t.id);
    hide Holding;
  }

  // Only what is behind the ProxyClose can be lost without losing it.
  lemma LoseBehind(s: State, e: nat, n: nat, id: Id, i: nat)
    requires Can(s, Lose(e, n)) && id in s.host.tuns && i < |s.lines| && CloseIn(Step(s, Lose(e, n)).lines[i], id)
    ensures CloseIn(s.lines[i], id) && Left(Step(s, Lose(e, n)), i, id) == Left(s, i, id)
  {
    hide DataBefore, CloseIn;
    var s', q := Step(s, Lose(e, n)), s.lines[e];
    assert Holding(s', i, id) == Holding(s, i, id);
    if i == e {
      assert q == q[..n] + q[n..];
      CloseFirst(q[..n], q[n..], id);
    }
  }

  lemma ReconnectEnd(s: State, t: A.Tab)
    requires Can(s, Reconnect) && t.id in s.host.tuns && EndOk(s, t) && Mine(s, t.id) && Conn(|s.lines|) !in s.host.handlers
    requires t in s.agent.heap && s.lines != []
    ensures EndOk(Step(s, Reconnect), t)
  {
    hide Harmless, NoneLeft, Bytes, A.Shape, A.ByReceiver, Left, Answerable, Coming, CloseIn;
    var s' := Step(s, Reconnect);
    ReconnectLeft(s, t.id);
    assert !CloseIn([], t.id) by { NoClose(t.id); }
    if Answerable(s', t.id) { ReconnectAnswers(s, t.id); }
    assert forall i :: 0 <= i < |s.lines| ==> Holding(s', i, t.id) == Holding(s, i, t.id);
    assert Holding(s', |s.lines|, t.id) == [];
    hide Holding;
    EmptyBytes();
    assert Taken(s, t.id) + [] == Taken(s, t.id);
    if t.cause.EndOfStream? && s'.lossless && s.host.tuns[t.id].finish.Live? && Answerable(s', t.id) && !t.drop.Dropped? {
      var r :| 0 <= r < |s.agent.heap| && s.agent.heap[r] == t;
      assert Due(s, s.agent.heap[r]);
    }
    hide Lossless;
  }

  lemma NoClose(id: Id)
    ensures !CloseIn([], id)
  {
  }

  lemma BreakEnd(s: State, act: Action, r: A.Ref)
    requires EndInv(s) && Can(s, act) && (act.Disconnect? || act.Lose? || act.Reconnect?) && r < |s.agent.heap|
    ensures var s' := Step(s, act); s'.lines != [] && s.agent.heap[r].id in s'.host.tuns && EndOk(s', s.agent.heap[r])
  {
    hide Inv, DownLink, EndOk, Closers, Unsent, Silent, Harmless, NoneLeft, Lossless, A.Shape, A.ByReceiver;
    var t := s.agent.heap[r];
    OwnTab(s, r);
    Unheld(s);
    match act
    case Disconnect => DisconnectEnd(s, t);
    case Lose(e, n) => LoseEnd(s, e, n, t);
    case Reconnect => ReconnectEnd(s, t);
    case _ =>
  }

  lemma DisconnectEnd(s: State, t: A.Tab)
    requires s.lines != [] && t.id in s.host.tuns && EndOk(s, t)
    ensures EndOk(Step(s, Disconnect), t)
  {
    hide Bytes, Left, Answerable, Whole, CloseIn, Taken;
    var s' := Step(s, Disconnect);
    DisconnectCuts(s, t.id);
    SameTaken(s, s', t.id);
    forall i | 0 <= i < |s.lines| ensures Left(s', i, t.id) == Left(s, i, t.id) { SameLeft(s, t.id, i); }
    assert forall i :: 0 <= i < |s.lines| ==> Holding(s', i, t.id) == Holding(s, i, t.id);
    hide Holding;
  }

  lemma SameLeft(s: State, id: Id, i: nat)
    requires s.lines != [] && id in s.host.tuns && i < |s.lines|
    ensures Left(Step(s, Disconnect), i, id) == Left(s, i, id)
  {
    hide DataBefore;
  }

  lemma BreakClosers(s: State, act: Action)
    requires Inv(s) && Can(s, act) && (act.Disconnect? || act.Lose? || act.Reconnect?) && Closers(s)
    ensures Closers(Step(s, act))
  {
    hide Inv, HasTab, ClosersIn, Harmless, NoneLeft, A.Shape, A.ByReceiver;
    var s' := Step(s, act);
    SameTabs(s, s');
    forall e | 0 <= e < |s'.lines| ensures ClosersIn(s', s'.lines[e]) {
      if e < |s.lines| { SameClosers(s, s', s.lines[e]); } else { NoClosers(s'); }
    }
  }

  lemma NoClosers(s: State)
    ensures ClosersIn(s, [])
  {
  }

  lemma BreakEndKeeps(s: State, act: Action)
    requires EndInv(s) && Can(s, act) && (act.Disconnect? || act.Lose? || act.Reconnect?)
    ensures EndInv(Step(s, act))
  {
    hide Step, Can, DownInv, Closers, EndOk;
    var s' := Step(s, act);
    BreakDownKeeps(s, act);
    DownHas(s);
    DownHas(s');
    BreakAgent(s, act);
    BreakClosers(s, act);
    forall r | 0 <= r < |s'.agent.heap| ensures s'.agent.heap[r].id in s'.host.tuns && EndOk(s', s'.agent.heap[r]) {
      BreakEnd(s, act, r);
    }
  }

  lemma BreakAgent(s: State, act: Action)
    requires Can(s, act) && (act.Disconnect? || act.Lose? || act.Reconnect?)
    ensures Step(s, act).agent == s.agent
  {
    hide Harmless, NoneLeft;
  }

  // ---- runs ----

  lemma StepEndKeeps(s: State, act: Action)
    requires EndInv(s) && Can(s, act)
    ensures EndInv(Step(s, act))
  {
    hide EndInv, Can, Step;
    match act
    case HostStep(h) => HostEndKeeps(s, h);
    case HostReceive(e) => HostReceiveEndKeeps(s, e);
    case AgentStep(a) => AgentEndKeeps(s, a);
    case AgentReceive(ok) => ReceiveEndKeeps(s, ok);
    case _ => BreakEndKeeps(s, act);
  }

  lemma {:induction false} RunEndKeeps(acts: seq<Action>)
    requires Run(acts).Some?
    ensures EndInv(Run(acts).value)
  {
    if acts == [] {
      RunDownKeeps([]);
      hide DownInv;
    } else {
      hide Step, Can, EndInv;
      RunEndKeeps(acts[..|acts| - 1]);
      StepEndKeeps(Run(acts[..|acts| - 1]).value, acts[|acts| - 1]);
    }
  }

  // If the target's end of stream is what ended the tunnel (the probe dropped it there, and the host removed
  // it on the probe's ProxyClose), then a client writer that ends without a failed write has handed the
  // client exactly the bytes the probe read from the target.
  ghost predicate Complete(s: State, r: A.Ref)
    requires r < |s.agent.heap|
  {
    var t := s.agent.heap[r];
    t.cause.EndOfStream? && t.id in s.host.tuns ==>
      var u := s.host.tuns[t.id];
      u.ending.ProbeClosed? && u.out.pc == OutEnded(true) ==> Delivered(u.out) == Bytes(t.src.read)
  }

  // Every download is complete in this sense as long as every reconnect was lossless, in particular as long
  // as every reconnect found no tunnel of the probe.
  lemma ClientReceivesAll(acts: seq<Action>, r: A.Ref)
    requires Run(acts).Some? && (Run(acts).value.lossless || Run(acts).value.orderly) && r < |Run(acts).value.agent.heap|
    ensures Complete(Run(acts).value, r)
  {
    RunEndKeeps(acts);
    hide Run, Complete, EndInv;
    EndComplete(Run(acts).value, r);
  }

  lemma EndComplete(s: State, r: A.Ref)
    requires EndInv(s) && (s.lossless || s.orderly) && r < |s.agent.heap|
    ensures Complete(s, r)
  {
    hide Inv, DownLink, CloseLast, CloseHere, AllQueued, Closers, Unsent, Silent, Delivered, Bytes;
    var t := s.agent.heap[r];
    var u := s.host.tuns[t.id];
    if t.cause.EndOfStream? && u.ending.ProbeClosed? && u.out.pc == OutEnded(true) { Drained(s, r); }
  }

  lemma Drained(s: State, r: A.Ref)
    requires Inv(s) && r < |s.agent.heap| && s.agent.heap[r].id in s.host.tuns && AllQueued(s, s.agent.heap[r])
    requires s.agent.heap[r].cause.EndOfStream? && s.lossless
    requires var u := s.host.tuns[s.agent.heap[r].id]; u.ending.ProbeClosed? && u.out.pc == OutEnded(true)
    ensures Delivered(s.host.tuns[s.agent.heap[r].id].out) == Bytes(s.agent.heap[r].src.read)
  {
    hide Opening, Established, Linked, Unopened, Sized, H.LiveIn, SourceInv, Answers;
    var u := s.host.tuns[s.agent.heap[r].id];
    assert A.TabInv(s.agent, r) && H.TunOk(u);
    assert H.Serving(u);
    assert u.out.written == u.out.accepted && Bytes(u.out.written) + [] == Bytes(u.out.written);
  }
}
