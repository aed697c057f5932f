// The converse of Reconnects: after a reconnect that was not harmless, some run leaves a client with a gap.
module Gaps {
  import opened Options
  import opened Wire
  import opened Relay
  import opened Reconnects
  import H = Host
  import A = Agent

  // ---- the order of what the probe says about a tunnel ----

  predicate Speaks(m: Msg, id: Id) { m.id == id && (m.OpenResult? || m.Data?) }

  // The probe has had its one request for the tunnel, and its dialer is done.
  ghost predicate Settled(s: State, id: Id) {
    && Mine(s, id) && !s.host.tuns[id].opener.OpSending?
    && (forall k :: 0 <= k < |s.toAgent| ==> !(s.toAgent[k].Open? && s.toAgent[k].id == id))
    && (forall r :: 0 <= r < |s.agent.heap| && s.agent.heap[r].id == id ==> s.agent.heap[r].dialer.DialDone?)
  }

  ghost predicate AllSettled(s: State, q: seq<Msg>) {
    forall k :: 0 <= k < |q| && Speaks(q[k], q[k].id) ==> Settled(s, q[k].id)
  }

  predicate Good(m: Msg) { m.OpenResult? && m.ok }

  // A good dial result comes before everything else that is said about its tunnel.
  ghost predicate AnswersFirst(q: seq<Msg>) {
    forall k, l :: 0 <= k < l < |q| && Good(q[l]) ==> !Speaks(q[k], q[l].id)
  }

  ghost predicate HandFirst(p: H.Handler, q: seq<Msg>) {
    forall l :: 0 <= l < |q| && Good(q[l]) ==> p.id != q[l].id
  }

  ghost predicate HandOk(s: State, e: nat)
    requires e < |s.lines|
  {
    Conn(e) in s.host.handlers ==>
      var p := s.host.handlers[Conn(e)];
      Settled(s, p.id) && HandFirst(p, s.lines[e]) && (p.Delivering? ==> p.chunk != [])
  }

  ghost predicate Talk(s: State) {
    forall e :: 0 <= e < |s.lines| ==> AllSettled(s, s.lines[e]) && AnswersFirst(s.lines[e]) && HandOk(s, e)
  }

  lemma PutTalk(s: State, s': State, q: seq<Msg>, m: Option<Msg>)
    requires AllSettled(s, q) && AnswersFirst(q) && forall id :: Settled(s, id) ==> Settled(s', id)
    requires m.Some? && Speaks(m.value, m.value.id) ==> Settled(s', m.value.id)
    requires m.Some? && Good(m.value) ==> !Settled(s, m.value.id)
    ensures AllSettled(s', Put(q, m)) && AnswersFirst(Put(q, m))
  {
    hide Settled;
    var q' := Put(q, m);
    forall k, l | 0 <= k < l < |q'| && Good(q'[l]) ensures !Speaks(q'[k], q'[l].id) {}
  }

  lemma WiredTalk(s: State, s': State, m: Option<Msg>)
    requires Talk(s) && s.lines != [] && s'.lines == Wired(s, m) && forall id :: Settled(s, id) ==> Settled(s', id)
    requires forall e :: 0 <= e < |s.lines| && Conn(e) in s'.host.handlers ==>
               Conn(e) in s.host.handlers && s'.host.handlers[Conn(e)] == s.host.handlers[Conn(e)]
    requires m.Some? && Speaks(m.value, m.value.id) ==> Settled(s', m.value.id)
    requires m.Some? && Good(m.value) ==> !Settled(s, m.value.id)
    ensures Talk(s')
  {
    hide Settled, Speaks, AllSettled, AnswersFirst;
    forall e | 0 <= e < |s'.lines| ensures AllSettled(s', s'.lines[e]) && AnswersFirst(s'.lines[e]) && HandOk(s', e) {
      PutTalk(s, s', s.lines[e], m);
      PutTalk(s, s', s.lines[e], None);
    }
  }

  lemma HostTalkKeeps(s: State, h: H.Action)
    requires Inv(s) && Can(s, HostStep(h)) && Talk(s)
    ensures Talk(Step(s, HostStep(h)))
  {
    hide Step, Can, Inv, Talk, Settled;
    var s' := Step(s, HostStep(h));
    SomeLine(s);
    HostHandlers(s, h);
    SameLines(s, h);
    forall id | Settled(s, id) ensures Settled(s', id) { HostSettled(s, h, id); }
    assert s'.lines == Wired(s, None);
    WiredTalk(s, s', None);
  }

  lemma HostSettled(s: State, h: H.Action, id: Id)
    requires Inv(s) && Can(s, HostStep(h)) && Settled(s, id)
    ensures Settled(Step(s, HostStep(h)), id)
  {
    hide H.Step, H.Can, Inv, Emitted, Sends, H.OutputOf;
    EmittedFacts(s, h);
    H.StreamStep(s.host, h, id);
  }

  lemma ReceiveTalk(s: State, e: nat)
    requires Inv(s) && Can(s, HostReceive(e)) && Talk(s)
    ensures Talk(Step(s, HostReceive(e)))
  {
    hide H.Step, H.Can, A.Inv, H.Inv, Opening, Established, Linked, Unopened;
    var s', q := Step(s, HostReceive(e)), s.lines[e];
    HostReceiveTunnels(s, e);
    FirstSized(q);
    hide Sized;
    forall id | Settled(s, id) ensures Settled(s', id) {}
    hide Settled;
    forall i | 0 <= i < |s'.lines| ensures AllSettled(s', s'.lines[i]) && AnswersFirst(s'.lines[i]) && HandOk(s', i) {
      assert AllSettled(s, s.lines[i]) && AnswersFirst(s.lines[i]) && HandOk(s, i);
      if i == e { TailTalk(s, s', q); }
    }
  }

  lemma TailTalk(s: State, s': State, q: seq<Msg>)
    requires q != [] && AllSettled(s, q) && AnswersFirst(q) && forall id :: Settled(s, id) ==> Settled(s', id)
    ensures AllSettled(s', q[1..]) && AnswersFirst(q[1..])
    ensures Speaks(q[0], q[0].id) ==> Settled(s', q[0].id) && forall p: H.Handler :: p.id == q[0].id ==> HandFirst(p, q[1..])
  {
    hide Settled;
  }

  lemma AgentSettled(s: State, a: A.Action, id: Id)
    requires Inv(s) && Can(s, AgentStep(a)) && Settled(s, id)
    ensures Settled(Step(s, AgentStep(a)), id)
  {
    hide A.Step, A.Inv, A.Can, A.Shape, H.Inv, Established, Linked, Unopened, Sized, Opening, Wired, HasTab;
    AgentTabs(s, a);
    forall r | 0 <= r < |s.agent.heap| && s.agent.heap[r].id == id
      ensures r < |Step(s, AgentStep(a)).agent.heap| && Step(s, AgentStep(a)).agent.heap[r].dialer.DialDone?
    {
      A.StillStep(s.agent, a, r);
    }
  }

  lemma AgentSpeaks(s: State, a: A.Action)
    requires Inv(s) && Can(s, AgentStep(a))
    ensures var s' := Step(s, AgentStep(a)); var m := A.Step(s.agent, a).1;
            && (m.Some? && Speaks(m.value, m.value.id) ==> Settled(s', m.value.id))
            && (m.Some? && Good(m.value) ==> !Settled(s, m.value.id))
  {
    var s', m := Step(s, AgentStep(a)), A.Step(s.agent, a).1;
    AgentTabs(s, a);
    if m.Some? && Speaks(m.value, m.value.id) {
      A.SpeakerSettled(s.agent, a);
      if Good(m.value) { A.AnswerFirst(s.agent, a, m.value.id); }
      OwnTab(s, a.r);
      OwnSettled(s, s', a.r);
    }
    hide A.Step, A.Can, A.Shape, Inv;
  }

  lemma OwnSettled(s: State, s': State, r: A.Ref)
    requires Inv(s) && r < |s.agent.heap| == |s'.agent.heap| && s'.host == s.host && s'.toAgent == s.toAgent
    requires forall q :: 0 <= q < |s.agent.heap| ==> s'.agent.heap[q].id == s.agent.heap[q].id
    requires s'.agent.heap[r].dialer.DialDone?
    ensures Settled(s', s.agent.heap[r].id)
  {
    hide A.Inv, H.Inv, Established, Linked, Unopened, Sized;
    assert HasTab(s, s.agent.heap[r].id);
  }

  lemma AgentTalkKeeps(s: State, a: A.Action)
    requires Inv(s) && Can(s, AgentStep(a)) && Talk(s)
    ensures Talk(Step(s, AgentStep(a)))
  {
    hide A.Step, A.Can, A.Shape, Inv, Talk, Settled, Speaks, Good, Wired;
    var s' := Step(s, AgentStep(a));
    AgentSpeaks(s, a);
    forall id | Settled(s, id) ensures Settled(s', id) { AgentSettled(s, a, id); }
    assert s.lines != [];
    WiredTalk(s, s', A.Step(s.agent, a).1);
  }

  lemma ReceiveSettled(s: State, ok: bool, id: Id)
    requires Inv(s) && Can(s, AgentReceive(ok)) && Settled(s, id)
    ensures Settled(Step(s, AgentReceive(ok)), id)
  {
    hide A.Step, A.Can, A.Shape, A.Inv, H.Inv, Established, Linked, Unopened, Sized, Wired;
    ReceiveTabs(s, ok);
    var s' := Step(s, AgentReceive(ok));
    forall r | 0 <= r < |s'.agent.heap| && s'.agent.heap[r].id == id ensures s'.agent.heap[r].dialer.DialDone? {
      if r < |s.agent.heap| { A.StillStep(s.agent, A.Receive(s.toAgent[0], ok), r); }
    }
  }

  // A request that is refused at once leaves no tunnel behind.
  lemma ReceiveSpeaks(s: State, ok: bool)
    requires Inv(s) && Can(s, AgentReceive(ok))
    ensures var s' := Step(s, AgentReceive(ok)); var m := A.Step(s.agent, A.Receive(s.toAgent[0], ok)).1;
            m.Some? ==> !Good(m.value) && Settled(s', m.value.id)
  {
    hide A.Inv, H.Inv, Established, Linked, Unopened, Sized, Wired, A.Shape;
    var s', m := Step(s, AgentReceive(ok)), s.toAgent[0];
    ReceiveTabs(s, ok);
    if A.Step(s.agent, A.Receive(m, ok)).1.Some? {
      assert m.Open? && !HasTab(s, m.id) && Mine(s, m.id);
      forall r | 0 <= r < |s.agent.heap| ensures s.agent.heap[r].id != m.id { assert !HasTab(s, m.id); }
      hide HasTab;
    }
  }

  lemma ReceiveTalkKeeps(s: State, ok: bool)
    requires Inv(s) && Can(s, AgentReceive(ok)) && Talk(s)
    ensures Talk(Step(s, AgentReceive(ok)))
  {
    hide A.Step, A.Can, A.Shape, Inv, Talk, Settled, Speaks, Good, Wired;
    var s' := Step(s, AgentReceive(ok));
    ReceiveSpeaks(s, ok);
    forall id | Settled(s, id) ensures Settled(s', id) { ReceiveSettled(s, ok, id); }
    assert s.lines != [];
    WiredTalk(s, s', A.Step(s.agent, A.Receive(s.toAgent[0], ok)).1);
  }

  lemma BreakTalk(s: State, act: Action)
    requires Inv(s) && Can(s, act) && (act.Disconnect? || act.Lose? || act.Reconnect?) && Talk(s)
    ensures Talk(Step(s, act))
  {
    hide Inv, Harmless, NoneLeft, Lossless, A.Shape, A.ByReceiver, Speaks;
    Unheld(s);
    var s' := Step(s, act);
    forall id | Settled(s, id) ensures Settled(s', id) {}
    hide Settled;
    forall e | 0 <= e < |s'.lines| ensures AllSettled(s', s'.lines[e]) && AnswersFirst(s'.lines[e]) && HandOk(s', e) {
      if e < |s.lines| { assert AllSettled(s, s.lines[e]) && AnswersFirst(s.lines[e]) && HandOk(s, e); }
    }
  }

  lemma StepTalk(s: State, act: Action)
    requires Inv(s) && Can(s, act) && Talk(s)
    ensures Talk(Step(s, act))
  {
    hide Inv, Can, Step, Talk;
    match act
    case HostStep(h) => HostTalkKeeps(s, h);
    case HostReceive(e) => ReceiveTalk(s, e);
    case AgentStep(a) => AgentTalkKeeps(s, a);
    case AgentReceive(ok) => ReceiveTalkKeeps(s, ok);
    case _ => BreakTalk(s, act);
  }

  lemma {:induction false} RunTalk(acts: seq<Action>)
    requires Run(acts).Some?
    ensures Talk(Run(acts).value)
  {
    if acts != [] {
      hide Step, Can, Talk;
      RunTalk(acts[..|acts| - 1]);
      RunKeeps(acts[..|acts| - 1]);
      hide Inv;
      StepTalk(Run(acts[..|acts| - 1]).value, acts[|acts| - 1]);
    }
  }

  // ---- continuing a run without another reconnect ----

  ghost predicate Reaches(s: State, g: State) {
    exists acts :: Reconnect !in acts && RunFrom(s, acts) == Some(g)
  }

  ghost predicate Sane(s: State) { Inv(s) && Talk(s) }

  lemma Stay(s: State)
    ensures Reaches(s, s)
  {
    assert RunFrom(s, []) == Some(s);
  }

  lemma Go(s: State, act: Action) returns (g: State)
    requires Sane(s) && Can(s, act) && !act.Reconnect?
    ensures g == Step(s, act) && Reaches(s, g) && Sane(g)
  {
    hide Step, Can, Inv, Talk;
    g := Step(s, act);
    StepKeeps(s, act);
    StepTalk(s, act);
    assert [act][..|[act]| - 1] == [];
    assert RunFrom(s, []) == Some(s);
    assert RunFrom(s, [act]) == Some(g);
  }

  lemma HasLines(s: State)
    requires Sane(s)
    ensures s.lines != []
  {
    hide A.Inv, H.Inv, Talk, Opening, Established, Linked, Unopened, Sized;
  }

  lemma Onwards(s: State, g: State, g': State)
    requires Reaches(s, g) && Reaches(g, g')
    ensures Reaches(s, g')
  {
    hide Step, Can;
    var acts :| Reconnect !in acts && RunFrom(s, acts) == Some(g);
    var more :| Reconnect !in more && RunFrom(g, more) == Some(g');
    RunJoins(s, acts, more);
    assert RunFrom(s, acts + more) == Some(g') && Reconnect !in acts + more;
  }

  // Tunnel id is in the host's table.
  predicate Alive(s: State, id: Id) { Mine(s, id) && s.host.tuns[id].finish.Live? }

  // What is taken and what may still come for tunnel id is the same in both states.
  ghost predicate Kept(s: State, g: State, id: Id) {
    && Alive(s, id) && Alive(g, id) && g.agent == s.agent && |g.lines| == |s.lines|
    && Taken(g, id) == Taken(s, id)
    && (forall e :: 0 <= e < |s.lines| ==> Left(g, e, id) == Left(s, e, id))
    && SameCloses(s, g, id)
  }

  // The ProxyClose of the tunnel is ahead on the same lines.
  ghost predicate SameCloses(s: State, g: State, id: Id) {
    && |g.lines| == |s.lines|
    && forall e :: 0 <= e < |s.lines| ==> (CloseIn(g.lines[e], id) <==> CloseIn(s.lines[e], id))
  }

  // From s to g nothing has changed for tunnel id but what the host makes of the queued chunks.
  ghost predicate Leads(s: State, g: State, id: Id) { Reaches(s, g) && Sane(g) && Kept(s, g, id) }

  lemma LeadsOn(s: State, g: State, g': State, id: Id)
    requires Leads(s, g, id) && Leads(g, g', id)
    ensures Leads(s, g', id)
  {
    hide Left, Taken, Reaches, Sane, SameCloses;
    Onwards(s, g, g');
    ClosesOn(s, g, g', id);
  }

  lemma ClosesOn(s: State, g: State, g': State, id: Id)
    requires SameCloses(s, g, id) && SameCloses(g, g', id)
    ensures SameCloses(s, g', id)
  {
    hide CloseIn;
  }

  lemma LeadsStay(s: State, id: Id)
    requires Sane(s) && Alive(s, id)
    ensures Leads(s, s, id)
  {
    Stay(s);
    hide Sane, Reaches;
  }

  // ---- the host serves the client ----

  lemma HostOnly(s: State, g: State, id: Id)
    requires Alive(s, id) && Alive(g, id) && g == s.(host := g.host)
    requires g.host.tuns[id].out.accepted == s.host.tuns[id].out.accepted
    requires forall e :: 0 <= e < |s.lines| ==> Holding(g, e, id) == Holding(s, e, id)
    ensures Kept(s, g, id)
  {
    hide Holding, Bytes, DataBefore;
  }

  // A step of the tunnel's own goroutines that neither ends it nor sends.
  ghost predicate Inner(u: H.Tunnel, act: H.Action) {
    && H.OfTunnel(act) && H.TunCan(u, act) && H.OutputOf(u, act).None?
    && var u' := H.TunNext(u, act); u'.finish == u.finish && u'.agent == u.agent && u'.out.accepted == u.out.accepted
  }

  lemma OwnStep(s: State, act: H.Action, id: Id)
    requires s.lines != [] && Alive(s, id) && Inner(s.host.tuns[id], act) && act.id == id
    ensures Can(s, HostStep(act))
    ensures Step(s, HostStep(act)) == s.(host := s.host.(tuns := s.host.tuns[id := H.TunNext(s.host.tuns[id], act)]))
  {
    hide H.TunNext, H.TunCan, H.OutputOf;
  }

  lemma OwnMove(s: State, act: H.Action, id: Id) returns (g: State)
    requires Sane(s) && Alive(s, id) && Inner(s.host.tuns[id], act) && act.id == id
    ensures Leads(s, g, id) && Alive(g, id)
    ensures g == s.(host := s.host.(tuns := s.host.tuns[id := H.TunNext(s.host.tuns[id], act)]))
  {
    hide H.TunNext, H.TunCan, H.OutputOf, Sane, Reaches, Step, Can, Kept;
    HasLines(s);
    OwnStep(s, act, id);
    g := Go(s, HostStep(act));
    HostOnly(s, g, id);
  }

  lemma StartServing(s: State, id: Id) returns (g: State)
    requires Sane(s) && Alive(s, id) && H.Serving(s.host.tuns[id])
    ensures Leads(s, g, id) && Alive(g, id) && g.host.tuns[id].opener.OpPumping?
  {
    hide Sane, Reaches, Kept;
    LeadsStay(s, id);
    var u := s.host.tuns[id];
    g := s;
    if u.opener.OpWaiting? {
      g := OwnMove(g, H.TakeResult(id), id);
    }
    if g.host.tuns[id].opener.OpReturned? {
      var g' := OwnMove(g, H.StartPump(id), id);
      LeadsOn(s, g, g', id);
      g := g';
    }
  }

  // The client writer has nothing to do.
  predicate Ready(s: State, id: Id) {
    Alive(s, id) && s.host.tuns[id].opener.OpPumping? && s.host.tuns[id].out.pc.OutSelecting? && s.host.tuns[id].inbound == []
  }

  lemma {:induction false} Drain(s: State, id: Id) returns (g: State)
    requires Sane(s) && Alive(s, id) && s.host.tuns[id].opener.OpPumping?
    ensures Leads(s, g, id) && Ready(g, id)
    decreases |s.host.tuns[id].inbound|, s.host.tuns[id].out.pc.OutWriting?
  {
    hide Sane, Reaches, Kept;
    LeadsStay(s, id);
    Pumping(s, id);
    var u := s.host.tuns[id];
    if u.out.pc.OutWriting? {
      var g' := OwnMove(s, H.WriteOk(id), id);
      g := Drain(g', id);
      LeadsOn(s, g', g, id);
    } else if u.inbound != [] {
      var g' := OwnMove(s, H.TakeChunk(id), id);
      g := Drain(g', id);
      LeadsOn(s, g', g, id);
    } else {
      g := s;
    }
  }

  lemma Pumping(s: State, id: Id)
    requires Sane(s) && Alive(s, id) && s.host.tuns[id].opener.OpPumping?
    ensures var pc := s.host.tuns[id].out.pc; pc.OutSelecting? || (pc.OutWriting? && !pc.draining)
  {
    hide A.Inv, Talk, Opening, Established, Linked, Unopened, Sized, H.LiveIn;
    assert H.TunOk(s.host.tuns[id]);
  }

  // ---- the handler of one connection ----

  // A handler that is busy with something else finishes.
  lemma Clear(s: State, e: nat, id: Id) returns (g: State)
    requires Sane(s) && Alive(s, id) && e < |s.lines| && Conn(e) in s.host.handlers
    requires var p := s.host.handlers[Conn(e)]; p.id != id || (p.Posting? && s.host.tuns[id].opener.OpPumping?)
    ensures Leads(s, g, id) && Alive(g, id) && g.lines == s.lines && Conn(e) !in g.host.handlers
    ensures g.host.tuns[id] == s.host.tuns[id].(result := g.host.tuns[id].result)
    ensures s.host.handlers[Conn(e)].id != id ==> g.host.tuns[id] == s.host.tuns[id]
  {
    hide Sane, Reaches, Step, Can, Kept;
    HandlerKnown(s, e);
    var p := s.host.handlers[Conn(e)];
    var act := if p.Posting? then H.Post(Conn(e)) else H.DeliverTimeout(Conn(e));
    ClearStep(s, e, act, id);
    g := Go(s, HostStep(act));
    HostOnly(s, g, id);
  }

  lemma ClearStep(s: State, e: nat, act: H.Action, id: Id)
    requires s.lines != [] && Alive(s, id) && Conn(e) in s.host.handlers && s.host.handlers[Conn(e)].id in s.host.tuns
    requires var p := s.host.handlers[Conn(e)]; p.id != id || p.Posting?
    requires act == if s.host.handlers[Conn(e)].Posting? then H.Post(Conn(e)) else H.DeliverTimeout(Conn(e))
    ensures Can(s, HostStep(act))
    ensures var g := Step(s, HostStep(act));
            && g == s.(host := g.host) && Alive(g, id) && Conn(e) !in g.host.handlers
            && g.host.tuns[id] == s.host.tuns[id].(result := g.host.tuns[id].result)
            && (s.host.handlers[Conn(e)].id != id ==> g.host.tuns[id] == s.host.tuns[id])
            && forall i :: 0 <= i < |s.lines| ==> Holding(g, i, id) == Holding(s, i, id)
  {
    hide H.Step;
    H.HandlerStepIs(s.host, act);
  }

  lemma HandlerKnown(s: State, e: nat)
    requires Sane(s) && Conn(e) in s.host.handlers
    ensures s.host.handlers[Conn(e)].id in s.host.tuns && s.lines != []
  {
    hide A.Inv, Talk, Opening, Established, Linked, Unopened, Sized, H.LiveIn, H.TunOk;
  }

  // The handler takes the next message of its line, one that does not end tunnel id.
  lemma Pull(s: State, e: nat, id: Id) returns (g: State)
    requires Sane(s) && Alive(s, id) && e < |s.lines| && s.lines[e] != [] && Conn(e) !in s.host.handlers
    requires !Ends(s.lines[e][0], id)
    ensures Leads(s, g, id) && Alive(g, id) && g.lines == s.lines[e := s.lines[e][1..]]
    ensures g.host.tuns[id] == s.host.tuns[id] && g.host.handlers == H.Noted(s.host, Conn(e), s.lines[e][0])
  {
    hide Inv, Talk, Reaches, Left, Taken, Step, H.Noted;
    PullStep(s, e);
    g := Go(s, HostReceive(e));
    ReceiveTakes(s, e, id);
    PullTunnel(s, g, e, id);
    TakenSame(s, e, id);
    PullCloses(s, g, e, id);
    forall i | 0 <= i < |s.lines| ensures Left(g, i, id) == Left(s, i, id) { ReceiveLeft(s, g, e, s.lines[e][0], id, i); }
    hide TakenOff;
  }

  lemma PullStep(s: State, e: nat)
    requires e < |s.lines| && s.lines[e] != [] && Conn(e) !in s.host.handlers
    ensures Can(s, HostReceive(e)) && Step(s, HostReceive(e)).agent == s.agent
  {
  }

  lemma PullCloses(s: State, g: State, e: nat, id: Id)
    requires e < |s.lines| && s.lines[e] != [] && TakenOff(s, g, e, s.lines[e][0], id) && !Ends(s.lines[e][0], id)
    ensures SameCloses(s, g, id)
  {
    hide H.Noted, H.Told;
  }

  lemma PullTunnel(s: State, g: State, e: nat, id: Id)
    requires e < |s.lines| && s.lines[e] != [] && TakenOff(s, g, e, s.lines[e][0], id) && !Ends(s.lines[e][0], id)
    ensures g.host.tuns[id] == s.host.tuns[id]
  {
    hide H.Noted;
  }

  // From s to g exactly the first chunk that line e brings for tunnel id has reached the client.
  ghost predicate Took(s: State, g: State, id: Id, e: nat) {
    && Reaches(s, g) && Sane(g) && Ready(g, id) && Alive(s, id)
    && g.agent == s.agent && |g.lines| == |s.lines| && e < |s.lines| && Left(s, e, id) != []
    && Taken(g, id) == Taken(s, id) + Left(s, e, id)[0] && Left(g, e, id) == Left(s, e, id)[1..]
    && (forall i :: 0 <= i < |s.lines| && i != e ==> Left(g, i, id) == Left(s, i, id))
    && SameCloses(s, g, id)
  }

  lemma TookAfter(s: State, g: State, g': State, id: Id, e: nat)
    requires Leads(s, g, id) && Took(g, g', id, e)
    ensures Took(s, g', id, e)
  {
    hide Sane, Reaches, Ready, Left, Taken;
    Onwards(s, g, g');
  }

  lemma Deliver(s: State, e: nat, id: Id) returns (g: State)
    requires Sane(s) && Ready(s, id) && e < |s.lines| && Holding(s, e, id) != []
    ensures Took(s, g, id, e)
  {
    hide Sane, Reaches, Step, Can, Took, Kept, Holding;
    HasLines(s);
    DeliverStep(s, e, id);
    var g' := Go(s, HostStep(H.DeliverOk(Conn(e))));
    g := Drain(g', id);
    Handed(s, g', g, id, e);
  }

  lemma DeliverStep(s: State, e: nat, id: Id)
    requires s.lines != [] && Ready(s, id) && e < |s.lines| && Holding(s, e, id) != []
    ensures Can(s, HostStep(H.DeliverOk(Conn(e))))
    ensures var g := Step(s, HostStep(H.DeliverOk(Conn(e))));
            && Alive(g, id) && g.host.tuns[id].opener.OpPumping? && g.agent == s.agent && g.lines == s.lines
            && g.host.tuns[id].out.accepted == s.host.tuns[id].out.accepted + Holding(s, e, id)
            && Holding(g, e, id) == [] && forall i :: 0 <= i < |s.lines| && i != e ==> Holding(g, i, id) == Holding(s, i, id)
  {
    hide H.Step;
    H.HandlerStepIs(s.host, H.DeliverOk(Conn(e)));
  }

  // What the handler of line e held is queued, everything else is as before.
  ghost predicate Hands(s: State, g: State, id: Id, e: nat) {
    && Alive(s, id) && Alive(g, id) && g.agent == s.agent && g.lines == s.lines && e < |s.lines|
    && Holding(s, e, id) != [] && Holding(g, e, id) == []
    && g.host.tuns[id].out.accepted == s.host.tuns[id].out.accepted + Holding(s, e, id)
    && forall i :: 0 <= i < |s.lines| && i != e ==> Holding(g, i, id) == Holding(s, i, id)
  }

  lemma HandsLeft(s: State, g: State, id: Id, e: nat)
    requires Hands(s, g, id, e)
    ensures Left(s, e, id) != [] && Left(g, e, id) == Left(s, e, id)[1..]
    ensures Taken(g, id) == Taken(s, id) + Left(s, e, id)[0]
    ensures forall i :: 0 <= i < |s.lines| && i != e ==> Left(g, i, id) == Left(s, i, id)
  {
    hide DataBefore, Bytes;
    var c := Holding(s, e, id)[0];
    assert Holding(s, e, id) == [c];
    TakenMore(s.host.tuns[id].out.accepted, c);
    assert Left(s, e, id) == [c] + Left(g, e, id);
    forall i | 0 <= i < |s.lines| && i != e ensures Left(g, i, id) == Left(s, i, id) {}
  }

  lemma Handed(s: State, g': State, g: State, id: Id, e: nat)
    requires Hands(s, g', id, e) && Reaches(s, g') && Leads(g', g, id) && Ready(g, id)
    ensures Took(s, g, id, e)
  {
    hide Sane, Reaches, Left, Taken, Holding, Ready, CloseIn;
    Onwards(s, g', g);
    HandsLeft(s, g', id, e);
  }

  lemma {:induction false} TakeFirst(s: State, e: nat, id: Id) returns (g: State)
    requires Sane(s) && Ready(s, id) && e < |s.lines| && Left(s, e, id) != []
    ensures Took(s, g, id, e)
    decreases if e < |s.lines| then |s.lines[e]| else 0, Conn(e) in s.host.handlers
  {
    hide Sane, Reaches, Took, Left, Taken;
    if Conn(e) in s.host.handlers {
      var p := s.host.handlers[Conn(e)];
      if p.Delivering? && p.id == id {
        g := Deliver(s, e, id);
      } else {
        var g' := Clear(s, e, id);
        g := TakeFirst(g', e, id);
        TookAfter(s, g', g, id, e);
      }
    } else {
      NextComes(s, e, id);
      var g' := Pull(s, e, id);
      g := TakeFirst(g', e, id);
      TookAfter(s, g', g, id, e);
    }
  }

  lemma NextComes(s: State, e: nat, id: Id)
    requires Alive(s, id) && e < |s.lines| && Conn(e) !in s.host.handlers && Left(s, e, id) != []
    ensures s.lines[e] != [] && !Ends(s.lines[e][0], id)
  {
  }

  // ---- the good dial result ----

  lemma {:induction false} AnswerSomewhere(q: seq<Msg>, id: Id)
    requires AnswerIn(q, id)
    ensures exists l :: 0 <= l < |q| && q[l] == OpenResult(id, true)
  {
    if q[0] != OpenResult(id, true) {
      AnswerSomewhere(q[1..], id);
      var l :| 0 <= l < |q[1..]| && q[1..][l] == OpenResult(id, true);
      assert q[l + 1] == OpenResult(id, true);
    }
  }

  lemma PostGood(s: State, e: nat, id: Id) returns (g: State)
    requires Sane(s) && Alive(s, id) && H.Unanswered(s.host.tuns[id]) && e < |s.lines|
    requires Conn(e) in s.host.handlers && s.host.handlers[Conn(e)] == H.Posting(id, true)
    ensures Leads(s, g, id) && Alive(g, id) && H.Serving(g.host.tuns[id])
  {
    hide Sane, Reaches, Step, Can, Kept;
    HasLines(s);
    ClearStep(s, e, H.Post(Conn(e)), id);
    PostStep(s, e, id);
    g := Go(s, HostStep(H.Post(Conn(e))));
    HostOnly(s, g, id);
  }

  lemma PostStep(s: State, e: nat, id: Id)
    requires Can(s, HostStep(H.Post(Conn(e)))) && id in s.host.tuns && H.Unanswered(s.host.tuns[id])
    requires s.host.handlers[Conn(e)] == H.Posting(id, true)
    ensures H.Serving(Step(s, HostStep(H.Post(Conn(e)))).host.tuns[id])
  {
    hide H.Step;
    H.HandlerStepIs(s.host, H.Post(Conn(e)));
  }

  lemma {:induction false} Answer(s: State, e: nat, id: Id) returns (g: State)
    requires Sane(s) && Alive(s, id) && H.Unanswered(s.host.tuns[id]) && e < |s.lines| && Answers(s, e, id)
    ensures Leads(s, g, id) && Alive(g, id) && H.Serving(g.host.tuns[id])
    decreases if e < |s.lines| then |s.lines[e]| else 0, Conn(e) in s.host.handlers
  {
    hide Sane, Reaches, Kept, H.Serving;
    if Conn(e) in s.host.handlers {
      if s.host.handlers[Conn(e)] == H.Posting(id, true) {
        g := PostGood(s, e, id);
      } else {
        OtherHand(s, e, id);
        var g' := Clear(s, e, id);
        g := Answer(g', e, id);
        LeadsOn(s, g', g, id);
      }
    } else {
      AnswerNext(s, e, id);
      var g' := Pull(s, e, id);
      g := Answer(g', e, id);
      LeadsOn(s, g', g, id);
    }
  }

  lemma OtherHand(s: State, e: nat, id: Id)
    requires Sane(s) && e < |s.lines| && Conn(e) in s.host.handlers && AnswerIn(s.lines[e], id)
    ensures s.host.handlers[Conn(e)].id != id
  {
    hide Inv;
    assert HandOk(s, e);
    AnswerSomewhere(s.lines[e], id);
  }

  // The next message is the answer, or does not speak about the tunnel.
  lemma AnswerNext(s: State, e: nat, id: Id)
    requires Sane(s) && Alive(s, id) && e < |s.lines| && Conn(e) !in s.host.handlers && Answers(s, e, id)
    ensures s.lines[e] != [] && !Ends(s.lines[e][0], id)
    ensures s.lines[e][0] == OpenResult(id, true) || AnswerIn(s.lines[e][1..], id)
    ensures s.lines[e][0] == OpenResult(id, true) ==>
              Conn(e) in H.Noted(s.host, Conn(e), s.lines[e][0]) && H.Noted(s.host, Conn(e), s.lines[e][0])[Conn(e)] == H.Posting(id, true)
    ensures s.lines[e][0] != OpenResult(id, true) ==> !Speaks(s.lines[e][0], id)
  {
    hide Inv, AllSettled, HandOk;
    var q := s.lines[e];
    assert AnswersFirst(q);
    if q[0] != OpenResult(id, true) {
      AnswerSomewhere(q[1..], id);
      var l :| 0 <= l < |q[1..]| && q[1..][l] == OpenResult(id, true);
      assert Good(q[l + 1]);
    }
  }

  lemma Serve(s: State, id: Id) returns (g: State)
    requires Sane(s) && Alive(s, id) && Answerable(s, id)
    ensures Leads(s, g, id) && Ready(g, id)
  {
    hide Sane, Reaches, Kept, Answers;
    LeadsStay(s, id);
    g := s;
    if !H.Serving(s.host.tuns[id]) {
      var e :| 0 <= e < |s.lines| && Answers(s, e, id);
      g := Answer(s, e, id);
    }
    var g1 := StartServing(g, id);
    var g2 := Drain(g1, id);
    LeadsOn(s, g, g1, id);
    LeadsOn(s, g1, g2, id);
    g := g2;
  }

  // ---- a bad interleaving ----

  // Whatever does not fit can be taken in an order that shows it.
  lemma {:induction false} Misfit(s: State, id: Id, read: Chunk) returns (g: State)
    requires Sane(s) && Ready(s, id) && !Fits(Taken(s, id), Rest(s, id), read)
    ensures Reaches(s, g) && Sane(g) && Ready(g, id) && g.agent == s.agent && !(Taken(g, id) <= read)
    decreases Total(Rest(s, id))
  {
    hide Sane, Reaches, Left, Taken, Bytes;
    if !(Taken(s, id) <= read) {
      Stay(s);
      g := s;
    } else {
      var parts := Rest(s, id);
      var e :| 0 <= e < |parts| && parts[e] != [] && !Fits(Taken(s, id) + parts[e][0], parts[e := parts[e][1..]], read);
      var g' := TakeFirst(s, e, id);
      assert Rest(g', id) == parts[e := parts[e][1..]];
      TotalUpdate(parts, e, parts[e][1..]);
      g := Misfit(g', id, read);
      Onwards(s, g', g);
    }
  }

  // ---- what the probe does after the reconnect ----

  function Chunks(id: Id, cs: seq<Chunk>): seq<Msg> { seq(|cs|, i requires 0 <= i < |cs| => Data(id, cs[i])) }

  lemma {:induction false} ChunksBefore(id: Id, cs: seq<Chunk>)
    ensures DataBefore(Chunks(id, cs), id) == cs
  {
    if cs != [] {
      assert Chunks(id, cs)[1..] == Chunks(id, cs[1..]);
      ChunksBefore(id, cs[1..]);
    }
  }

  lemma ProbeMove(s: State, act: A.Action, r: A.Ref) returns (g: State)
    requires Sane(s) && s.up && r < |s.agent.heap| && A.OfTab(act) && act.r == r
    requires A.TabCan(s.agent.heap[r], act) && A.FalloutOf(act).Stays?
    ensures s.lines != [] && Reaches(s, g) && Sane(g)
    ensures g == s.(agent := A.With(s.agent, r, A.TabNext(s.agent.heap[r], act)), lines := Wired(s, A.OutputOf(s.agent.heap[r], act)))
  {
    hide Sane, Reaches, A.TabNext, A.OutputOf, A.TabCan, Step, Can, Wired;
    HasLines(s);
    ProbeStep(s, act, r);
    g := Go(s, AgentStep(act));
  }

  lemma ProbeStep(s: State, act: A.Action, r: A.Ref)
    requires Sane(s) && s.lines != [] && r < |s.agent.heap| && A.OfTab(act) && act.r == r
    requires A.TabCan(s.agent.heap[r], act) && A.FalloutOf(act).Stays?
    ensures Can(s, AgentStep(act))
    ensures Step(s, AgentStep(act)) ==
            s.(agent := A.With(s.agent, r, A.TabNext(s.agent.heap[r], act)), lines := Wired(s, A.OutputOf(s.agent.heap[r], act)))
  {
    hide A.TabNext, A.OutputOf, A.TabCan, H.Inv, Talk, Opening, Established, Linked, Unopened, Sized, Wired, A.TabInv;
  }

  // From s to g the probe has sent the chunks cs of tunnel r on a connection that was empty.
  ghost predicate Sent(s: State, g: State, r: A.Ref, cs: seq<Chunk>) {
    && Reaches(s, g) && Sane(g) && s.lines != [] && r < |s.agent.heap| == |g.agent.heap|
    && s.lines[|s.lines| - 1] == []
    && g == s.(agent := g.agent, lines := s.lines[|s.lines| - 1 := Chunks(s.agent.heap[r].id, cs)])
    && g.agent.heap[r].id == s.agent.heap[r].id && g.agent.heap[r].conn == s.agent.heap[r].conn
  }

  lemma SendNext(s: State, g: State, r: A.Ref, cs: seq<Chunk>) returns (g': State)
    requires Sent(s, g, r, cs) && s.up && g.agent.heap[r].src.pc.SrcSending?
    ensures var src := g.agent.heap[r].src;
            Sent(s, g', r, cs + [src.pc.chunk]) && g'.agent.heap[r].src == Source(SrcReading, src.read, src.sent + [src.pc.chunk])
  {
    hide Sane, Reaches, A.TabNext, A.OutputOf;
    g' := ProbeMove(g, A.TargetSend(r, true), r);
    Onwards(s, g, g');
    SendsData(g.agent.heap[r], r);
    var t, c := g.agent.heap[r], g.agent.heap[r].src.pc.chunk;
    assert Chunks(t.id, cs) + [Data(t.id, c)] == Chunks(t.id, cs + [c]);
  }

  lemma SendsData(t: A.Tab, r: A.Ref)
    requires t.src.pc.SrcSending?
    ensures A.OutputOf(t, A.TargetSend(r, true)) == Some(Data(t.id, t.src.pc.chunk))
    ensures var t' := A.TabNext(t, A.TargetSend(r, true));
            t' == t.(src := Source(SrcReading, t.src.read, t.src.sent + [t.src.pc.chunk]))
  {
  }

  lemma ReadNext(s: State, g: State, r: A.Ref, cs: seq<Chunk>, b: Byte) returns (g': State)
    requires Sent(s, g, r, cs) && s.up && g.agent.heap[r].src.pc.SrcReading? && !g.agent.heap[r].conn.ConnClosed?
    ensures Sent(s, g', r, cs)
    ensures g'.agent.heap[r].src == Source(SrcSending([b]), g.agent.heap[r].src.read + [[b]], g.agent.heap[r].src.sent)
  {
    hide Sane, Reaches, A.TabNext, A.OutputOf;
    g' := ProbeMove(g, A.TargetRead(r, [b]), r);
    Onwards(s, g, g');
    ReadsByte(g.agent.heap[r], r, b);
  }

  lemma ReadsByte(t: A.Tab, r: A.Ref, b: Byte)
    requires A.TabCan(t, A.TargetRead(r, [b]))
    ensures A.OutputOf(t, A.TargetRead(r, [b])).None?
    ensures A.TabNext(t, A.TargetRead(r, [b])) == t.(src := Source(SrcSending([b]), t.src.read + [[b]], t.src.sent))
  {
  }

  lemma SentLeft(s: State, g: State, r: A.Ref, cs: seq<Chunk>)
    requires Sent(s, g, r, cs) && Alive(s, s.agent.heap[r].id) && Conn(|s.lines| - 1) !in s.host.handlers
    ensures var id := s.agent.heap[r].id;
            && Alive(g, id) && Taken(g, id) == Taken(s, id) && Rest(g, id) == Rest(s, id)[|s.lines| - 1 := cs]
            && (Answerable(s, id) ==> Answerable(g, id))
  {
    hide Sane, Reaches, Bytes;
    var id, n := s.agent.heap[r].id, |s.lines| - 1;
    ChunksBefore(id, cs);
    assert forall e :: 0 <= e < |s.lines| ==> Holding(g, e, id) == Holding(s, e, id);
    assert Holding(s, n, id) == [];
    hide Holding, DataBefore, Chunks;
    forall e | 0 <= e < |s.lines| ensures Left(g, e, id) == if e == n then cs else Left(s, e, id) {}
    if Answerable(s, id) && !H.Serving(s.host.tuns[id]) {
      var e :| 0 <= e < |s.lines| && Answers(s, e, id);
      assert e != n;
      assert Answers(g, e, id);
    }
  }

  // ---- the two directions ----

  lemma LeftFull(s: State, e: nat, id: Id)
    requires Sane(s) && e < |s.lines| && id in s.host.tuns && Left(s, e, id) != []
    ensures Left(s, e, id)[0] != []
  {
    hide A.Inv, H.Inv, Opening, Established, Linked, Unopened, AllSettled, AnswersFirst;
    assert HandOk(s, e) && Sized(s.lines[e]);
    if Holding(s, e, id) == [] { SizedBefore(s.lines[e], id); }
  }

  lemma {:induction false} SizedBefore(q: seq<Msg>, id: Id)
    requires Sized(q) && DataBefore(q, id) != []
    ensures DataBefore(q, id)[0] != []
  {
    if !(q[0].Data? && q[0].id == id) { SizedBefore(q[1..], id); }
  }

  // A tunnel whose probe has read nothing is safe.
  lemma ReadSomething(s: State, r: A.Ref)
    requires DownInv(s) && r < |s.agent.heap| && s.agent.heap[r].id in s.host.tuns && !Safe(s, s.agent.heap[r])
    ensures !s.agent.heap[r].src.pc.SrcNotStarted?
  {
    hide A.Inv, H.Inv, Established, Linked, Unopened, Sized, DownLink, Safe, Silent;
    var t := s.agent.heap[r];
    if t.src.pc.SrcNotStarted? {
      NothingRead(s.agent, r);
      assert Unsent(s, t.id) && Silent(s, t.id);
      SilentSafe(s, t);
    }
  }

  lemma SilentSafe(s: State, t: A.Tab)
    requires Mine(s, t.id) && Silent(s, t.id) && t.src.sent == []
    ensures Safe(s, t)
  {
    hide Fits, DataOf, DataBefore, A.Still, A.Pending;
    forall e | 0 <= e < |s.lines| ensures Left(s, e, t.id) == [] { DataBeforeWithin(s.lines[e], t.id); }
    hide Left;
  }

  lemma NothingRead(a: A.Agent, r: A.Ref)
    requires A.Inv(a) && r < |a.heap|
    ensures a.heap[r].src.pc.SrcNotStarted? ==> a.heap[r].src.sent == []
    ensures a.heap[r].src.sent + A.Pending(a.heap[r]) == a.heap[r].src.read || a.heap[r].src.pc.SrcEnded?
  {
    assert A.TabInv(a, r);
  }

  // Something is missing of what the probe sent, or still on its way.
  ghost predicate Unfinished(s: State, t: A.Tab)
    requires t.id in s.host.tuns
  {
    (exists e :: 0 <= e < |s.lines| && Left(s, e, t.id) != []) || Taken(s, t.id) != Bytes(t.src.sent)
  }

  // If what comes after the chunk the probe holds still fits, then the client is short of bytes.
  lemma UnfinishedShort(s: State, taken: Chunk, rest: seq<seq<Chunk>>, t: A.Tab)
    requires Sane(s) && t.id in s.host.tuns && Unfinished(s, t) && taken == Taken(s, t.id) && rest == Rest(s, t.id) + [A.Pending(t)]
    requires t.src.sent + A.Pending(t) == t.src.read && Fits(taken, rest, Bytes(t.src.read))
    ensures taken + Bytes(A.Pending(t)) <= Bytes(t.src.read) && |taken + Bytes(A.Pending(t))| < |Bytes(t.src.read)|
  {
    hide Sane, Left, Taken, A.Pending;
    var n, held := |s.lines|, A.Pending(t);
    FitsPart(taken, rest, n, Bytes(t.src.read));
    BytesConcat(t.src.sent, held);
    if taken != Bytes(t.src.sent) {
      assert taken + Bytes(held) != Bytes(t.src.sent) + Bytes(held);
    } else {
      var e :| 0 <= e < |s.lines| && Left(s, e, t.id) != [];
      assert rest[n := []][e] == Left(s, e, t.id);
      LeftFull(s, e, t.id);
      FitsTaken(taken + Bytes(held) + Left(s, e, t.id)[0], rest[n := []][e := rest[n := []][e][1..]], Bytes(t.src.read));
    }
  }

  // The byte the probe reads next shows that bytes are missing.
  lemma NextByte(taken: Chunk, rest: seq<seq<Chunk>>, held: seq<Chunk>, read: Chunk, b: Byte)
    requires |rest| > 0 && rest[|rest| - 1] == held + [[b]]
    requires |taken + Bytes(held)| < |read| && read[|taken + Bytes(held)|] != b
    ensures !Fits(taken, rest, read + [b])
  {
    if Fits(taken, rest, read + [b]) {
      FitsPart(taken, rest, |rest| - 1, read + [b]);
      TakenMore(held, [b]);
      var all := taken + Bytes(held) + [b];
      assert taken + Bytes(rest[|rest| - 1]) == all;
      assert all[|taken + Bytes(held)|] == b;
      FitsTaken(taken + Bytes(rest[|rest| - 1]), rest[|rest| - 1 := []], read + [b]);
    }
  }

  // The probe has sent what it held, and perhaps read and sent one more byte, so that something does not fit.
  lemma Spoil(s: State, s1: State, r: A.Ref) returns (g: State)
    requires Sane(s) && Sane(s1) && r < |s.agent.heap| && s1.agent == s.agent && s1.host == s.host && s1.up
    requires s1.lines == s.lines + [[]] && Conn(|s.lines|) !in s.host.handlers
    requires var t := s.agent.heap[r];
      Alive(s, t.id) && !Safe(s, t) && !t.src.pc.SrcNotStarted? && (t.src.sent + A.Pending(t) == t.src.read || t.src.pc.SrcEnded?)
    requires Alive(s1, s.agent.heap[r].id) && Rest(s1, s.agent.heap[r].id) == Rest(s, s.agent.heap[r].id) + [[]]
    ensures exists cs :: Sent(s1, g, r, cs)
    ensures Alive(g, s.agent.heap[r].id)
    ensures !Fits(Taken(g, s.agent.heap[r].id), Rest(g, s.agent.heap[r].id), Bytes(g.agent.heap[r].src.read))
  {
    hide Sane, Reaches, Fits, Left, Bytes, Chunks;
    var t, cs: seq<Chunk> := s.agent.heap[r], [];
    g := s1;
    SentNone(s1, r);
    if t.src.pc.SrcSending? {
      g := SendNext(s1, g, r, cs);
      cs := [] + [t.src.pc.chunk];
    }
    assert cs == A.Pending(t);
    SentLeft(s1, g, r, cs);
    var rest := Rest(s, t.id) + [A.Pending(t)];
    assert Rest(g, t.id) == rest;
    if !A.Still(t) && Fits(Taken(s, t.id), rest, Bytes(t.src.read)) {
      UnfinishedShort(s, Taken(s, t.id), rest, t);
      var next := Bytes(t.src.read)[|Taken(s, t.id) + Bytes(A.Pending(t))|];
      var b: Byte := if next == 0 then 1 else 0;
      g := ReadNext(s1, g, r, cs, b);
      g := SendNext(s1, g, r, cs);
      SentLeft(s1, g, r, cs + [[b]]);
      TakenMore(t.src.read, [b]);
      NextByte(Taken(s, t.id), Rest(g, t.id), cs, Bytes(t.src.read), b);
    }
  }

  lemma SentNone(s: State, r: A.Ref)
    requires Sane(s) && s.lines != [] && s.lines[|s.lines| - 1] == [] && r < |s.agent.heap|
    ensures Sent(s, s, r, [])
  {
    hide Sane;
    Stay(s);
    assert Chunks(s.agent.heap[r].id, []) == [];
    assert s.lines[|s.lines| - 1 := Chunks(s.agent.heap[r].id, [])] == s.lines;
  }

  // With an idle client writer everything taken has been delivered.
  lemma ReadyDelivered(s: State, id: Id)
    requires Sane(s) && Ready(s, id)
    ensures Delivered(s.host.tuns[id].out) == Taken(s, id)
  {
    hide A.Inv, Talk, Opening, Established, Linked, Unopened, Sized, H.LiveIn;
    assert H.TunOk(s.host.tuns[id]);
    var o := s.host.tuns[id].out;
    assert o.accepted == o.written + [] + [] == o.written && Bytes(o.written) + [] == Bytes(o.written);
  }

  lemma ReconnectSane(s: State)
    requires Sane(s) && Can(s, Reconnect)
    ensures Sane(Step(s, Reconnect))
  {
    hide Can, Step, Inv, Talk;
    StepKeeps(s, Reconnect);
    StepTalk(s, Reconnect);
  }

  lemma ReconnectKept(s: State, id: Id)
    requires Sane(s) && Can(s, Reconnect) && Alive(s, id)
    ensures var s1 := Step(s, Reconnect);
            && s1.agent == s.agent && s1.host == s.host && s1.up && s1.lines == s.lines + [[]] && Alive(s1, id)
            && Conn(|s.lines|) !in s.host.handlers && Rest(s1, id) == Rest(s, id) + [[]]
            && (Answerable(s, id) ==> Answerable(s1, id))
  {
    hide Inv, Talk, Harmless, NoneLeft, Lossless, Left;
    HasLines(s);
    Unheld(s);
    ReconnectLeft(s, id);
    var s1 := Step(s, Reconnect);
    if Answerable(s, id) && !H.Serving(s.host.tuns[id]) {
      var e :| 0 <= e < |s.lines| && Answers(s, e, id);
      assert Answers(s1, e, id);
    }
  }

  // The tunnel that makes a reconnect harmful can be driven into a gap.
  lemma HarmDone(s: State, r: A.Ref) returns (g: State)
    requires DownInv(s) && Sane(s) && Can(s, Reconnect) && r < |s.agent.heap|
    requires var t := s.agent.heap[r]; Alive(s, t.id) && Answerable(s, t.id) && !Safe(s, t)
    ensures Reaches(Step(s, Reconnect), g) && r < |g.agent.heap| && !Gapless(g, r)
  {
    hide DownInv, Sane, Can, Step, Reaches, Fits, Left, Taken, Bytes, Safe, A.Pending, Answerable, Delivered, Chunks;
    var s1, id := Step(s, Reconnect), s.agent.heap[r].id;
    HasInv(s);
    ReadSomething(s, r);
    NothingRead(s.agent, r);
    ReconnectSane(s);
    ReconnectKept(s, id);
    var g1 := Spoil(s, s1, r);
    var cs :| Sent(s1, g1, r, cs);
    SentLeft(s1, g1, r, cs);
    var g2 := Serve(g1, id);
    assert Rest(g2, id) == Rest(g1, id);
    g := Misfit(g2, id, Bytes(g1.agent.heap[r].src.read));
    ReadyDelivered(g, id);
    Onwards(s1, g1, g2);
    Onwards(s1, g2, g);
  }

  lemma HasInv(s: State)
    requires Sane(s)
    ensures A.Inv(s.agent)
  {
    hide A.Inv, H.Inv, Talk, Opening, Established, Linked, Unopened, Sized;
  }

  // After a reconnect that is not harmless some client can end up with a gap, without any further reconnect.
  lemma HarmfulLeavesGap(acts: seq<Action>)
    requires Run(acts).Some? && Can(Run(acts).value, Reconnect) && !Harmless(Run(acts).value)
    ensures exists g, r :: Reaches(Step(Run(acts).value, Reconnect), g) && 0 <= r < |g.agent.heap| && !Gapless(g, r)
  {
    hide Run, DownInv, Inv, Talk, Can, Step, Reaches, Safe, Answerable, Gapless;
    var s := Run(acts).value;
    RunDownKeeps(acts);
    RunTalk(acts);
    RunKeeps(acts);
    var r :| 0 <= r < |s.agent.heap| && !(var t := s.agent.heap[r];
      t.id in s.host.tuns && s.host.tuns[t.id].finish.Live? && Answerable(s, t.id) ==> Safe(s, t));
    OwnTab(s, r);
    var g := HarmDone(s, r);
  }

  // No continuation that does without another reconnect shows any client a gap.
  ghost predicate StaysGapless(s: State) {
    forall g, r :: Reaches(s, g) && 0 <= r < |g.agent.heap| ==> Gapless(g, r)
  }

  lemma {:induction false} ReachDown(s: State, acts: seq<Action>)
    requires DownInv(s) && Reconnect !in acts && RunFrom(s, acts).Some?
    ensures DownInv(RunFrom(s, acts).value) && RunFrom(s, acts).value.harmless == s.harmless
  {
    hide DownInv, Step, Can;
    if acts != [] {
      var front, act := acts[..|acts| - 1], acts[|acts| - 1];
      assert forall a :: a in front ==> a in acts;
      ReachDown(s, front);
      StepDownKeeps(RunFrom(s, front).value, act);
      SameHarm(RunFrom(s, front).value, act);
    }
  }

  lemma SameHarm(s: State, act: Action)
    requires Can(s, act) && !act.Reconnect?
    ensures Step(s, act).harmless == s.harmless
  {
    hide A.Step, H.Step, A.Can, H.Can;
  }

  lemma ReconnectHarm(s: State)
    requires Can(s, Reconnect)
    ensures Step(s, Reconnect).harmless == (s.harmless && Harmless(s))
  {
    hide Harmless, NoneLeft, Lossless;
  }

  // After harmless reconnects only, the next one keeps all clients free of gaps exactly when it is harmless.
  lemma HarmlessExactly(acts: seq<Action>)
    requires Run(acts).Some? && Run(acts).value.harmless && Can(Run(acts).value, Reconnect)
    ensures Harmless(Run(acts).value) <==> StaysGapless(Step(Run(acts).value, Reconnect))
  {
    hide Run, DownInv, Can, Step, Gapless, Harmless;
    var s := Run(acts).value;
    RunDownKeeps(acts);
    StepDownKeeps(s, Reconnect);
    var s1 := Step(s, Reconnect);
    ReconnectHarm(s);
    if Harmless(s) {
      forall g, r | Reaches(s1, g) && 0 <= r < |g.agent.heap| ensures Gapless(g, r) {
        var more :| Reconnect !in more && RunFrom(s1, more) == Some(g);
        ReachDown(s1, more);
        DownGapless(g, r);
      }
    } else {
      HarmfulLeavesGap(acts);
    }
  }
}
