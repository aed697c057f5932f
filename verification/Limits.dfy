// Runs of the relay that show where its promises end.
module Limits {
  import opened Options
  import opened Wire
  import opened Relay
  import opened Reconnects
  import opened Gaps
  import opened Completion
  import opened Truncations
  import opened Upload
  import H = Host
  import A = Agent
  import ProxyTab

  // A step in which nothing is refused, times out, overflows, breaks or is given up.
  predicate Fine(act: Action) {
    match act
    case HostStep(h) =>
      (match h
       case SendOpen(_, ok, _, _) => ok
       case ClientSend(_, ok) => ok
       case Notice(_, ok) => ok
       case _ => !h.OpenTimeout? && !h.AbandonOpen? && !h.WriteFail? && !h.Drop? && !h.DeliverTimeout?)
    case HostReceive(_) => true
    case AgentStep(a) =>
      (match a
       case Report(_, ok) => ok
       case TargetSend(_, ok) => ok
       case Notify(_, ok) => ok
       case _ => !a.DialFail? && !a.Refuse? && !a.WriteFail? && !a.DropAll?)
    case AgentReceive(ok) => ok
    case _ => false
  }

  // By a run of fine steps if smooth is asked for, by any run otherwise.
  ghost predicate Reachable(s: State, smooth: bool) {
    exists acts :: Run(acts) == Some(s) && (smooth ==> forall act :: act in acts ==> Fine(act))
  }

  lemma Reach(s: State, act: Action, smooth: bool)
    requires Reachable(s, smooth) && Can(s, act) && (smooth ==> Fine(act))
    ensures Reachable(Step(s, act), smooth)
  {
    hide Step, Can, Fine;
    var acts :| Run(acts) == Some(s) && (smooth ==> forall act :: act in acts ==> Fine(act));
    assert (acts + [act])[..|acts + [act]| - 1] == acts;
    assert Run(acts + [act]) == Some(Step(s, act));
  }

  lemma Anyhow(s: State)
    requires Reachable(s, true)
    ensures Reachable(s, false)
  {
    hide Run;
  }

  // ---- moves in a world with one tunnel "t" on its first connection ----

  predicate OneLine(s: State) { |s.lines| == 1 && s.up }

  lemma TabMove(s: State, act: A.Action, smooth: bool) returns (next: State)
    requires Reachable(s, smooth) && |s.agent.heap| == 1 && A.Shape(s.agent) && |s.lines| == 1 && (smooth ==> Fine(AgentStep(act)))
    requires A.OfTab(act) && act.r == 0 && A.TabCan(s.agent.heap[0], act) && A.FalloutOf(act).Stays?
    requires s.up || A.OutputOf(s.agent.heap[0], act).None?
    ensures Reachable(next, smooth)
    ensures next == s.(agent := s.agent.(heap := [A.TabNext(s.agent.heap[0], act)]),
                       lines := [Put(s.lines[0], A.OutputOf(s.agent.heap[0], act))])
  {
    hide A.TabNext, A.OutputOf, A.TabCan, Reachable, Fine;
    Reach(s, AgentStep(act), smooth);
    next := Step(s, AgentStep(act));
    assert next.agent.heap == [A.TabNext(s.agent.heap[0], act)];
  }

  lemma TunMove(s: State, u: H.Tunnel, act: H.Action) returns (next: State)
    requires Reachable(s, true) && s.host.tuns == map["t" := u] && u.agent == ME && OneLine(s) && Fine(HostStep(act))
    requires H.OfTunnel(act) && act.id == "t" && H.TunCan(u, act)
    ensures Reachable(next, true)
    ensures next == s.(host := s.host.(tuns := map["t" := H.TunNext(u, act)]), toAgent := Put(s.toAgent, H.OutputOf(u, act)))
  {
    hide H.TunNext, H.OutputOf, H.TunCan, Reachable, Fine;
    Reach(s, HostStep(act), true);
    next := Step(s, HostStep(act));
    assert next.host.tuns == map["t" := H.TunNext(u, act)];
  }

  // ---- one established tunnel ----

  const FRESH: A.Tab := A.NewTab("t")
  const PIPED: A.Tab := FRESH.(
    core := ProxyTab.Core(false, Some(0), []), conn := A.Installed, dialer := A.DialDone,
    src := Source(SrcReading, [], []), out := NEW_OUTLET.(pc := OutSelecting))

  const ASKING: H.Tunnel := H.NewTunnel(ME, "session")
  const PUMPING: H.Tunnel := ASKING.(
    opener := H.OpPumping, src := Source(SrcReading, [], []), out := NEW_OUTLET.(pc := OutSelecting))

  function World(u: H.Tunnel, t: A.Tab): State {
    State(H.Host(map["t" := u], map[]), A.Agent(map["t" := 0], [t], A.RecvIdle), [], [[]], true, true, true, true)
  }

  lemma Requested()
    ensures Reachable(World(ASKING.(opener := H.OpWaiting), FRESH), true)
  {
    Begin();
    Added();
    var s := TunMove(START.(host := H.Host(map["t" := ASKING], map[])), ASKING, H.SendOpen("t", true, "target", 80));
    assert s.toAgent == [Wire.Open("t", "target", 80)];
    hide Reachable;
    Reach(s, AgentReceive(true), true);
    var s' := Step(s, AgentReceive(true));
    assert s'.agent.heap == [FRESH] && s'.toAgent == [] && s'.lines == [[]];
  }

  lemma Begin()
    ensures Reachable(START, true)
  {
    assert Run([]) == Some(START);
  }

  lemma Added()
    requires Reachable(START, true)
    ensures Reachable(START.(host := H.Host(map["t" := ASKING], map[])), true)
  {
    hide Reachable;
    assert H.LiveIn(H.START, "session") == {};
    Reach(START, HostStep(H.Add("t", ME, "session")), true);
    assert Step(START, HostStep(H.Add("t", ME, "session"))).host.tuns == map["t" := ASKING];
  }

  lemma Dialled()
    ensures Reachable(World(ASKING.(opener := H.OpWaiting), PIPED).(lines := [[OpenResult("t", true)]]), true)
  {
    hide Reachable;
    Requested();
    var s := World(ASKING.(opener := H.OpWaiting), FRESH);
    s := TabMove(s, A.DialOk(0), true);
    s := TabMove(s, A.SetConn(0), true);
    assert s.lines == [[]];
    s := TabMove(s, A.Report(0, true), true);
    assert [] + [OpenResult("t", true)] == [OpenResult("t", true)];
    assert s.lines == [[OpenResult("t", true)]];
  }

  lemma OneTunnel()
    ensures Reachable(World(PUMPING, PIPED), true)
  {
    hide Reachable;
    Dialled();
    var s := World(ASKING.(opener := H.OpWaiting), PIPED).(lines := [[OpenResult("t", true)]]);
    Reply(s);
    var u := ASKING.(opener := H.OpWaiting, result := Some(true));
    s := World(u, PIPED);
    s := TunMove(s, u, H.TakeResult("t"));
    s := TunMove(s, u.(opener := H.OpReturned, result := None), H.StartPump("t"));
  }

  lemma Reply(s: State)
    requires Reachable(s, true) && s == World(ASKING.(opener := H.OpWaiting), PIPED).(lines := [[OpenResult("t", true)]])
    ensures Reachable(World(ASKING.(opener := H.OpWaiting, result := Some(true)), PIPED), true)
  {
    hide Reachable;
    Reach(s, HostReceive(0), true);
    var s1 := Step(s, HostReceive(0));
    assert s.lines[0][1..] == [];
    assert s1.lines == [[]] && s1.host.handlers == map[Conn(0) := H.Posting("t", true)];
    Reach(s1, HostStep(H.Post(Conn(0))), true);
    var s2 := Step(s1, HostStep(H.Post(Conn(0))));
    assert s2.host.tuns == map["t" := ASKING.(opener := H.OpWaiting, result := Some(true))];
    assert s2.host.handlers == map[];
  }

  // A dropped tunnel is closed and its connection released.
  lemma Release(s: State, t: A.Tab, smooth: bool) returns (next: State)
    requires Reachable(s, smooth) && A.Shape(s.agent) && s.agent.heap == [t] && |s.lines| == 1
    requires t.drop == A.Removed(false) && !t.core.closed && t.core.conn == Some(0)
    ensures Reachable(next, smooth)
    ensures next == s.(agent := s.agent.(heap := [t.(core := t.core.(closed := true), conn := A.ConnClosed,
                                                     drop := A.Dropped, closes := t.closes + 1)]))
  {
    hide Step, Can, A.Step, A.Can, Reachable;
    next := TabMove(s, A.CloseTab(0), smooth);
    next := TabMove(next, A.ReleaseConn(0), smooth);
    assert next.lines == s.lines;
  }

  // ---- a reconnect can leave a gap ----

  // The probe sends one chunk, reads another, and the connection breaks with the first one lost. The host
  // registers the next connection without having dropped the tunnel, while the read loop still holds the
  // second chunk: the reconnect is possible and not harmless.
  lemma HarmfulReconnect() returns (s: State)
    ensures Reachable(s, false) && s.orderly && Can(s, Reconnect) && !Harmless(s)
  {
    hide A.Step, A.Can, H.Step, H.Can, Reachable;
    OneTunnel();
    s := World(PUMPING, PIPED);
    s := TabMove(s, A.TargetRead(0, [1]), true);
    s := TabMove(s, A.TargetSend(0, true), true);
    s := TabMove(s, A.TargetRead(0, [2]), true);
    var t := s.agent.heap[0];
    assert t.src.pc == SrcSending([2]) && t.src.read == [[1], [2]] && t.src.sent == [[1]];
    Anyhow(s);
    Reach(s, Disconnect, false);
    s := Step(s, Disconnect);
    Reach(s, Lose(0, 0), false);
    s := Step(s, Lose(0, 0));
    assert s.lines == [[]];
    s := Broken(s, t);
  }

  lemma DropEverything(s: State, t: A.Tab) returns (next: State)
    requires Reachable(s, false) && s.agent == A.Agent(map["t" := 0], [t], A.RecvIdle) && t.drop.InTable? && s.lines != []
    ensures Reachable(next, false)
    ensures next == s.(agent := A.Agent(map[], [A.Remove(t, false, A.ReceiverFault)], A.RecvIdle))
  {
    hide Reachable;
    Reach(s, AgentStep(A.DropAll), false);
    next := Step(s, AgentStep(A.DropAll));
    assert next.agent.heap == [A.Remove(t, false, A.ReceiverFault)];
    assert next.lines == s.lines;
  }

  lemma Broken(s: State, t: A.Tab) returns (next: State)
    requires Reachable(s, false) && s == World(PUMPING, t).(up := false)
    requires t.drop.InTable? && !t.core.closed && t.id == "t" && t.core.conn == Some(0)
    requires t.src.pc == SrcSending([2]) && t.src.read == [[1], [2]] && t.src.sent == [[1]]
    ensures Reachable(next, false) && next.orderly && Can(next, Reconnect) && !Harmless(next)
  {
    hide Reachable;
    next := DropEverything(s, t);
    next := Release(next, next.agent.heap[0], false);
    Unsafe(next, next.agent.heap[0]);
  }

  lemma Unsafe(s: State, t: A.Tab)
    requires s.host == H.Host(map["t" := PUMPING], map[]) && s.agent.heap == [t] && s.lines == [[]]
    requires t.id == "t" && t.src.pc == SrcSending([2]) && t.src.read == [[1], [2]] && t.src.sent == [[1]]
    ensures !Harmless(s)
  {
    BytesOne([1]);
    BytesOne([2]);
    TakenMore([[1]], [2]);
    var taken, parts, read := Taken(s, "t"), Rest(s, "t") + [A.Pending(t)], Bytes(t.src.read);
    assert t.src.read == [[1]] + [[2]] && read == [1, 2] && taken == [] && parts[1] == [[2]];
    assert (taken + Bytes(parts[1]))[0] == 2 && read[0] == 1;
    if Fits(taken, parts, read) {
      FitsPart(taken, parts, 1, read);
      FitsTaken(taken + Bytes(parts[1]), parts[1 := []], read);
    }
    assert !Fits(taken, parts, read);
    assert taken != Bytes(t.src.sent);
    assert !Safe(s, t) && Answerable(s, t.id) by { assert H.Serving(s.host.tuns["t"]); }
    assert s.agent.heap[0] == t && s.host.tuns[t.id].finish.Live?;
  }

  // Some client then receives bytes that are not a prefix of what the probe read from its target.
  lemma ClientGap()
    ensures exists s, id, r :: Reachable(s, false) && Mine(s, id) && 0 <= r < |s.agent.heap| && s.agent.heap[r].id == id
                            && !(Delivered(s.host.tuns[id].out) <= Bytes(s.agent.heap[r].src.read))
  {
    hide Step, Can, Gapless, Run, RunFrom, Delivered, Bytes, Harmless, Inv;
    var s := HarmfulReconnect();
    var acts :| Run(acts) == Some(s);
    HarmfulLeavesGap(acts);
    var g, r :| Reaches(Step(s, Reconnect), g) && 0 <= r < |g.agent.heap| && !Gapless(g, r);
    var more :| Reconnect !in more && RunFrom(Step(s, Reconnect), more) == Some(g);
    RunOn(acts, s, more, g);
    RunKeeps(acts + [Reconnect] + more);
    OwnTab(g, r);
    GapShows(g, r);
  }

  lemma RunOn(acts: seq<Action>, s: State, more: seq<Action>, g: State)
    requires Run(acts) == Some(s) && Can(s, Reconnect) && RunFrom(Step(s, Reconnect), more) == Some(g)
    ensures Run(acts + [Reconnect] + more) == Some(g)
  {
    hide Step, Can;
    var next := acts + [Reconnect];
    assert next[..|next| - 1] == acts;
    assert Run(next) == Some(Step(s, Reconnect));
    RunJoins(START, next, more);
  }

  lemma GapShows(s: State, r: A.Ref)
    requires r < |s.agent.heap| && Mine(s, s.agent.heap[r].id) && !Gapless(s, r)
    ensures !(Delivered(s.host.tuns[s.agent.heap[r].id].out) <= Bytes(s.agent.heap[r].src.read))
  {
    hide Delivered, Bytes;
  }

  // ---- a client's stream can end cleanly with its data missing ----

  // The probe has read one chunk and then the target's end of stream; the client's writer has ended without a
  // failed write after the probe's ProxyClose, and the client has got nothing.
  ghost predicate Truncated(s: State, r: A.Ref) {
    && r < |s.agent.heap| && s.agent.heap[r].cause.EndOfStream? && s.agent.heap[r].src.read == [[1]]
    && s.agent.heap[r].id in s.host.tuns
    && var u := s.host.tuns[s.agent.heap[r].id];
    && u.ending.ProbeClosed? && u.out.pc == OutEnded(true) && Delivered(u.out) == []
  }

  // The connection breaks with that chunk lost, after the read loop has taken the tunnel out of the probe's
  // table and before it has sent the ProxyClose, which then goes out on the next connection. The reconnect is
  // harmless, as the empty stream is a prefix.
  lemma CleanTruncation()
    ensures exists s, r :: Reachable(s, false) && s.harmless && Truncated(s, r)
  {
    hide Step, Can, Complete, Run, RunFrom, Delivered, Bytes, Harmless, Lossless, Inv, DownInv, Talk, Due, Gapless, AllHere;
    var s := EndedBroken();
    var acts :| Run(acts) == Some(s);
    RunKeeps(acts);
    RunTalk(acts);
    var g := TruncationDone(s, 0);
    var more :| Reconnect !in more && RunFrom(Step(s, Reconnect), more) == Some(g);
    RunOn(acts, s, more, g);
    Anywhere(g, acts + [Reconnect] + more);
    RunDownKeeps(acts);
    StepDownKeeps(s, Reconnect);
    ReconnectHarm(s);
    ReachDown(Step(s, Reconnect), more);
    DownGapless(g, 0);
    CutShort(g, 0);
  }

  lemma Anywhere(s: State, acts: seq<Action>)
    requires Run(acts) == Some(s)
    ensures Reachable(s, false)
  {
  }

  lemma CutShort(s: State, r: A.Ref)
    requires r < |s.agent.heap| && s.agent.heap[r].src.read == [[1]] && Gapless(s, r) && !Complete(s, r)
    ensures Truncated(s, r)
  {
    hide Delivered;
    BytesOne([1]);
  }

  lemma EndedBroken() returns (s: State)
    ensures Reachable(s, false) && s.harmless && Can(s, Reconnect) && Harmless(s)
    ensures |s.agent.heap| == 1 && s.agent.heap[0].src.read == [[1]]
    ensures Due(s, s.agent.heap[0]) && !AllHere(s, s.agent.heap[0])
  {
    hide A.Step, A.Can, H.Step, H.Can, Reachable;
    OneTunnel();
    s := World(PUMPING, PIPED);
    s := TabMove(s, A.TargetRead(0, [1]), true);
    s := TabMove(s, A.TargetSend(0, true), true);
    var t := s.agent.heap[0];
    assert t.src == Source(SrcReading, [[1]], [[1]]);
    s := EndRead(s, t);
    Anyhow(s);
    Reach(s, Disconnect, false);
    s := Step(s, Disconnect);
    Reach(s, Lose(0, 0), false);
    s := Step(s, Lose(0, 0));
    assert s.lines == [[]];
    EndedDue(s, s.agent.heap[0]);
  }

  lemma EndRead(s: State, t: A.Tab) returns (next: State)
    requires Reachable(s, true) && s.agent == A.Agent(map["t" := 0], [t], A.RecvIdle) && t.id == "t" && t.src.pc.SrcReading? && |s.lines| == 1
    ensures Reachable(next, true)
    ensures next == s.(agent := A.Agent(map[], [A.Remove(t.(src := t.src.(pc := SrcEnded)), true, A.EndOfStream)], A.RecvIdle))
  {
    hide Reachable;
    Reach(s, AgentStep(A.TargetEnd(0)), true);
    next := Step(s, AgentStep(A.TargetEnd(0)));
    assert next.agent.heap == [A.Remove(t.(src := t.src.(pc := SrcEnded)), true, A.EndOfStream)];
    assert next.agent.tabs == map[] && next.lines == s.lines;
  }

  lemma EndedDue(s: State, t: A.Tab)
    requires s.host == H.Host(map["t" := PUMPING], map[]) && s.agent.heap == [t] && s.lines == [[]]
    requires t.id == "t" && t.src == Source(SrcEnded, [[1]], [[1]]) && t.cause.EndOfStream? && !t.drop.Dropped?
    ensures Harmless(s) && Due(s, t) && !AllHere(s, t)
  {
    BytesOne([1]);
    var taken, parts, read := Taken(s, "t"), Rest(s, "t") + [A.Pending(t)], Bytes(t.src.read);
    assert taken == [] && parts == [[], []];
    FitsOne(taken, parts, 0, read);
    assert Safe(s, t);
    assert H.Serving(s.host.tuns["t"]);
  }

  // ---- the last bytes of an upload can be lost ----

  // The client has sent one chunk and closed, nothing is left on any wire, the write loop is idle in front of
  // the chunk, and the connection to the target is closed.
  ghost predicate Lost(s: State) {
    && s.up && s.toAgent == [] && s.lines == [[]]
    && "t" in s.host.tuns && s.host.tuns["t"].src == Source(SrcEnded, [[1]], [[1]])
    && |s.agent.heap| == 1 && s.agent.heap[0].id == "t" && EndedByClient(s, 0)
    && var t := s.agent.heap[0];
    && t.conn.ConnClosed? && t.out.pc.OutSelecting? && t.core.writes == [[1]]
    && t.out.accepted == [[1]] && Delivered(t.out) == []
  }

  // Nothing fails and nothing overflows, yet the probe closes the target's connection with the chunk still in
  // its write queue, and from then on the target never gets it.
  lemma UploadTailLost()
    ensures exists s :: Reachable(s, true) && Lost(s)
  {
    hide Step, Can, Reachable, H.Step, H.Can;
    OneTunnel();
    var s := World(PUMPING, PIPED);
    var u := PUMPING;
    s := TunMove(s, u, H.ClientRead("t", [1]));
    u := H.TunNext(u, H.ClientRead("t", [1]));
    s := TunMove(s, u, H.ClientSend("t", true));
    u := H.TunNext(u, H.ClientSend("t", true));
    assert u.src == Source(SrcReading, [[1]], [[1]]) && s.toAgent == [Data("t", [1])];
    ClientGone(s, u);
  }

  lemma ClientGone(s: State, u: H.Tunnel)
    requires Reachable(s, true) && s == World(u, PIPED).(toAgent := [Data("t", [1])])
    requires u.agent == ME && u.finish.Live? && u.src == Source(SrcReading, [[1]], [[1]])
    ensures exists s :: Reachable(s, true) && Lost(s)
  {
    hide Step, Can, Reachable, H.Step, H.Can;
    var s1 := TunMove(s, u, H.ClientEnd("t"));
    var u1 := H.TunNext(u, H.ClientEnd("t"));
    s1 := TunMove(s1, u1, H.CloseDone("t"));
    u1 := H.TunNext(u1, H.CloseDone("t"));
    s1 := TunMove(s1, u1, H.Notice("t", true));
    u1 := H.TunNext(u1, H.Notice("t", true));
    assert u1.src == Source(SrcEnded, [[1]], [[1]]) && u1.ending.ClientEnded?;
    assert s1.toAgent == [Data("t", [1]), Close("t")];
    ProbeQueues(s1, u1);
  }

  lemma ProbeQueues(s: State, u: H.Tunnel)
    requires Reachable(s, true) && s == World(u, PIPED).(toAgent := [Data("t", [1]), Close("t")])
    requires u.src == Source(SrcEnded, [[1]], [[1]]) && u.ending.ClientEnded?
    ensures exists s :: Reachable(s, true) && Lost(s)
  {
    hide Reachable;
    Reach(s, AgentReceive(true), true);
    var s1 := Step(s, AgentReceive(true));
    assert s1.toAgent == [Close("t")] && s1.lines == [[]];
    Reach(s1, AgentStep(A.Enqueue), true);
    var s2 := Step(s1, AgentStep(A.Enqueue));
    var t := s2.agent.heap[0];
    assert t == A.Enqueued(PIPED, [1]) && t.out.accepted == [[1]] && t.core.writes == [[1]];
    assert s2.agent.heap == [t] && s2.lines == [[]];
    ProbeCloses(s2, u, t);
  }

  lemma ProbeCloses(s: State, u: H.Tunnel, t: A.Tab)
    requires Reachable(s, true) && s == World(u, t).(toAgent := [Close("t")])
    requires u.src == Source(SrcEnded, [[1]], [[1]]) && u.ending.ClientEnded?
    requires t.id == "t" && !t.core.closed && t.core.conn == Some(0) && t.core.writes == [[1]]
    requires t.out == Outlet(OutSelecting, [[1]], [], [])
    ensures exists s :: Reachable(s, true) && Lost(s)
  {
    hide Reachable;
    var s1 := ReceiveClose(s, t);
    s1 := Release(s1, s1.agent.heap[0], true);
    assert Lost(s1);
  }

  lemma ReceiveClose(s: State, t: A.Tab) returns (next: State)
    requires Reachable(s, true) && s.agent == A.Agent(map["t" := 0], [t], A.RecvIdle) && s.toAgent == [Close("t")] && OneLine(s)
    ensures Reachable(next, true)
    ensures next == s.(agent := A.Agent(map[], [A.Remove(t, false, A.HostClosed)], A.RecvIdle), toAgent := [])
  {
    hide Reachable;
    Reach(s, AgentReceive(true), true);
    next := Step(s, AgentReceive(true));
    assert next.agent.heap == [A.Remove(t, false, A.HostClosed)];
    assert next.agent.tabs == map[] && next.lines == s.lines;
  }

  // Nothing undoes it: what a tunnel whose connection is closed has delivered is final.
  lemma {:induction false} FinalWhenClosed(acts: seq<Action>, more: seq<Action>, r: A.Ref)
    requires Run(acts).Some? && r < |Run(acts).value.agent.heap| && Run(acts).value.agent.heap[r].conn.ConnClosed?
    requires Run(acts + more).Some?
    ensures r < |Run(acts + more).value.agent.heap|
    ensures Run(acts + more).value.agent.heap[r].conn.ConnClosed?
    ensures Delivered(Run(acts + more).value.agent.heap[r].out) == Delivered(Run(acts).value.agent.heap[r].out)
  {
    hide Step, Can, Inv, Delivered;
    if more == [] {
      assert acts + more == acts;
    } else {
      var front := more[..|more| - 1];
      assert (acts + more)[..|acts + more| - 1] == acts + front;
      FinalWhenClosed(acts, front, r);
      RunKeeps(acts + front);
      FinalStep(Run(acts + front).value, more[|more| - 1], r);
    }
  }

  lemma FinalStep(s: State, act: Action, r: A.Ref)
    requires Inv(s) && Can(s, act) && r < |s.agent.heap| && s.agent.heap[r].conn.ConnClosed?
    ensures r < |Step(s, act).agent.heap| && Step(s, act).agent.heap[r].conn.ConnClosed?
    ensures Delivered(Step(s, act).agent.heap[r].out) == Delivered(s.agent.heap[r].out)
  {
    hide A.Step, A.Inv, H.Inv, H.Step, Opening, Linked, Unopened, Established, Sized, A.Can, H.Can, Harmless,
      NoneLeft, Wired, Delivered;
    match act
    case AgentStep(a) => A.FrozenWhenClosed(s.agent, a, r);
    case AgentReceive(ok) => A.FrozenWhenClosed(s.agent, A.Receive(s.toAgent[0], ok), r);
    case _ =>
  }
}
