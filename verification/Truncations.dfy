// The converse of Completion: after a reconnect that was not lossless, some run ends a client's stream cleanly
// with bytes missing or repeated.
module Truncations {
  import opened Options
  import opened Wire
  import opened Relay
  import opened Reconnects
  import opened Gaps
  import opened Completion
  import H = Host
  import A = Agent

  // ---- the probe sends its ProxyClose on the new connection ----

  lemma EndedDrop(s: State, r: A.Ref)
    requires Sane(s) && r < |s.agent.heap| && s.agent.heap[r].cause.EndOfStream?
    ensures var t := s.agent.heap[r];
            && !t.drop.InTable? && t.src.sent == t.src.read
            && (t.drop.Removed? || t.drop.Closing? ==> t.drop.notify)
  {
    hide H.Inv, Talk, Opening, Established, Linked, Unopened, Sized, A.LoopsOk;
    assert A.TabInv(s.agent, r);
  }

  // From s to g only tunnel r of the probe has gone on with its drop.
  ghost predicate Dropping(s: State, g: State, r: A.Ref) {
    && Reaches(s, g) && Sane(g) && r < |s.agent.heap| == |g.agent.heap|
    && g == s.(agent := g.agent, lines := g.lines)
    && var t, t' := s.agent.heap[r], g.agent.heap[r];
    && t'.id == t.id && t'.src == t.src && t'.cause == t.cause
  }

  lemma DropMove(s: State, g: State, act: A.Action, r: A.Ref) returns (g': State)
    requires Dropping(s, g, r) && s.up && (act == A.CloseTab(r) || act == A.ReleaseConn(r)) && A.TabCan(g.agent.heap[r], act)
    ensures Dropping(s, g', r) && g'.lines == g.lines && g'.agent.heap[r].drop == A.TabNext(g.agent.heap[r], act).drop
  {
    hide Sane, Reaches;
    g' := ProbeMove(g, act, r);
    Onwards(s, g, g');
    assert Put(g.lines[|g.lines| - 1], None) == g.lines[|g.lines| - 1];
  }

  lemma SendClose(s: State, r: A.Ref) returns (g: State)
    requires Sane(s) && s.up && r < |s.agent.heap| && s.lines != [] && s.lines[|s.lines| - 1] == []
    requires s.agent.heap[r].cause.EndOfStream? && !s.agent.heap[r].drop.Dropped?
    ensures Dropping(s, g, r) && g.lines == s.lines[|s.lines| - 1 := [Close(s.agent.heap[r].id)]]
  {
    hide Sane, Reaches, A.TabNext, A.OutputOf;
    EndedDrop(s, r);
    Stay(s);
    g := s;
    if g.agent.heap[r].drop.Removed? {
      DropNext(g.agent.heap[r], r);
      g := DropMove(s, g, A.CloseTab(r), r);
    }
    if g.agent.heap[r].drop.Closing? {
      DropNext(g.agent.heap[r], r);
      g := DropMove(s, g, A.ReleaseConn(r), r);
    }
    g := LastMove(s, g, r);
  }

  lemma LastMove(s: State, g: State, r: A.Ref) returns (g': State)
    requires Dropping(s, g, r) && s.up && s.lines != [] && g.lines == s.lines && s.lines[|s.lines| - 1] == []
    requires g.agent.heap[r].drop.Notifying?
    ensures Dropping(s, g', r) && g'.lines == s.lines[|s.lines| - 1 := [Close(s.agent.heap[r].id)]]
  {
    hide Sane, Reaches, A.TabNext, A.OutputOf;
    DropNext(g.agent.heap[r], r);
    g' := ProbeMove(g, A.Notify(r, true), r);
    Onwards(s, g, g');
    assert [] + [Close(s.agent.heap[r].id)] == [Close(s.agent.heap[r].id)];
  }

  lemma DropNext(t: A.Tab, r: A.Ref)
    ensures t.drop.Removed? && t.drop.notify ==> A.TabNext(t, A.CloseTab(r)).drop == A.Closing(true)
    ensures t.drop.Closing? && t.drop.notify ==> A.TabNext(t, A.ReleaseConn(r)).drop.Notifying?
    ensures t.drop.Notifying? ==>
              && A.OutputOf(t, A.Notify(r, true)) == Some(Close(t.id))
              && A.TabNext(t, A.Notify(r, true)) == t.(drop := A.Dropped)
  {
  }

  lemma ClosesLeft(s: State, g: State, r: A.Ref)
    requires Dropping(s, g, r) && s.lines != [] && s.lines[|s.lines| - 1] == []
    requires g.lines == s.lines[|s.lines| - 1 := [Close(s.agent.heap[r].id)]]
    requires Alive(s, s.agent.heap[r].id) && Conn(|s.lines| - 1) !in s.host.handlers
    ensures var id, n := s.agent.heap[r].id, |s.lines| - 1;
            && Alive(g, id) && Taken(g, id) == Taken(s, id) && Rest(g, id) == Rest(s, id)
            && CloseIn(g.lines[n], id) && Left(g, n, id) == []
            && (Answerable(s, id) ==> Answerable(g, id))
  {
    hide Sane, Reaches, Bytes;
    var id, n := s.agent.heap[r].id, |s.lines| - 1;
    assert forall e :: 0 <= e < |s.lines| ==> Holding(g, e, id) == Holding(s, e, id);
    assert Holding(s, n, id) == [];
    assert DataBefore([Close(id)], id) == [] == DataBefore([], id);
    hide Holding, DataBefore;
    forall e | 0 <= e < |s.lines| ensures Left(g, e, id) == Left(s, e, id) {}
    if Answerable(s, id) && !H.Serving(s.host.tuns[id]) {
      var e :| 0 <= e < |s.lines| && Answers(s, e, id);
      assert e != n;
      assert Answers(g, e, id);
    }
  }

  // ---- the host takes it ----

  // The ProxyClose has taken the tunnel out, with an idle client writer and nothing queued.
  ghost predicate TakenOut(s: State, g: State, id: Id) {
    && Reaches(s, g) && Sane(g) && g.agent == s.agent && Mine(s, id) && Mine(g, id)
    && var u := g.host.tuns[id];
    && u.finish == H.Removing(false) && u.ending.ProbeClosed? && u.inbound == []
    && u.out == s.host.tuns[id].out && u.out.pc.OutSelecting?
  }

  lemma {:induction false} BringClose(s: State, e: nat, id: Id) returns (g: State)
    requires Sane(s) && Ready(s, id) && e < |s.lines| && Left(s, e, id) == [] && CloseIn(s.lines[e], id)
    ensures TakenOut(s, g, id)
    decreases if e < |s.lines| then |s.lines[e]| else 0, Conn(e) in s.host.handlers
  {
    hide Sane, Reaches, TakenOut, CloseIn;
    if Conn(e) in s.host.handlers {
      NotHeld(s, e, id);
      var g' := Clear(s, e, id);
      g := BringClose(g', e, id);
      LaterOut(s, g', g, id);
    } else if s.lines[e] != [] && s.lines[e][0] == Close(id) {
      g := TakeClose(s, e, id);
    } else {
      CloseComes(s, e, id);
      var g' := Pull(s, e, id);
      g := BringClose(g', e, id);
      LaterOut(s, g', g, id);
    }
  }

  lemma NotHeld(s: State, e: nat, id: Id)
    requires e < |s.lines| && id in s.host.tuns && Conn(e) in s.host.handlers && Left(s, e, id) == []
    ensures s.host.handlers[Conn(e)].id != id || s.host.handlers[Conn(e)].Posting?
  {
    hide DataBefore;
  }

  lemma CloseComes(s: State, e: nat, id: Id)
    requires e < |s.lines| && CloseIn(s.lines[e], id)
    ensures s.lines[e] != [] && (s.lines[e][0] == Close(id) || !Ends(s.lines[e][0], id))
  {
  }

  lemma LaterOut(s: State, g': State, g: State, id: Id)
    requires Leads(s, g', id) && TakenOut(g', g, id) && g'.host.tuns[id].out == s.host.tuns[id].out
    ensures TakenOut(s, g, id)
  {
    hide Sane, Reaches, Left, Taken, SameCloses;
    Onwards(s, g', g);
  }

  lemma TakeClose(s: State, e: nat, id: Id) returns (g: State)
    requires Sane(s) && Ready(s, id) && e < |s.lines| && Conn(e) !in s.host.handlers
    requires s.lines[e] != [] && s.lines[e][0] == Close(id)
    ensures TakenOut(s, g, id)
  {
    hide Sane, Reaches, Step;
    PullStep(s, e);
    g := Go(s, HostReceive(e));
    CloseTaken(s, e, id);
  }

  lemma CloseTaken(s: State, e: nat, id: Id)
    requires Ready(s, id) && Can(s, HostReceive(e)) && s.lines[e][0] == Close(id)
    ensures id in Step(s, HostReceive(e)).host.tuns
    ensures var u, u' := s.host.tuns[id], Step(s, HostReceive(e)).host.tuns[id];
            u' == u.(finish := H.Removing(false), removals := u.removals + 1, ending := H.ProbeClosed)
  {
  }

  // ---- the client writer ends ----

  lemma TunMove(s: State, act: H.Action, id: Id) returns (g: State)
    requires Sane(s) && id in s.host.tuns && H.OfTunnel(act) && act.id == id
    requires H.TunCan(s.host.tuns[id], act) && H.OutputOf(s.host.tuns[id], act).None?
    ensures Reaches(s, g) && Sane(g)
    ensures g == s.(host := s.host.(tuns := s.host.tuns[id := H.TunNext(s.host.tuns[id], act)]))
  {
    hide H.TunNext, H.TunCan, H.OutputOf, Sane, Reaches, Step, Can;
    HasLines(s);
    TunStep(s, act, id);
    g := Go(s, HostStep(act));
  }

  lemma TunStep(s: State, act: H.Action, id: Id)
    requires s.lines != [] && id in s.host.tuns && H.OfTunnel(act) && act.id == id
    requires H.TunCan(s.host.tuns[id], act) && H.OutputOf(s.host.tuns[id], act).None?
    ensures Can(s, HostStep(act))
    ensures Step(s, HostStep(act)) == s.(host := s.host.(tuns := s.host.tuns[id := H.TunNext(s.host.tuns[id], act)]))
  {
    hide H.TunNext, H.TunCan, H.OutputOf;
  }

  // The client's stream ends cleanly, with what had been queued.
  lemma EndStream(s: State, g: State, id: Id) returns (g': State)
    requires TakenOut(s, g, id)
    ensures Reaches(s, g') && g'.agent == s.agent && id in g'.host.tuns
    ensures var u := g'.host.tuns[id];
            u.ending.ProbeClosed? && u.out.pc == OutEnded(true) && Delivered(u.out) == Delivered(s.host.tuns[id].out)
  {
    hide Sane, Reaches, Delivered;
    var g1 := TunMove(g, H.CloseDone(id), id);
    var g2 := TunMove(g1, H.SeeDone(id), id);
    g' := TunMove(g2, H.DrainEnd(id), id);
    Onwards(s, g, g1);
    Onwards(s, g1, g2);
    Onwards(s, g2, g');
    SameDelivered(s.host.tuns[id].out, g'.host.tuns[id].out);
  }

  lemma SameDelivered(o: Outlet, o': Outlet)
    requires o'.written == o.written && o'.part == o.part
    ensures Delivered(o') == Delivered(o)
  {
  }

  // ---- the two directions ----

  // A state in which everything taken is not what the probe sent, and the ProxyClose is ahead on line n.
  lemma Spoiled(s: State, t: A.Tab, n: nat) returns (g: State)
    requires Sane(s) && Alive(s, t.id) && Answerable(s, t.id) && !AllHere(s, t)
    requires n < |s.lines| && Left(s, n, t.id) == [] && CloseIn(s.lines[n], t.id)
    ensures Reaches(s, g) && Sane(g) && Ready(g, t.id) && g.agent == s.agent && n < |g.lines|
    ensures Left(g, n, t.id) == [] && CloseIn(g.lines[n], t.id) && Taken(g, t.id) != Bytes(t.src.sent)
  {
    hide Sane, Reaches, Left, Bytes, Answerable, CloseIn;
    g := Serve(s, t.id);
    if Taken(s, t.id) == Bytes(t.src.sent) {
      var e :| 0 <= e < |s.lines| && Left(s, e, t.id) != [];
      LeftFull(g, e, t.id);
      var g' := TakeFirst(g, e, t.id);
      assert |Taken(g', t.id)| > |Taken(g, t.id)|;
      Onwards(s, g, g');
      g := g';
    }
  }

  lemma TruncationDone(s: State, r: A.Ref) returns (g: State)
    requires Sane(s) && Can(s, Reconnect) && r < |s.agent.heap| && Due(s, s.agent.heap[r]) && !AllHere(s, s.agent.heap[r])
    ensures Reaches(Step(s, Reconnect), g) && r < |g.agent.heap| && !Complete(g, r)
    ensures g.agent.heap[r].id == s.agent.heap[r].id && g.agent.heap[r].src == s.agent.heap[r].src
  {
    hide Sane, Can, Step, Reaches, Left, Taken, Bytes, Answerable, Delivered, CloseIn, AllHere, Ready;
    var t, n, s1 := s.agent.heap[r], |s.lines|, Step(s, Reconnect);
    Owned(s, r);
    EndedDrop(s, r);
    ReconnectSane(s);
    ReconnectKept(s, t.id);
    var g1 := SendClose(s1, r);
    ClosesLeft(s1, g1, r);
    SameTaken(s, s1, t.id);
    NotHere(s, g1, t);
    var g2 := Spoiled(g1, t, n);
    var g3 := BringClose(g2, n, t.id);
    ReadyDelivered(g2, t.id);
    g := EndStream(g2, g3, t.id);
    Onwards(s1, g1, g2);
    Onwards(s1, g2, g);
  }

  lemma Owned(s: State, r: A.Ref)
    requires Sane(s) && r < |s.agent.heap|
    ensures Mine(s, s.agent.heap[r].id)
  {
    hide Inv, Talk;
    OwnTab(s, r);
  }

  lemma NotHere(s: State, g: State, t: A.Tab)
    requires t.id in s.host.tuns && t.id in g.host.tuns && !AllHere(s, t)
    requires Taken(g, t.id) == Taken(s, t.id) && Rest(g, t.id) == Rest(s, t.id) + [[]]
    ensures !AllHere(g, t)
  {
    hide Left, Bytes;
    if e: nat :| e < |s.lines| && Left(s, e, t.id) != [] { assert Rest(g, t.id)[e] == Left(s, e, t.id); }
  }

  // After a reconnect that is not lossless some client's stream can end cleanly without being what the probe
  // read, without any further reconnect.
  lemma LossyTruncates(acts: seq<Action>)
    requires Run(acts).Some? && Can(Run(acts).value, Reconnect) && !Lossless(Run(acts).value)
    ensures exists g, r :: Reaches(Step(Run(acts).value, Reconnect), g) && 0 <= r < |g.agent.heap| && !Complete(g, r)
  {
    hide Run, Inv, Talk, Can, Step, Reaches, AllHere, Answerable, Complete;
    var s := Run(acts).value;
    RunTalk(acts);
    RunKeeps(acts);
    var r :| 0 <= r < |s.agent.heap| && Due(s, s.agent.heap[r]) && !AllHere(s, s.agent.heap[r]);
    var g := TruncationDone(s, r);
  }

  // In every continuation that does without another reconnect every stream that ends is complete.
  ghost predicate StaysComplete(s: State) {
    forall g, r :: Reaches(s, g) && 0 <= r < |g.agent.heap| ==> Complete(g, r)
  }

  lemma {:induction false} ReachEnd(s: State, acts: seq<Action>)
    requires EndInv(s) && Reconnect !in acts && RunFrom(s, acts).Some?
    ensures EndInv(RunFrom(s, acts).value) && RunFrom(s, acts).value.lossless == s.lossless
  {
    hide EndInv, Step, Can;
    if acts != [] {
      var front, act := acts[..|acts| - 1], acts[|acts| - 1];
      assert forall a :: a in front ==> a in acts;
      ReachEnd(s, front);
      StepEndKeeps(RunFrom(s, front).value, act);
      SameLoss(RunFrom(s, front).value, act);
    }
  }

  lemma SameLoss(s: State, act: Action)
    requires Can(s, act) && !act.Reconnect?
    ensures Step(s, act).lossless == s.lossless
  {
    hide A.Step, H.Step, A.Can, H.Can;
  }

  lemma ReconnectLoss(s: State)
    requires Can(s, Reconnect)
    ensures Step(s, Reconnect).lossless == (s.lossless && Lossless(s))
  {
    hide Harmless, NoneLeft, Lossless;
  }

  // After lossless reconnects only, the next one keeps every download complete exactly when it is lossless.
  lemma LosslessExactly(acts: seq<Action>)
    requires Run(acts).Some? && Run(acts).value.lossless && Can(Run(acts).value, Reconnect)
    ensures Lossless(Run(acts).value) <==> StaysComplete(Step(Run(acts).value, Reconnect))
  {
    hide Run, EndInv, Can, Step, Complete, Lossless;
    var s := Run(acts).value;
    RunEndKeeps(acts);
    StepEndKeeps(s, Reconnect);
    var s1 := Step(s, Reconnect);
    ReconnectLoss(s);
    if Lossless(s) {
      forall g, r | Reaches(s1, g) && 0 <= r < |g.agent.heap| ensures Complete(g, r) {
        var more :| Reconnect !in more && RunFrom(s1, more) == Some(g);
        ReachEnd(s1, more);
        EndComplete(g, r);
      }
    } else {
      LossyTruncates(acts);
    }
  }
}
