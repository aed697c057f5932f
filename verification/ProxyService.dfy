// host/internal/proxy/service.go: the host's tunnel table, one method per critical section. The
// interleaving of these sections with the tunnels' goroutines is module Host.
module ProxyService {
  import opened Options
  import opened Wire
  import H = Host

  class Tunnel {
    const id: Id
    const agentID: H.AgentId
    const sessionID: H.SessionId
    var done: bool
    var closes: nat // how often the done channel was closed; twice would panic

    constructor (id: Id, agentID: H.AgentId, sessionID: H.SessionId)
      ensures this.id == id && this.agentID == agentID && this.sessionID == sessionID && !done && closes == 0
    {
      this.id, this.agentID, this.sessionID := id, agentID, sessionID;
      done, closes := false, 0;
    }

    // sync.Once: later calls do nothing.
    method Close()
      modifies this
      ensures done && closes == if old(done) then old(closes) else old(closes) + 1
    {
      if !done {
        done := true;
        closes := closes + 1;
      }
    }
  }

  // The tunnels of one session in a table.
  ghost function OfSession(tunnels: map<Id, Tunnel>, s: H.SessionId): set<Id> {
    set id | id in tunnels && tunnels[id].sessionID == s
  }

  lemma InsertSession(tunnels: map<Id, Tunnel>, id: Id, t: Tunnel, s: H.SessionId)
    requires id !in tunnels
    ensures |OfSession(tunnels[id := t], s)| == |OfSession(tunnels, s)| + if t.sessionID == s then 1 else 0
  {
    if t.sessionID == s {
      assert OfSession(tunnels[id := t], s) == OfSession(tunnels, s) + {id};
    } else {
      assert OfSession(tunnels[id := t], s) == OfSession(tunnels, s);
    }
  }

  lemma RemoveSession(tunnels: map<Id, Tunnel>, id: Id, s: H.SessionId)
    ensures |OfSession(tunnels - {id}, s)| <= |OfSession(tunnels, s)|
  {
    H.SubsetSize(OfSession(tunnels - {id}, s), OfSession(tunnels, s));
  }

  class Service {
    var tunnels: map<Id, Tunnel>

    // Tunnels in the table are under their own id and not done, and no session has more than its share.
    ghost predicate Valid()
      reads this, tunnels.Values
    {
      && (forall id :: id in tunnels ==> tunnels[id].id == id && !tunnels[id].done && tunnels[id].closes == 0)
      && (forall s :: |OfSession(tunnels, s)| <= H.MAX_PER_SESSION)
    }

    constructor ()
      ensures Valid() && tunnels == map[]
    {
      tunnels := map[];
      new;
      assert forall s :: OfSession(tunnels, s) == {};
    }

    // The counting loop of addTunnel.
    method CountSession(s: H.SessionId) returns (n: nat)
      ensures n == |OfSession(tunnels, s)|
    {
      n := 0;
      var rest := tunnels;
      while rest != map[]
        invariant rest.Keys <= tunnels.Keys && forall id :: id in rest ==> rest[id] == tunnels[id]
        invariant n + |OfSession(rest, s)| == |OfSession(tunnels, s)|
        decreases |rest|
      {
        var id :| id in rest;
        var cur := rest[id];
        assert rest == (rest - {id})[id := cur];
        InsertSession(rest - {id}, id, cur, s);
        rest := rest - {id};
        if cur.sessionID == s { n := n + 1; }
      }
      assert OfSession(rest, s) == {};
    }

    // addTunnel refuses the 65th tunnel of a session.
    method AddTunnel(t: Tunnel) returns (ok: bool)
      requires Valid() && t.id !in tunnels && !t.done && t.closes == 0
      modifies this
      ensures Valid()
      ensures ok <==> |OfSession(old(tunnels), t.sessionID)| < 64
      ensures tunnels == if ok then old(tunnels)[t.id := t] else old(tunnels)
    {
      var n := CountSession(t.sessionID);
      if n >= H.MAX_PER_SESSION { return false; }
      var next := tunnels[t.id := t];
      forall s ensures |OfSession(next, s)| <= H.MAX_PER_SESSION {
        InsertSession(tunnels, t.id, t, s);
      }
      tunnels := next;
      return true;
    }

    // finish: the first one takes the tunnel out of the table and closes done; later ones find nothing.
    method Finish(id: Id) returns (t: Option<Tunnel>)
      requires Valid()
      modifies this, tunnels.Values
      ensures Valid() && tunnels == old(tunnels) - {id}
      ensures t == if id in old(tunnels) then Some(old(tunnels)[id]) else None
      ensures id in old(tunnels) ==> old(tunnels)[id].done && old(tunnels)[id].closes == 1
      ensures forall j :: j in tunnels ==> unchanged(tunnels[j])
    {
      t := None;
      if id !in tunnels {
        assert tunnels == tunnels - {id};
        return;
      }
      t := Some(tunnels[id]);
      var next := tunnels - {id};
      forall s ensures |OfSession(next, s)| <= H.MAX_PER_SESSION {
        RemoveSession(tunnels, id, s);
      }
      tunnels := next;
      t.value.Close();
    }

    // The snapshot-and-finish loop shared by DropAgent and dropSession, over the ids of the snapshot.
    method FinishAll(ids: set<Id>)
      requires Valid()
      modifies this, tunnels.Values
      ensures Valid() && tunnels == old(tunnels) - ids
      ensures forall id :: id in ids && id in old(tunnels) ==> old(tunnels)[id].done && old(tunnels)[id].closes == 1
    {
      var todo := ids;
      while todo != {}
        invariant Valid() && todo <= ids && tunnels == old(tunnels) - (ids - todo)
        invariant forall id :: id in ids - todo && id in old(tunnels) ==> old(tunnels)[id].done && old(tunnels)[id].closes == 1
      {
        var id :| id in todo;
        var _ := Finish(id);
        todo := todo - {id};
        assert tunnels == old(tunnels) - (ids - todo);
      }
    }

    // Afterwards no tunnel of the probe is left, every one of them is closed, and no other is touched.
    method DropAgent(agentID: H.AgentId)
      requires Valid()
      modifies this, tunnels.Values
      ensures Valid()
      ensures tunnels == map id | id in old(tunnels) && old(tunnels)[id].agentID != agentID :: old(tunnels)[id]
      ensures forall id :: id in old(tunnels) && old(tunnels)[id].agentID == agentID ==> old(tunnels)[id].done
    {
      var ids := set id | id in tunnels && tunnels[id].agentID == agentID;
      FinishAll(ids);
    }

    method DropSession(sessionID: H.SessionId)
      requires Valid()
      modifies this, tunnels.Values
      ensures Valid() && OfSession(tunnels, sessionID) == {}
      ensures tunnels == map id | id in old(tunnels) && old(tunnels)[id].sessionID != sessionID :: old(tunnels)[id]
      ensures forall id :: id in old(tunnels) && old(tunnels)[id].sessionID == sessionID ==> old(tunnels)[id].done
    {
      var ids := set id | id in tunnels && tunnels[id].sessionID == sessionID;
      FinishAll(ids);
    }
  }
}
