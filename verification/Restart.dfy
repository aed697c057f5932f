// host/internal/ws: connections of probes (conn.go), the hub's table of them (hub.go), and the restart of
// every probe (restart.go). Wherever no lock is held, any other goroutine may register, unregister,
// disconnect or close connections: method Hub.Elsewhere. Timers fire when they like.
module Restart {
  import opened Options
  import F = Feature

  const SEND_BUFFER: nat := 256

  datatype Msg = SoftExitMsg | CrashMsg | Other(body: int)

  class AgentConn {
    const agentID: string
    const version: string
    const arch: string
    var send: seq<Msg>            // the Send channel
    var closed: bool
    var gone: bool                // the gone channel is closed
    ghost var accepted: seq<Msg>  // everything ever put into the channel

    constructor (agentID: string, version: string, arch: string)
      ensures Valid() && this.agentID == agentID && this.version == version && this.arch == arch && !gone && accepted == []
    {
      this.agentID, this.version, this.arch := agentID, version, arch;
      send, closed, gone, accepted := [], false, false, [];
    }

    ghost predicate Valid()
      reads this
    {
      closed == gone && |send| <= SEND_BUFFER && |send| <= |accepted| && send == accepted[|accepted| - |send|..]
    }

    // Closing twice is harmless; the channel is never used afterwards.
    method Close()
      requires Valid()
      modifies this
      ensures Valid() && gone && send == old(send) && accepted == old(accepted)
    {
      if !closed { closed := true; }
      gone := true;
    }

    // Never blocks: full and closed are errors.
    method SafeSend(msg: Msg) returns (ok: bool)
      requires Valid()
      modifies this
      ensures Valid() && gone == old(gone)
      ensures ok <==> !old(gone) && |old(send)| < 256
      ensures accepted == if ok then old(accepted) + [msg] else old(accepted)
    {
      if closed { return false; }
      if |send| < SEND_BUFFER {
        send := send + [msg];
        accepted := accepted + [msg];
        return true;
      }
      return false;
    }

    // The write pump takes the next message; what it cannot write ends the connection.
    method Pump()
      requires Valid()
      modifies this
      ensures Valid() && accepted == old(accepted) && (old(gone) ==> gone)
    {
      if send != [] { send := send[1..]; }
      var fails: bool := *;
      if fails { Close(); }
    }
  }

  // ----- What became of every probe -----

  datatype Fate = SoftExit | Escalated | Crash | Unsupported | Unreachable

  type Fates = seq<Option<Fate>> // None: not decided yet

  function Count(fates: Fates, f: Fate): nat {
    if fates == [] then 0 else Count(fates[..|fates| - 1], f) + if fates[|fates| - 1] == Some(f) then 1 else 0
  }

  lemma {:induction false} CountDecide(fates: Fates, k: nat, f: Fate, g: Fate)
    requires k < |fates| && fates[k] == None
    ensures Count(fates[k := Some(f)], g) == Count(fates, g) + if g == f then 1 else 0
  {
    var n := |fates| - 1;
    if k == n {
      assert fates[k := Some(f)][..n] == fates[..n];
    } else {
      CountDecide(fates[..n], k, f, g);
      assert fates[k := Some(f)][..n] == fates[..n][k := Some(f)];
    }
  }

  // Five counters over n decided probes add up to n.
  lemma {:induction false} CountsTotal(fates: Fates)
    requires forall k :: 0 <= k < |fates| ==> fates[k].Some?
    ensures Count(fates, SoftExit) + Count(fates, Escalated) + Count(fates, Crash) + Count(fates, Unsupported)
            + Count(fates, Unreachable) == |fates|
  {
    if fates != [] {
      CountsTotal(fates[..|fates| - 1]);
      match fates[|fates| - 1].value
      case SoftExit =>
      case Escalated =>
      case Crash =>
      case Unsupported =>
      case Unreachable =>
    }
  }

  ghost function Places(fates: Fates, f: Fate): set<nat> {
    set k: nat | k < |fates| && fates[k] == Some(f)
  }

  lemma PlacesMore(fates: Fates, f: Fate)
    requires fates != []
    ensures var n := |fates| - 1; var less := Places(fates[..n], f);
            n !in less && Places(fates, f) == less + if fates[n] == Some(f) then {n} else {}
  {
  }

  // Count is the number of places with this fate.
  lemma {:induction false} CountMeaning(fates: Fates, f: Fate)
    ensures Count(fates, f) == |Places(fates, f)|
  {
    if fates != [] {
      var n := |fates| - 1;
      CountMeaning(fates[..n], f);
      PlacesMore(fates, f);
      hide Places;
    } else {
      assert Places(fates, f) == {};
    }
  }

  lemma {:induction false} CountNone(fates: Fates, f: Fate)
    requires forall k :: 0 <= k < |fates| ==> fates[k] == None
    ensures Count(fates, f) == 0
  {
    if fates != [] { CountNone(fates[..|fates| - 1], f); }
  }

  class RestartBroadcast {
    var softExit: nat
    var escalated: nat
    var crash: nat
    var unsupported: nat
    var unreachable: nat

    constructor ()
      ensures softExit == escalated == crash == unsupported == unreachable == 0
    {
      softExit, escalated, crash, unsupported, unreachable := 0, 0, 0, 0, 0;
    }

    ghost predicate Tallies(fates: Fates)
      reads this
    {
      && softExit == Count(fates, SoftExit) && escalated == Count(fates, Escalated) && crash == Count(fates, Crash)
      && unsupported == Count(fates, Unsupported) && unreachable == Count(fates, Unreachable)
    }

    // One counter goes up by one.
    method Add(f: Fate, ghost fates: Fates, ghost k: nat)
      requires k < |fates| && fates[k] == None && Tallies(fates)
      modifies this
      ensures Tallies(fates[k := Some(f)])
    {
      forall g { CountDecide(fates, k, f, g); }
      hide Count;
      match f
      case SoftExit => softExit := softExit + 1;
      case Escalated => escalated := escalated + 1;
      case Crash => crash := crash + 1;
      case Unsupported => unsupported := unsupported + 1;
      case Unreachable => unreachable := unreachable + 1;
    }
  }

  // What a fate says about the probe: how its build can be restarted, and for a clean exit that this very
  // connection has been torn down.
  ghost predicate Deserved(registry: seq<F.Definition>, p: AgentConn, f: Fate)
    reads p
  {
    var mode := F.RestartModeFor(registry, p.version, p.arch);
    match f
    case SoftExit => mode == F.RestartSoftExit && p.gone
    case Escalated => mode == F.RestartSoftExit
    case Crash => mode == F.RestartCrash
    case Unsupported => mode == F.RestartUnsupported
    case Unreachable => mode != F.RestartUnsupported
  }

  ghost predicate Fair(registry: seq<F.Definition>, probes: seq<AgentConn>, fates: Fates)
    reads probes
  {
    |fates| == |probes| && forall k :: 0 <= k < |fates| && fates[k].Some? ==> Deserved(registry, probes[k], fates[k].value)
  }

  predicate Ascending(s: seq<nat>) {
    forall i, j :: 0 <= i < j < |s| ==> s[i] < s[j]
  }

  lemma AscendingLess(pa: seq<nat>, k: nat, pb: seq<nat>)
    requires Ascending(pa + [k] + pb)
    ensures Ascending(pa + pb)
    ensures forall i :: 0 <= i < |pa + pb| ==> (pa + pb)[i] != k
  {
    var s, t := pa + [k] + pb, pa + pb;
    assert s[|pa|] == k;
    forall i | 0 <= i < |t| ensures t[i] == s[if i < |pa| then i else i + 1] && t[i] != k {}
    forall i, j | 0 <= i < j < |t| ensures t[i] < t[j] {
      assert t[i] == s[if i < |pa| then i else i + 1] && t[j] == s[if j < |pa| then j else j + 1];
    }
  }

  // The probes still waited for are exactly the undecided ones of the first n.
  ghost predicate Awaited(probes: seq<AgentConn>, fates: Fates, n: nat, pending: seq<AgentConn>, places: seq<nat>) {
    && |fates| == |probes| && n <= |probes| && |places| == |pending|
    && (forall j :: 0 <= j < |places| ==> places[j] < n && pending[j] == probes[places[j]] && fates[places[j]] == None)
    && Ascending(places)
    && (forall k :: 0 <= k < n && fates[k] == None ==> k in places)
    && (forall k :: n <= k < |fates| ==> fates[k] == None)
  }

  lemma AwaitedLess(probes: seq<AgentConn>, fates: Fates, n: nat, a: seq<AgentConn>, p: AgentConn, b: seq<AgentConn>,
                    pa: seq<nat>, k: nat, pb: seq<nat>, f: Fate)
    requires |a| == |pa| && Awaited(probes, fates, n, a + [p] + b, pa + [k] + pb)
    ensures k < |fates| && fates[k] == None && p == probes[k]
    ensures Awaited(probes, fates[k := Some(f)], n, a + b, pa + pb)
  {
    var places, pending := pa + [k] + pb, a + [p] + b;
    var fewer, left := pa + pb, a + b;
    assert places[|pa|] == k && pending[|a|] == p;
    forall j | 0 <= j < |fewer|
      ensures fewer[j] < n && fewer[j] != k && left[j] == probes[fewer[j]] && fates[fewer[j]] == None
    {
      var j' := if j < |pa| then j else j + 1;
      assert places[j'] == fewer[j] && pending[j'] == left[j];
    }
    forall i | 0 <= i < n && i != k && fates[i] == None ensures i in fewer {
      var j :| 0 <= j < |places| && places[j] == i;
      assert j != |pa|;
      assert fewer[if j < |pa| then j else j - 1] == i;
    }
    AscendingLess(pa, k, pb);
  }

  lemma AwaitedMore(probes: seq<AgentConn>, fates: Fates, n: nat, pending: seq<AgentConn>, places: seq<nat>)
    requires Awaited(probes, fates, n, pending, places) && n < |probes|
    ensures fates[n] == None && Awaited(probes, fates, n + 1, pending + [probes[n]], places + [n])
  {
    forall k | 0 <= k < n + 1 && fates[k] == None ensures k in places + [n] {
      assert (places + [n])[|places|] == n;
    }
  }

  lemma AwaitedDecided(probes: seq<AgentConn>, fates: Fates, n: nat, pending: seq<AgentConn>, places: seq<nat>, f: Fate)
    requires Awaited(probes, fates, n, pending, places) && n < |probes|
    ensures fates[n] == None && Awaited(probes, fates[n := Some(f)], n + 1, pending, places)
  {
  }

  // Decisions are final, and the new ones are of the given kinds.
  ghost predicate Grown(before: Fates, after: Fates, kinds: set<Fate>) {
    && |after| == |before|
    && (forall k :: 0 <= k < |before| && before[k].Some? ==> after[k] == before[k])
    && (forall k :: 0 <= k < |before| && before[k] == None && after[k].Some? ==> after[k].value in kinds)
  }

  lemma GrownSame(fates: Fates, kinds: set<Fate>)
    ensures Grown(fates, fates, kinds)
  {
  }

  lemma GrownWider(before: Fates, after: Fates, f: Fate, kinds: set<Fate>)
    requires Grown(before, after, {f}) && f in kinds
    ensures Grown(before, after, kinds)
  {
  }

  lemma GrownMore(first: Fates, middle: Fates, last: Fates, kinds: set<Fate>)
    requires Grown(first, middle, kinds) && Grown(middle, last, kinds)
    ensures Grown(first, last, kinds)
  {
  }

  // Connections that were gone early are counted as clean exits, if they were waited for at all.
  ghost predicate Resolved(probes: seq<AgentConn>, before: Fates, after: Fates, early: set<AgentConn>)
    requires |before| == |after| == |probes|
  {
    forall k :: 0 <= k < |before| && before[k] == None && probes[k] in early ==> after[k] == Some(SoftExit)
  }

  lemma ResolvedMore(probes: seq<AgentConn>, before: Fates, fates: Fates, after: Fates, early: set<AgentConn>)
    requires |before| == |fates| == |probes| && Resolved(probes, before, fates, early)
    requires Grown(fates, after, {Escalated, Unreachable})
    ensures Resolved(probes, before, after, early)
  {
  }

  lemma GrownSoft(before: Fates, after: Fates)
    requires Grown(before, after, {SoftExit})
    ensures Grown(before, after, {SoftExit, Escalated, Unreachable})
  {
  }

  ghost predicate Undecided(probes: seq<AgentConn>, fates: Fates, pending: seq<AgentConn>)
    requires |fates| == |probes|
  {
    && (forall c :: c in pending ==> exists k :: 0 <= k < |fates| && fates[k] == None && probes[k] == c)
    && (forall k :: 0 <= k < |fates| && fates[k] == None ==> probes[k] in pending)
  }

  lemma SweepResolves(probes: seq<AgentConn>, before: Fates, fates: Fates, pending: seq<AgentConn>, early: set<AgentConn>)
    requires |before| == |fates| == |probes| && Grown(before, fates, {SoftExit}) && Undecided(probes, fates, pending)
    requires forall c :: c in pending ==> c !in early
    ensures Resolved(probes, before, fates, early)
  {
    forall k | 0 <= k < |before| && before[k] == None && probes[k] in early ensures fates[k] == Some(SoftExit) {
      assert probes[k] in pending || fates[k].Some?;
    }
  }

  // Nobody has been counted as having left, cleanly or not.
  ghost predicate NobodyLeft(fates: Fates) {
    forall k :: 0 <= k < |fates| ==> fates[k] != Some(Escalated) && fates[k] != Some(SoftExit)
  }

  lemma StillNobody(before: Fates, after: Fates)
    requires Grown(before, after, {Unreachable, Crash, Unsupported}) && NobodyLeft(before)
    ensures NobodyLeft(after)
  {
    forall k | 0 <= k < |after| ensures after[k] != Some(Escalated) && after[k] != Some(SoftExit) {
      if before[k] == None && after[k].Some? { assert after[k].value in {Unreachable, Crash, Unsupported}; }
    }
  }

  // The awaited probes are the undecided ones.
  lemma AwaitedAll(probes: seq<AgentConn>, fates: Fates, pending: seq<AgentConn>, places: seq<nat>)
    requires Awaited(probes, fates, |probes|, pending, places)
    ensures Undecided(probes, fates, pending)
  {
    forall c | c in pending ensures exists k :: 0 <= k < |fates| && fates[k] == None && probes[k] == c {
      var j :| 0 <= j < |pending| && pending[j] == c;
      assert fates[places[j]] == None;
    }
    forall k | 0 <= k < |fates| && fates[k] == None ensures probes[k] in pending {
      var j :| 0 <= j < |places| && places[j] == k;
      assert pending[j] == probes[k];
    }
  }

  // ----- What the probes are asked to do -----

  datatype Request = Request(agentID: string, msg: Msg, delivered: bool)

  // The requests for one probe, in order.
  function To(log: seq<Request>, id: string): (own: seq<Request>) {
    if log == [] then []
    else To(log[..|log| - 1], id) + if log[|log| - 1].agentID == id then [log[|log| - 1]] else []
  }

  lemma ToMore(log: seq<Request>, r: Request, id: string)
    ensures To(log + [r], id) == To(log, id) + if r.agentID == id then [r] else []
  {
    assert (log + [r])[..|log|] == log;
  }

  ghost predicate DistinctIds(probes: seq<AgentConn>) {
    forall i, j :: 0 <= i < j < |probes| ==> probes[i].agentID != probes[j].agentID
  }

  // Every request goes to one of the probes.
  ghost predicate OnlyTo(probes: seq<AgentConn>, log: seq<Request>) {
    forall i :: 0 <= i < |log| ==> exists k :: 0 <= k < |probes| && probes[k].agentID == log[i].agentID
  }

  // What a probe hears in the first round, given its fate so far.
  ghost function FirstWords(id: string, mode: F.RestartMode, fate: Option<Fate>): seq<Request> {
    match mode
    case RestartSoftExit => [Request(id, SoftExitMsg, fate == None)]
    case RestartCrash => [Request(id, CrashMsg, fate == Some(Crash))]
    case RestartUnsupported => []
  }

  // The first n probes have been asked.
  ghost predicate FirstAsked(registry: seq<F.Definition>, probes: seq<AgentConn>, fates: Fates, n: nat, asked: seq<Request>) {
    && |fates| == |probes| && OnlyTo(probes, asked) && DistinctIds(probes)
    && forall k :: 0 <= k < |probes| ==>
         To(asked, probes[k].agentID)
         == if k < n then FirstWords(probes[k].agentID, F.RestartModeFor(registry, probes[k].version, probes[k].arch), fates[k])
            else []
  }

  lemma AskedMore(registry: seq<F.Definition>, probes: seq<AgentConn>, before: Fates, fates: Fates, n: nat, asked: seq<Request>,
                  words: seq<Request>)
    requires FirstAsked(registry, probes, before, n, asked) && n < |probes| == |fates|
    requires forall k :: 0 <= k < |fates| && k != n ==> fates[k] == before[k]
    requires words == FirstWords(probes[n].agentID, F.RestartModeFor(registry, probes[n].version, probes[n].arch), fates[n])
    ensures FirstAsked(registry, probes, fates, n + 1, asked + words)
  {
    hide F.RestartModeFor;
    if words == [] {
      assert asked + words == asked;
    } else {
      assert words == [words[0]];
      forall k | 0 <= k < |probes| { ToMore(asked, words[0], probes[k].agentID); }
    }
  }

  // Those that were undecided before and are decided now have been crashed, and nobody else.
  ghost predicate Crashed(probes: seq<AgentConn>, before: Fates, fates: Fates, crashed: seq<Request>) {
    && |before| == |fates| == |probes| && OnlyTo(probes, crashed)
    && forall k :: 0 <= k < |probes| ==>
         To(crashed, probes[k].agentID)
         == if before[k] == None && fates[k].Some? && fates[k] != Some(SoftExit)
            then [Request(probes[k].agentID, CrashMsg, fates[k] == Some(Escalated))] else []
  }

  lemma CrashedMore(probes: seq<AgentConn>, before: Fates, fates: Fates, crashed: seq<Request>, k: nat, ok: bool)
    requires Crashed(probes, before, fates, crashed) && DistinctIds(probes) && Grown(before, fates, {Escalated, Unreachable})
    requires k < |probes| && fates[k] == None
    ensures Crashed(probes, before, fates[k := Some(if ok then Escalated else Unreachable)],
                    crashed + [Request(probes[k].agentID, CrashMsg, ok)])
  {
    var r := Request(probes[k].agentID, CrashMsg, ok);
    forall i | 0 <= i < |probes| { ToMore(crashed, r, probes[i].agentID); }
  }

  lemma CrashedNobody(probes: seq<AgentConn>, before: Fates, fates: Fates)
    requires |before| == |fates| == |probes| && Grown(before, fates, {SoftExit})
    ensures Crashed(probes, before, fates, [])
  {
  }

  lemma CrashedRest(probes: seq<AgentConn>, before: Fates, fates: Fates, after: Fates, crashed: seq<Request>)
    requires Grown(before, fates, {SoftExit}) && Crashed(probes, fates, after, crashed)
    requires Grown(fates, after, {Escalated, Unreachable})
    ensures Crashed(probes, before, after, crashed)
    ensures Grown(before, after, {SoftExit, Escalated, Unreachable})
  {
  }

  datatype Outcome = Offline | Delivered | NotDelivered | CannotRestart

  class Hub {
    const registry: seq<F.Definition>
    var agents: map<string, AgentConn>
    var all: set<AgentConn> // every connection there ever was
    ghost var requests: seq<Request> // every restart request sent through SendToAgent

    ghost predicate Valid()
      reads this, all
    {
      && agents.Values <= all && (forall c :: c in all ==> c.Valid())
      && (forall id :: id in agents ==> agents[id].agentID == id)
    }

    constructor (registry: seq<F.Definition>)
      ensures Valid() && agents == map[] && all == {} && requests == [] && this.registry == registry
    {
      this.registry, agents, all, requests := registry, map[], {}, [];
    }

    // A new connection takes the place of its predecessor, which is closed.
    method Register(ac: AgentConn)
      requires Valid() && ac.Valid() && ac !in all
      modifies this`agents, this`all, all
      ensures Valid() && all == old(all) + {ac} && agents == old(agents)[ac.agentID := ac]
      ensures ac.agentID in old(agents) ==> old(agents)[ac.agentID].gone
      ensures forall c :: c in old(all) && old(c.gone) ==> c.gone
      ensures ac.gone == old(ac.gone)
    {
      if ac.agentID in agents {
        assert agents[ac.agentID] in agents.Values;
        agents[ac.agentID].Close();
      }
      agents := agents[ac.agentID := ac];
      all := all + {ac};
    }

    // Only the connection that is in the table itself can be unregistered: a stale one leaves its
    // successor alone.
    method Unregister(agentID: string, ac: AgentConn)
      requires Valid() && ac in all
      modifies this`agents, all
      ensures Valid()
      ensures agents == if agentID in old(agents) && old(agents)[agentID] == ac then old(agents) - {agentID} else old(agents)
      ensures agents != old(agents) ==> ac.gone
      ensures forall c :: c in all && (c != ac || agents == old(agents)) ==> c.gone == old(c.gone)
      ensures forall c :: c in all && old(c.gone) ==> c.gone
    {
      if agentID !in agents || agents[agentID] != ac { return; }
      agents := agents - {agentID};
      ac.Close();
    }

    method Disconnect(agentID: string)
      requires Valid()
      modifies this`agents, all
      ensures Valid() && agents == old(agents) - {agentID}
      ensures agentID in old(agents) ==> old(agents)[agentID].gone
      ensures forall c :: c in all && old(c.gone) ==> c.gone
    {
      if agentID in agents {
        var ac := agents[agentID];
        assert ac in agents.Values;
        agents := agents - {agentID};
        ac.Close();
      } else {
        assert agents == agents - {agentID};
      }
    }

    // To nobody is no error: a probe without a connection counts as reached.
    method SendToAgent(agentID: string, msg: Msg) returns (ok: bool)
      requires Valid()
      modifies all, this`requests
      ensures Valid() && requests == old(requests) + [Request(agentID, msg, ok)]
      ensures agentID !in agents ==> ok
      ensures agentID in agents ==> (ok <==> !agents[agentID].gone && |old(agents[agentID].send)| < 256)
      ensures ok && agentID in agents ==> agents[agentID].accepted == old(agents[agentID].accepted) + [msg]
      ensures forall c :: c in all ==> c.gone == old(c.gone)
    {
      ok := true;
      if agentID in agents {
        assert agents[agentID] in agents.Values;
        ok := agents[agentID].SafeSend(msg);
      }
      requests := requests + [Request(agentID, msg, ok)];
    }

    // Whatever other goroutines do while this one holds no lock.
    method Elsewhere()
      requires Valid()
      modifies this`agents, this`all, all
      ensures Valid() && old(all) <= all && fresh(all - old(all))
      ensures forall c :: c in old(all) && old(c.gone) ==> c.gone
    {
      var n: int := *;
      for i := 0 to if n < 0 then 0 else n
        invariant Valid() && old(all) <= all && fresh(all - old(all))
        invariant forall c :: c in old(all) && old(c.gone) ==> c.gone
      {
        OneStep();
      }
    }

    method OneStep()
      requires Valid()
      modifies this`agents, this`all, all
      ensures Valid() && old(all) <= all && fresh(all - old(all))
      ensures forall c :: c in old(all) && old(c.gone) ==> c.gone
    {
      var what: int := *;
      var id: string := *;
      if what == 0 {
        var version: string, arch: string := *, *;
        var ac := new AgentConn(id, version, arch);
        Register(ac);
      } else if what == 1 {
        Disconnect(id);
      } else if all != {} {
        var c :| c in all;
        match what
        case 2 => Unregister(id, c);
        case 3 => c.Close();
        case 4 => c.Pump();
        case _ => var _ := c.SafeSend(Other(what));
      }
    }

    method SendCrash(agentID: string) returns (ok: bool)
      requires Valid()
      modifies all, this`requests
      ensures Valid() && requests == old(requests) + [Request(agentID, CrashMsg, ok)]
      ensures forall c :: c in all ==> c.gone == old(c.gone)
    {
      ok := SendToAgent(agentID, CrashMsg);
    }

    // SendWait retries until the write pump makes room, the connection closes or the time is up, sleeping
    // 2, 4, 8, 16 and then 32 ms. Each sleep lasts at least as long as asked, and anything may happen in it.
    method SendWait(ac: AgentConn, timeout: int, msg: Msg) returns (ok: bool, elapsed: int)
      requires Valid() && ac in all
      modifies this, all
      ensures Valid() && old(all) <= all && fresh(all - old(all))
      ensures ok ==> !ac.gone && ac.accepted != [] && ac.accepted[|ac.accepted| - 1] == msg
      ensures !ok ==> ac.gone || elapsed >= timeout
      ensures old(ac.gone) ==> !ok && ac.gone
    {
      elapsed := 0;
      var backoff := 2_000_000;
      while true
        invariant Valid() && old(all) <= all && fresh(all - old(all)) && 0 < backoff <= 32_000_000
        invariant old(ac.gone) ==> ac.gone
        decreases timeout - elapsed
      {
        if ac.closed { return false, elapsed; }
        ok := ac.SafeSend(msg);
        if ok { return; }
        var remaining := timeout - elapsed;
        if remaining <= 0 { return; }
        var sleep := if backoff > remaining then remaining else backoff;
        Elsewhere();
        var late: int := *;
        elapsed := elapsed + sleep + if late > 0 then late else 0;
        if backoff < 32_000_000 {
          backoff := backoff * 2;
          if backoff > 32_000_000 { backoff := 32_000_000; }
        }
      }
    }

    // RequestRestart asks for a clean exit where the build knows it and reports one only if that very
    // connection was torn down; otherwise it escalates. An escalation that could be delivered is reported as
    // a crash without an error; what tells it from a crash as first choice is that the build knows the clean exit.
    method RequestRestart(agentID: string) returns (mode: F.RestartMode, outcome: Outcome)
      requires Valid()
      modifies this, all
      ensures Valid()
      ensures outcome == Offline <==> agentID !in old(agents)
      ensures outcome == Offline ==> requests == old(requests)
      ensures agentID in old(agents) ==>
                var ac := old(agents)[agentID];
                match F.RestartModeFor(registry, ac.version, ac.arch)
                case RestartUnsupported => mode == F.RestartUnsupported && outcome == CannotRestart && requests == old(requests)
                case RestartCrash =>
                  && mode == F.RestartCrash && (outcome == Delivered || outcome == NotDelivered)
                  && requests == old(requests) + [Request(agentID, CrashMsg, outcome == Delivered)]
                case RestartSoftExit =>
                  match mode
                  case RestartUnsupported => false
                  case RestartSoftExit =>
                    && (outcome == NotDelivered || (outcome == Delivered && ac.gone))
                    && requests == old(requests) + [Request(agentID, SoftExitMsg, outcome == Delivered)]
                  case RestartCrash =>
                    && (outcome == Delivered || outcome == NotDelivered)
                    && requests == old(requests) + [Request(agentID, SoftExitMsg, true), Request(agentID, CrashMsg, outcome == Delivered)]
    {
      hide F.RestartModeFor;
      if agentID !in agents { return F.RestartUnsupported, Offline; }
      var ac := agents[agentID];
      assert ac in agents.Values;
      mode := F.RestartModeFor(registry, ac.version, ac.arch);
      match mode {
        case RestartSoftExit =>
          Elsewhere();
          var ok := SendToAgent(agentID, SoftExitMsg);
          if !ok { return mode, NotDelivered; }
          Elsewhere();
          var timedOut: bool := *;
          if ac.gone && !timedOut { return mode, Delivered; }
          ok := SendCrash(agentID);
          return F.RestartCrash, if ok then Delivered else NotDelivered;
        case RestartCrash =>
          Elsewhere();
          var ok := SendCrash(agentID);
          return mode, if ok then Delivered else NotDelivered;
        case RestartUnsupported =>
          return mode, CannotRestart;
      }
    }

    // BroadcastRestart: whatever happens meanwhile, it ends, and every connection that was in the table when
    // it started gets exactly one fate, counted in exactly one counter. A clean exit is counted only if that
    // very connection was torn down; that the probe has come back under its id does not matter. The fate says
    // what the probe was asked in the first round and in the crash round after it, and what could be delivered.
    // The crash round comes no sooner than ten seconds after the first.
    method BroadcastRestart()
      returns (result: RestartBroadcast, ghost probes: seq<AgentConn>, ghost fates: Fates,
               ghost asked: seq<Request>, ghost crashed: seq<Request>, ghost waited: int)
      requires Valid()
      modifies this, all
      ensures forall c :: c in old(agents.Values) <==> c in probes
      ensures forall i, j :: 0 <= i < j < |probes| ==> probes[i].agentID != probes[j].agentID
      ensures Fair(registry, probes, fates) && forall k :: 0 <= k < |fates| ==> fates[k].Some?
      ensures result.softExit == Count(fates, SoftExit) && result.escalated == Count(fates, Escalated)
      ensures result.crash == Count(fates, Crash) && result.unsupported == Count(fates, Unsupported)
      ensures result.unreachable == Count(fates, Unreachable)
      ensures result.softExit + result.escalated + result.crash + result.unsupported + result.unreachable == |probes|
      ensures requests == old(requests) + asked + crashed && OnlyTo(probes, asked) && OnlyTo(probes, crashed)
      ensures forall k {:trigger fates[k]} :: 0 <= k < |probes| ==>
                var id := probes[k].agentID;
                match fates[k].value
                case Unsupported => To(asked, id) == [] && To(crashed, id) == []
                case Crash => To(asked, id) == [Request(id, CrashMsg, true)] && To(crashed, id) == []
                case SoftExit => To(asked, id) == [Request(id, SoftExitMsg, true)] && To(crashed, id) == []
                case Escalated =>
                  To(asked, id) == [Request(id, SoftExitMsg, true)] && To(crashed, id) == [Request(id, CrashMsg, true)]
                case Unreachable =>
                  match F.RestartModeFor(registry, probes[k].version, probes[k].arch)
                  case RestartUnsupported => false
                  case RestartCrash => To(asked, id) == [Request(id, CrashMsg, false)] && To(crashed, id) == []
                  case RestartSoftExit =>
                    || (To(asked, id) == [Request(id, SoftExitMsg, false)] && To(crashed, id) == [])
                    || (To(asked, id) == [Request(id, SoftExitMsg, true)] && To(crashed, id) == [Request(id, CrashMsg, false)])
      ensures forall k :: 0 <= k < |fates| && probes[k] in old(all) && old(probes[k].gone) ==> fates[k] != Some(Escalated)
      ensures crashed != [] ==> waited >= 10_000_000_000
    {
      hide *;
      var snapshot := Snapshot();
      probes := snapshot;
      var waiting: seq<AgentConn>;
      ghost var places, first, early;
      result, waiting, places, first, early, asked := AskAll(snapshot);
      fates, crashed, waited := AwaitSoftExits(waiting, places, probes, first, result, early);
      Finished(probes, fates, result);
      Conclude(probes, first, fates, early, asked, crashed);
    }

    // What a broadcast adds up to.
    lemma Conclude(probes: seq<AgentConn>, first: Fates, last: Fates, early: set<AgentConn>, asked: seq<Request>, crashed: seq<Request>)
      requires |first| == |last| == |probes| && Grown(first, last, {SoftExit, Escalated, Unreachable})
      requires Fair(registry, probes, last) && forall k :: 0 <= k < |last| ==> last[k].Some?
      requires NobodyLeft(first) && Resolved(probes, first, last, early) && OnlySoftWait(probes, first)
      requires FirstAsked(registry, probes, first, |probes|, asked) && Crashed(probes, first, last, crashed)
      ensures OnlyTo(probes, asked) && OnlyTo(probes, crashed)
      ensures forall k :: 0 <= k < |last| && last[k] == Some(Escalated) ==> probes[k] !in early
      ensures forall k {:trigger last[k]} :: 0 <= k < |probes| ==>
                var id := probes[k].agentID;
                match last[k].value
                case Unsupported => To(asked, id) == [] && To(crashed, id) == []
                case Crash => To(asked, id) == [Request(id, CrashMsg, true)] && To(crashed, id) == []
                case SoftExit => To(asked, id) == [Request(id, SoftExitMsg, true)] && To(crashed, id) == []
                case Escalated =>
                  To(asked, id) == [Request(id, SoftExitMsg, true)] && To(crashed, id) == [Request(id, CrashMsg, true)]
                case Unreachable =>
                  match F.RestartModeFor(registry, probes[k].version, probes[k].arch)
                  case RestartUnsupported => false
                  case RestartCrash => To(asked, id) == [Request(id, CrashMsg, false)] && To(crashed, id) == []
                  case RestartSoftExit =>
                    || (To(asked, id) == [Request(id, SoftExitMsg, false)] && To(crashed, id) == [])
                    || (To(asked, id) == [Request(id, SoftExitMsg, true)] && To(crashed, id) == [Request(id, CrashMsg, false)])
    {
      hide F.RestartModeFor, To, OnlyTo, DistinctIds;
      forall k {:trigger last[k]} | 0 <= k < |probes|
        ensures To(crashed, probes[k].agentID)
                == if first[k] == None && last[k] != Some(SoftExit)
                   then [Request(probes[k].agentID, CrashMsg, last[k] == Some(Escalated))] else []
        ensures To(asked, probes[k].agentID)
                == FirstWords(probes[k].agentID, F.RestartModeFor(registry, probes[k].version, probes[k].arch), first[k])
        ensures first[k] == None ==> last[k].value in {SoftExit, Escalated, Unreachable}
        ensures Deserved(registry, probes[k], last[k].value)
      {
      }
    }

    // The loop over the snapshot.
    method AskAll(probes: seq<AgentConn>)
      returns (result: RestartBroadcast, waiting: seq<AgentConn>, ghost places: seq<nat>, ghost fates: Fates, ghost early: set<AgentConn>,
               ghost asked: seq<Request>)
      requires Valid() && DistinctIds(probes) && forall p :: p in probes ==> p in all
      modifies this, all
      ensures fresh(result) && old(all) <= all && fresh(all - old(all))
      ensures Watching(probes, fates, |probes|, waiting, places, result)
      ensures requests == old(requests) + asked && FirstAsked(registry, probes, fates, |probes|, asked) && NobodyLeft(fates)
      ensures OnlySoftWait(probes, fates)
      ensures forall p :: p in early ==> p in all && p.gone
      ensures forall p :: p in probes && old(p.gone) ==> p in early
    {
      hide *;
      result, fates, early := Start(probes);
      waiting, places, asked := [], [], [];
      for i := 0 to |probes|
        invariant Watching(probes, fates, i, waiting, places, result)
        invariant fresh(result) && old(all) <= all && fresh(all - old(all))
        invariant requests == old(requests) + asked && FirstAsked(registry, probes, fates, i, asked)
        invariant NobodyLeft(fates) && forall p :: p in early ==> p in all && p.gone
      {
        Wait(probes, fates, i, waiting, places, result);
        ghost var before := fates;
        ghost var words;
        waiting, places, fates, words := AskProbe(probes[i], i, waiting, places, probes, fates, result);
        StillNobody(before, fates);
        AskedMore(registry, probes, before, fates, i, asked, words);
        asked := asked + words;
      }
      SoftWait(probes, fates, waiting, places, result);
    }

    ghost predicate OnlySoftWait(probes: seq<AgentConn>, fates: Fates)
    {
      |fates| == |probes| && forall k :: 0 <= k < |probes| && fates[k] == None ==> Soft(probes[k])
    }

    lemma SoftWait(probes: seq<AgentConn>, fates: Fates, waiting: seq<AgentConn>, places: seq<nat>, result: RestartBroadcast)
      requires Watching(probes, fates, |probes|, waiting, places, result)
      ensures OnlySoftWait(probes, fates)
    {
      hide F.RestartModeFor;
      AwaitedAll(probes, fates, waiting, places);
    }

    method Start(ghost probes: seq<AgentConn>) returns (result: RestartBroadcast, ghost fates: Fates, ghost early: set<AgentConn>)
      requires Valid() && DistinctIds(probes) && forall p :: p in probes ==> p in all
      ensures fresh(result) && Watching(probes, fates, 0, [], [], result)
      ensures NobodyLeft(fates) && FirstAsked(registry, probes, fates, 0, [])
      ensures forall p :: p in early <==> p in probes && p.gone
    {
      fates := seq(|probes|, _ => None);
      result := new RestartBroadcast();
      early := set p | p in probes && p.gone;
      forall f { CountNone(fates, f); }
    }

    lemma Finished(probes: seq<AgentConn>, fates: Fates, result: RestartBroadcast)
      requires Watching(probes, fates, |probes|, [], [], result)
      ensures Fair(registry, probes, fates) && forall k :: 0 <= k < |fates| ==> fates[k].Some?
      ensures result.softExit == Count(fates, SoftExit) && result.escalated == Count(fates, Escalated)
      ensures result.crash == Count(fates, Crash) && result.unsupported == Count(fates, Unsupported)
      ensures result.unreachable == Count(fates, Unreachable)
      ensures result.softExit + result.escalated + result.crash + result.unsupported + result.unreachable == |probes|
    {
      CountsTotal(fates);
    }

    // The state of the broadcast between two steps.
    ghost predicate Watching(probes: seq<AgentConn>, fates: Fates, n: nat, waiting: seq<AgentConn>, places: seq<nat>,
                             result: RestartBroadcast)
      reads this, all, probes, result
    {
      && Valid() && (forall p :: p in probes ==> p in all) && (forall p :: p in waiting ==> Soft(p))
      && Fair(registry, probes, fates) && result.Tallies(fates) && Awaited(probes, fates, n, waiting, places)
    }

    ghost predicate Soft(p: AgentConn) {
      F.RestartModeFor(registry, p.version, p.arch) == F.RestartSoftExit
    }

    // One turn of the loop over the snapshot.
    method AskProbe(p: AgentConn, n: nat, waiting: seq<AgentConn>, ghost places: seq<nat>, ghost probes: seq<AgentConn>,
                    ghost fates: Fates, result: RestartBroadcast)
      returns (waiting': seq<AgentConn>, ghost places': seq<nat>, ghost fates': Fates, ghost words: seq<Request>)
      requires n < |probes| && probes[n] == p && Watching(probes, fates, n, waiting, places, result)
      modifies all, result, this`requests
      ensures Watching(probes, fates', n + 1, waiting', places', result)
      ensures requests == old(requests) + words
      ensures words == FirstWords(p.agentID, F.RestartModeFor(registry, p.version, p.arch), fates'[n])
      ensures Grown(fates, fates', {Unreachable, Crash, Unsupported})
      ensures |fates| == |fates'| == |probes| && forall k :: 0 <= k < |fates| && k != n ==> fates'[k] == fates[k]
      ensures forall c :: c in all ==> c.gone == old(c.gone)
    {
      hide Count, Awaited, F.RestartModeFor, RestartBroadcast.Tallies;
      waiting', places', fates' := waiting, places, fates;
      var f: Fate;
      match F.RestartModeFor(registry, p.version, p.arch) {
        case RestartSoftExit =>
          var ok := SendToAgent(p.agentID, SoftExitMsg);
          words := [Request(p.agentID, SoftExitMsg, ok)];
          if ok {
            AwaitedMore(probes, fates, n, waiting, places);
            waiting', places' := waiting + [p], places + [n];
            return;
          }
          f := Unreachable;
        case RestartCrash =>
          var ok := SendCrash(p.agentID);
          words := [Request(p.agentID, CrashMsg, ok)];
          f := if ok then Crash else Unreachable;
        case RestartUnsupported =>
          words := [];
          f := Unsupported;
      }
      AwaitedDecided(probes, fates, n, waiting, places, f);
      result.Add(f, fates, n);
      fates' := fates[n := Some(f)];
    }

    // awaitSoftExits polls until every soft-exited connection is gone or the deadline passes, and then
    // crashes whoever is left. Connections that are gone when it starts are never crashed.
    method AwaitSoftExits(waiting: seq<AgentConn>, ghost places: seq<nat>, ghost probes: seq<AgentConn>, ghost fates: Fates,
                          result: RestartBroadcast, ghost early: set<AgentConn>)
      returns (ghost fates': Fates, ghost crashed: seq<Request>, ghost waited: int)
      requires Watching(probes, fates, |probes|, waiting, places, result) && DistinctIds(probes)
      requires forall p :: p in early ==> p in all && p.gone
      modifies this, all, result
      ensures Watching(probes, fates', |probes|, [], [], result)
      ensures requests == old(requests) + crashed && Crashed(probes, fates, fates', crashed)
      ensures |fates| == |fates'| == |probes| && Grown(fates, fates', {SoftExit, Escalated, Unreachable})
      ensures Resolved(probes, fates, fates', early)
      ensures crashed != [] ==> waited >= 10_000_000_000
    {
      hide *;
      fates', crashed, waited := fates, [], 0;
      BeforeAwait(waiting, places, probes, fates, result);
      ghost var at := places;
      var escalation, interval := 10_000_000_000, 200_000_000; // nanoseconds
      var pending, left: nat := waiting, 50; // as many polls fit into the time before escalation
      while |pending| > 0
        invariant Watching(probes, fates', |probes|, pending, at, result)
        invariant old(all) <= all && fresh(all - old(all)) && requests == old(requests)
        invariant |fates'| == |fates| == |probes| && Grown(fates, fates', {SoftExit}) && Undecided(probes, fates', pending)
        invariant forall p :: p in early ==> p in all && p.gone
        invariant waited + left * interval >= escalation
        decreases left, |pending|
      {
        ghost var before := fates';
        pending, at, fates' := Sweep(pending, at, probes, fates', result);
        GrownMore(fates, before, fates', {SoftExit});
        Sizes(pending, at, probes, fates', result);
        SweepResolves(probes, fates, fates', pending, early);
        if |pending| == 0 {
          CrashedNobody(probes, fates, fates');
          GrownSoft(fates, fates');
          assert pending == [] && at == [];
          return;
        }
        Wait(probes, fates', |probes|, pending, at, result);
        ghost var late: int := *;
        ghost var later := if late > 0 then late else 0;
        var deadline: bool := *;
        if deadline || left == 0 {
          // Both timers are long over in the second case.
          waited := (if deadline && waited < escalation then escalation else waited) + later;
          before := fates';
          fates', crashed := CrashAll(pending, at, probes, fates', result);
          CrashedRest(probes, fates, before, fates', crashed);
          ResolvedMore(probes, fates, before, fates', early);
          return;
        }
        waited := waited + interval + later;
        left := left - 1;
      }
      Sizes(pending, at, probes, fates', result);
      SweepResolves(probes, fates, fates', pending, early);
      CrashedNobody(probes, fates, fates');
      GrownSoft(fates, fates');
      assert pending == [] && at == [];
    }

    lemma BeforeAwait(waiting: seq<AgentConn>, places: seq<nat>, probes: seq<AgentConn>, fates: Fates, result: RestartBroadcast)
      requires Watching(probes, fates, |probes|, waiting, places, result)
      ensures |places| == |waiting| && |fates| == |probes| && Undecided(probes, fates, waiting)
      ensures Grown(fates, fates, {SoftExit})
    {
      Sizes(waiting, places, probes, fates, result);
    }

    // Time passes, and other goroutines act.
    method Wait(ghost probes: seq<AgentConn>, ghost fates: Fates, ghost n: nat, ghost pending: seq<AgentConn>, ghost places: seq<nat>,
                ghost result: RestartBroadcast)
      requires Watching(probes, fates, n, pending, places, result)
      modifies this`agents, this`all, all
      ensures Watching(probes, fates, n, pending, places, result)
      ensures old(all) <= all && fresh(all - old(all))
      ensures forall c :: c in old(all) && old(c.gone) ==> c.gone
    {
      hide Count, Awaited, F.RestartModeFor, RestartBroadcast.Tallies;
      Elsewhere();
    }

    // One poll: the connections that are found gone are counted, the others stay, in order. Other goroutines
    // act between any two looks, so one that stays may be gone at the end, but was not when the poll began.
    method Sweep(pending: seq<AgentConn>, ghost places: seq<nat>, ghost probes: seq<AgentConn>, ghost fates: Fates,
                 result: RestartBroadcast)
      returns (remaining: seq<AgentConn>, ghost places': seq<nat>, ghost fates': Fates)
      requires Watching(probes, fates, |probes|, pending, places, result)
      modifies result, this`agents, this`all, all
      ensures Watching(probes, fates', |probes|, remaining, places', result)
      ensures old(all) <= all && fresh(all - old(all))
      ensures forall c :: c in old(all) && old(c.gone) ==> c.gone && c !in remaining
      ensures Grown(fates, fates', {SoftExit})
    {
      hide Watching, Grown;
      remaining, places', fates' := [], [], fates;
      Sizes(pending, places, probes, fates, result);
      GrownSame(fates, {SoftExit});
      assert [] + pending[0..] == pending && [] + places[0..] == places;
      for j := 0 to |pending|
        invariant |places'| == |remaining| && |places| == |pending|
        invariant Watching(probes, fates', |probes|, remaining + pending[j..], places' + places[j..], result)
        invariant Grown(fates, fates', {SoftExit}) && old(all) <= all && fresh(all - old(all))
        invariant forall c :: c in old(all) && old(c.gone) ==> c.gone && c !in remaining
      {
        Wait(probes, fates', |probes|, remaining + pending[j..], places' + places[j..], result);
        var p := pending[j];
        assert remaining + pending[j..] == remaining + [p] + pending[j + 1..];
        assert places' + places[j..] == places' + [places[j]] + places[j + 1..];
        if p.gone {
          ghost var before := fates';
          fates' := Settle(remaining, p, pending[j + 1..], places', places[j], places[j + 1..], probes, fates', result, SoftExit);
          GrownMore(fates, before, fates', {SoftExit});
        } else {
          remaining, places' := remaining + [p], places' + [places[j]];
        }
      }
      assert remaining + pending[|pending|..] == remaining && places' + places[|pending|..] == places';
    }

    // The awaited probes are exactly the undecided ones.
    lemma Sizes(pending: seq<AgentConn>, places: seq<nat>, probes: seq<AgentConn>, fates: Fates, result: RestartBroadcast)
      requires Watching(probes, fates, |probes|, pending, places, result)
      ensures |places| == |pending| && |fates| == |probes| && forall p :: p in probes ==> p in all
      ensures Undecided(probes, fates, pending)
    {
      AwaitedAll(probes, fates, pending, places);
    }

    // One probe that was waited for gets its fate.
    method Settle(ghost a: seq<AgentConn>, ghost p: AgentConn, ghost b: seq<AgentConn>, ghost pa: seq<nat>, ghost k: nat,
                  ghost pb: seq<nat>, ghost probes: seq<AgentConn>, ghost fates: Fates, result: RestartBroadcast, f: Fate)
      returns (ghost fates': Fates)
      requires |a| == |pa| && Watching(probes, fates, |probes|, a + [p] + b, pa + [k] + pb, result)
      requires f == Escalated || f == Unreachable || (f == SoftExit && p.gone)
      modifies result
      ensures Watching(probes, fates', |probes|, a + b, pa + pb, result)
      ensures Grown(fates, fates', {f})
      ensures k < |fates| == |probes| && fates[k] == None && p == probes[k] && fates' == fates[k := Some(f)]
    {
      hide Count, Awaited, F.RestartModeFor, RestartBroadcast.Tallies;
      AwaitedLess(probes, fates, |probes|, a, p, b, pa, k, pb, f);
      assert p in a + [p] + b;
      assert forall c :: c in a + b ==> c in a + [p] + b;
      result.Add(f, fates, k);
      fates' := fates[k := Some(f)];
    }

    // The deadline has passed: everyone still connected is crashed.
    method CrashAll(pending: seq<AgentConn>, ghost places: seq<nat>, ghost probes: seq<AgentConn>, ghost fates: Fates,
                    result: RestartBroadcast)
      returns (ghost fates': Fates, ghost crashed: seq<Request>)
      requires Watching(probes, fates, |probes|, pending, places, result) && DistinctIds(probes)
      modifies this, all, result
      ensures Watching(probes, fates', |probes|, [], [], result)
      ensures requests == old(requests) + crashed && Crashed(probes, fates, fates', crashed)
      ensures Grown(fates, fates', {Escalated, Unreachable})
    {
      hide *;
      fates', crashed := fates, [];
      BeforeCrashes(pending, places, probes, fates, result);
      for j := 0 to |pending|
        invariant |places| == |pending| && requests == old(requests) + crashed && Crashed(probes, fates, fates', crashed)
        invariant Watching(probes, fates', |probes|, pending[j..], places[j..], result)
        invariant Grown(fates, fates', {Escalated, Unreachable}) && old(all) <= all && fresh(all - old(all))
      {
        Wait(probes, fates', |probes|, pending[j..], places[j..], result);
        assert pending[j..] == [pending[j]] + pending[j + 1..];
        assert places[j..] == [places[j]] + places[j + 1..];
        ghost var ok;
        ghost var before := fates';
        fates', ok := CrashOne(pending[j], pending[j + 1..], places[j], places[j + 1..], probes, fates, fates', result);
        CrashedMore(probes, fates, before, crashed, places[j], ok);
        crashed := crashed + [Request(pending[j].agentID, CrashMsg, ok)];
      }
    }

    lemma BeforeCrashes(pending: seq<AgentConn>, places: seq<nat>, probes: seq<AgentConn>, fates: Fates, result: RestartBroadcast)
      requires Watching(probes, fates, |probes|, pending, places, result)
      ensures |places| == |pending| && pending[0..] == pending && places[0..] == places
      ensures Grown(fates, fates, {Escalated, Unreachable}) && Crashed(probes, fates, fates, [])
    {
      Sizes(pending, places, probes, fates, result);
    }

    method CrashOne(p: AgentConn, ghost rest: seq<AgentConn>, ghost k: nat, ghost ks: seq<nat>, ghost probes: seq<AgentConn>,
                    ghost first: Fates, ghost fates: Fates, result: RestartBroadcast)
      returns (ghost fates': Fates, ghost delivered: bool)
      requires Watching(probes, fates, |probes|, [p] + rest, [k] + ks, result) && Grown(first, fates, {Escalated, Unreachable})
      modifies all, result, this`requests
      ensures Watching(probes, fates', |probes|, rest, ks, result) && Grown(first, fates', {Escalated, Unreachable})
      ensures requests == old(requests) + [Request(p.agentID, CrashMsg, delivered)]
      ensures k < |fates| == |probes| && fates[k] == None && p == probes[k]
      ensures fates' == fates[k := Some(if delivered then Escalated else Unreachable)]
    {
      hide Watching, Grown;
      var ok := CrashWatched(p.agentID, probes, fates, [p] + rest, [k] + ks, result);
      delivered := ok;
      var f := if ok then Escalated else Unreachable;
      assert [] + [p] + rest == [p] + rest && [] + rest == rest && [] + [k] + ks == [k] + ks && [] + ks == ks;
      fates' := Settle([], p, rest, [], k, ks, probes, fates, result, f);
      GrownWider(fates, fates', f, {Escalated, Unreachable});
      GrownMore(first, fates, fates', {Escalated, Unreachable});
    }

    method CrashWatched(id: string, ghost probes: seq<AgentConn>, ghost fates: Fates, ghost pending: seq<AgentConn>,
                        ghost places: seq<nat>, ghost result: RestartBroadcast)
      returns (ok: bool)
      requires Watching(probes, fates, |probes|, pending, places, result)
      modifies all, this`requests
      ensures Watching(probes, fates, |probes|, pending, places, result)
      ensures requests == old(requests) + [Request(id, CrashMsg, ok)]
    {
      hide Count, Awaited, F.RestartModeFor, RestartBroadcast.Tallies;
      ok := SendCrash(id);
    }

    // The snapshot of the table.
    method Snapshot() returns (probes: seq<AgentConn>)
      requires Valid()
      ensures forall c :: c in agents.Values <==> c in probes
      ensures DistinctIds(probes)
      ensures forall c :: c in probes ==> c in all
    {
      probes := [];
      var rest := agents;
      while rest != map[]
        invariant rest.Keys <= agents.Keys && forall id :: id in rest ==> rest[id] == agents[id]
        invariant forall c :: c in probes <==> c in agents.Values && c.agentID !in rest
        invariant DistinctIds(probes)
        decreases |rest|
      {
        var id :| id in rest;
        assert agents[id] in agents.Values;
        probes := probes + [agents[id]];
        rest := rest - {id};
      }
    }
  }
}
