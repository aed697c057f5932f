// agent/cmd/agent/scheduler.go: ping workers per target and one traceroute worker for all of them.
// Times are nanoseconds on a monotone clock. Wherever the worker does not hold the mutex, other
// goroutines may re-sync the targets or stop the scheduler: method Elsewhere.
module Scheduler {
  import D = Detector

  const MIN_TRACE_COOLDOWN: int := 1_800_000_000_000 // 30 minutes
  const MAX_DURATION: int := 0x7FFF_FFFF_FFFF_FFFF

  type TargetId = string
  datatype TargetConfig = TargetConfig(id: TargetId, host: string, disableRoute: bool)

  // One traceroute, from the moment it starts to the moment its end is noted, when its report has been handed over.
  datatype Trace = Trace(id: TargetId, start: int, end: int)

  datatype First = Cancelled | Grace | FirstSync
  datatype Trigger = Done | Periodic | Synced | Shift(id: TargetId)

  // ----- What a log of traces may look like -----

  // Strictly serial, in the past.
  ghost predicate Serial(log: seq<Trace>, now: int) {
    && (forall i :: 0 <= i < |log| ==> log[i].start <= log[i].end <= now)
    && (forall i, j :: 0 <= i < j < |log| ==> log[i].end <= log[j].start)
  }

  // The cooldown of every target.
  ghost predicate Spaced(log: seq<Trace>) {
    forall i, j :: 0 <= i < j < |log| && log[i].id == log[j].id ==> log[i].end + MIN_TRACE_COOLDOWN <= log[j].start
  }

  // The table holds when the latest trace of every target ended.
  ghost predicate Remembered(log: seq<Trace>, last: map<TargetId, int>, now: int) {
    && (forall i :: 0 <= i < |log| ==> log[i].id in last && log[i].end <= last[log[i].id])
    && (forall id :: id in last ==> last[id] <= now && Ended(log, id, last[id]))
  }

  ghost predicate Ended(log: seq<Trace>, id: TargetId, end: int) {
    exists i :: 0 <= i < |log| && log[i].id == id && log[i].end == end
  }

  // The target has been traced less than 30 minutes before the given time, or since.
  ghost predicate Fresh(log: seq<Trace>, id: TargetId, since: int) {
    exists i :: 0 <= i < |log| && log[i].id == id && since - 1_800_000_000_000 < log[i].end
  }

  lemma StaysFresh(log: seq<Trace>, longer: seq<Trace>, id: TargetId, since: int)
    requires Fresh(log, id, since) && log <= longer
    ensures Fresh(longer, id, since)
  {
    var i :| 0 <= i < |log| && log[i].id == id && since - 1_800_000_000_000 < log[i].end;
    assert longer[i] == log[i];
  }

  // How many traces of a target start within a span.
  function Starts(log: seq<Trace>, id: TargetId, from: int, to: int): nat {
    if log == [] then 0
    else
      var t := log[|log| - 1];
      Starts(log[..|log| - 1], id, from, to) + if t.id == id && from <= t.start <= to then 1 else 0
  }

  // However many triggers there are, a span of time sees at most one trace of a target per 30 minutes,
  // and one more: k traces need a span of (k - 1) cooldowns.
  lemma {:induction false} TraceRate(log: seq<Trace>, now: int, id: TargetId, from: int, to: int)
    requires Serial(log, now) && Spaced(log) && from <= to
    ensures Starts(log, id, from, to) * 1_800_000_000_000 <= to - from + 1_800_000_000_000
  {
    if log != [] {
      var front, t := log[..|log| - 1], log[|log| - 1];
      assert log == front + [t];
      assert Serial(front, now) && Spaced(front);
      hide Serial, Spaced;
      if t.id == id && from <= t.start <= to {
        if t.start - MIN_TRACE_COOLDOWN < from {
          NoneWithin(front, now, t, id, from, to);
        } else {
          TraceRate(front, now, id, from, t.start - MIN_TRACE_COOLDOWN);
          Earlier(front, now, t, id, from, to);
        }
      } else {
        TraceRate(front, now, id, from, to);
      }
    }
  }

  // Before a trace at t, all of the same target started at least a cooldown earlier.
  lemma {:induction false} Earlier(front: seq<Trace>, now: int, t: Trace, id: TargetId, from: int, to: int)
    requires Serial(front + [t], now) && Spaced(front + [t]) && t.id == id
    ensures Starts(front, id, from, to) <= Starts(front, id, from, t.start - MIN_TRACE_COOLDOWN)
  {
    if front != [] {
      var f, u := front[..|front| - 1], front[|front| - 1];
      var log, shorter := front + [t], f + [t];
      assert forall i :: 0 <= i < |f| ==> shorter[i] == log[i];
      assert shorter[|f|] == log[|front|];
      assert log[|front| - 1] == u && log[|front|] == t;
      Earlier(f, now, t, id, from, to);
    }
  }

  lemma {:induction false} NoneWithin(front: seq<Trace>, now: int, t: Trace, id: TargetId, from: int, to: int)
    requires Serial(front + [t], now) && Spaced(front + [t]) && t.id == id
    requires t.start - MIN_TRACE_COOLDOWN < from
    ensures Starts(front, id, from, to) == 0
  {
    if front != [] {
      var f, u := front[..|front| - 1], front[|front| - 1];
      var log, shorter := front + [t], f + [t];
      assert forall i :: 0 <= i < |f| ==> shorter[i] == log[i];
      assert shorter[|f|] == log[|front|];
      assert log[|front| - 1] == u && log[|front|] == t;
      NoneWithin(f, now, t, id, from, to);
    }
  }

  // ----- The traceroute worker -----

  lemma AddedSpaced(log: seq<Trace>, last: map<TargetId, int>, t: Trace, now: int)
    requires Remembered(log, last, now)
    ensures Spaced(log) && (t.id in last ==> last[t.id] + MIN_TRACE_COOLDOWN <= t.start) ==> Spaced(log + [t])
  {
    hide Ended;
  }

  // Recording a trace that starts once the target is cool keeps everything.
  lemma Extend(log: seq<Trace>, last: map<TargetId, int>, t: Trace, now: int)
    requires Serial(log, t.start) && Remembered(log, last, now) && t.start <= t.end <= now
    ensures Serial(log + [t], now) && Remembered(log + [t], last[t.id := t.end], now)
    ensures Spaced(log) && (t.id in last ==> last[t.id] + MIN_TRACE_COOLDOWN <= t.start) ==> Spaced(log + [t])
  {
    var last' := last[t.id := t.end];
    AddedSpaced(log, last, t, now);
    hide Spaced;
    forall id | id in last' ensures Ended(log + [t], id, last'[id]) {
      if id == t.id {
        assert (log + [t])[|log|] == t;
      } else {
        var i :| 0 <= i < |log| && log[i].id == id && log[i].end == last[id];
        assert (log + [t])[i] == log[i];
      }
    }
  }

  // The configuration that counts for an id is its first.
  ghost predicate Traceable(targets: seq<TargetConfig>, id: TargetId) {
    exists i :: 0 <= i < |targets| && targets[i].id == id && !targets[i].disableRoute
      && forall j :: 0 <= j < i ==> targets[j].id != id
  }

  ghost predicate Enabled(targets: seq<TargetConfig>, id: TargetId) {
    exists i :: 0 <= i < |targets| && targets[i].id == id && !targets[i].disableRoute
  }

  // One turn of the worker: when it began, the targets then, how long the log was at its end, and whether
  // the scheduler had been stopped by then.
  datatype Turn = Turn(at: int, targets: seq<TargetConfig>, logged: nat, cancelled: bool)

  function Logged(turns: seq<Turn>, before: nat): nat {
    if turns == [] then before else turns[|turns| - 1].logged
  }

  // The traces from this one on are those of the turn, and only targets are traced that may be.
  ghost predicate InTurn(log: seq<Trace>, turn: Turn, from: nat) {
    && from <= |log|
    && (forall i :: 0 <= i < from ==> log[i].end <= turn.at)
    && (forall i :: from <= i < |log| ==> turn.at <= log[i].start && Enabled(turn.targets, log[i].id))
  }

  // A pass that is not cancelled leaves every target fresh that may be traced.
  ghost predicate PassServed(log: seq<Trace>, turn: Turn) {
    turn.cancelled || forall i :: 0 <= i < |turn.targets| && !turn.targets[i].disableRoute ==> Fresh(log, turn.targets[i].id, turn.at)
  }

  // A shift leaves its target fresh, if that may be traced, and traces nothing else.
  ghost predicate ShiftServed(log: seq<Trace>, turn: Turn, from: nat, id: TargetId) {
    && (Traceable(turn.targets, id) ==> Fresh(log, id, turn.at))
    && from <= |log| <= from + 1
    && (from < |log| ==> log[from].id == id && Traceable(turn.targets, id))
  }

  // The first turn is a pass, the others serve the triggers, in order.
  ghost predicate AllServed(log: seq<Trace>, turns: seq<Turn>, triggers: seq<Trigger>, before: nat) {
    |turns| <= |triggers| + 1 && forall k :: 0 <= k < |turns| ==> TurnServed(log, turns, triggers, before, k)
  }

  ghost predicate TurnServed(log: seq<Trace>, turns: seq<Turn>, triggers: seq<Trigger>, before: nat, k: nat)
    requires k < |turns| <= |triggers| + 1
  {
    var from, turn := Logged(turns[..k], before), turns[k];
    && turn.logged <= |log| && InTurn(log[..turn.logged], turn, from)
    && match (if k == 0 then Synced else triggers[k - 1])
       case Done => false
       case Periodic => PassServed(log[..turn.logged], turn)
       case Synced => PassServed(log[..turn.logged], turn)
       case Shift(id) => ShiftServed(log[..turn.logged], turn, from, id)
  }

  lemma TurnAdded(before: seq<Trace>, log: seq<Trace>, turns: seq<Turn>, triggers: seq<Trigger>, turn: Turn, start: nat)
    requires AllServed(before, turns, triggers, start) && before <= log && |before| == Logged(turns, start)
    requires |turns| <= |triggers| && turn.logged == |log| && InTurn(log, turn, |before|)
    requires match (if turns == [] then Synced else triggers[|turns| - 1])
             case Done => false
             case Periodic => PassServed(log, turn)
             case Synced => PassServed(log, turn)
             case Shift(id) => ShiftServed(log, turn, |before|, id)
    ensures AllServed(log, turns + [turn], triggers, start)
  {
    hide InTurn, PassServed, ShiftServed, Logged;
    var all := turns + [turn];
    assert log[..turn.logged] == log && all[..|turns|] == turns;
    forall k | 0 <= k < |all| ensures TurnServed(log, all, triggers, start, k) {
      if k < |turns| {
        assert TurnServed(before, turns, triggers, start, k);
        assert all[k] == turns[k] && all[..k] == turns[..k];
        assert log[..turns[k].logged] == before[..turns[k].logged];
      }
    }
  }

  class TargetScheduler {
    var now: int
    var cancelled: bool
    var targets: seq<TargetConfig>
    var lastTracedAt: map<TargetId, int>
    ghost var log: seq<Trace>

    ghost predicate Valid()
      reads this
    {
      Serial(log, now) && Remembered(log, lastTracedAt, now)
    }

    constructor (now: int)
      ensures Valid() && Spaced(log) && log == [] && lastTracedAt == map[] && targets == [] && !cancelled && this.now == now
    {
      this.now, cancelled, targets, lastTracedAt, log := now, false, [], map[], [];
    }

    // The clock runs; another goroutine may replace the targets or stop everything. Nobody but the worker
    // touches the times of the last traces, so no re-sync resets a cooldown.
    method Elsewhere()
      requires Valid()
      modifies this`now, this`cancelled, this`targets
      ensures Valid() && old(now) <= now && (old(cancelled) ==> cancelled)
    {
      var later: int := *;
      if later > now { now := later; }
      var resync: bool := *;
      if resync { targets := *; }
      var stop: bool := *;
      if stop { cancelled := true; }
    }

    lemma InTable(id: TargetId)
      requires Valid() && id in lastTracedAt
      ensures Ended(log, id, lastTracedAt[id])
    {
    }

    // time.Since: for a time never recorded it saturates.
    function Since(last: map<TargetId, int>, id: TargetId): int
      reads this`now
    {
      if id in last then now - last[id] else MAX_DURATION
    }

    // TraceTarget and SendTracerouteReport, then the new time in the table. The traceroute itself may take
    // any time, with anything happening meanwhile.
    method TraceNow(id: TargetId)
      requires Valid()
      modifies this
      ensures Valid() && old(now) <= now && (old(cancelled) ==> cancelled)
      ensures Spaced(old(log)) && (id in old(lastTracedAt) ==> old(lastTracedAt)[id] + MIN_TRACE_COOLDOWN <= old(now))
        ==> Spaced(log)
      ensures |log| == |old(log)| + 1 && old(log) <= log && log[|old(log)|].id == id && old(now) <= log[|old(log)|].start
      ensures old(now) <= log[|old(log)|].end
    {
      hide Serial, Spaced, Remembered;
      Elsewhere();
      var start := now;
      assert Serial(log, start);
      Elsewhere();
      ghost var t := Trace(id, start, now);
      Extend(log, lastTracedAt, t, now);
      lastTracedAt := lastTracedAt[id := now];
      log := log + [t];
    }

    // One shift-triggered trace, if the target is still configured for tracing and cool: afterwards a
    // traceable target has been traced now or less than a cooldown ago.
    method ExecuteSingleShiftTrace(targetID: TargetId)
      requires Valid()
      modifies this
      ensures Valid() && old(now) <= now && (old(cancelled) ==> cancelled)
      ensures Spaced(old(log)) ==> Spaced(log)
      ensures old(log) <= log && |log| <= |old(log)| + 1
      ensures log != old(log) ==>
        && log[|old(log)|].id == targetID && old(now) <= log[|old(log)|].start
        && Traceable(old(targets), targetID)
      ensures Traceable(old(targets), targetID) ==> Fresh(log, targetID, old(now))
    {
      hide Valid, Spaced;
      var target: seq<TargetConfig> := [];
      for i := 0 to |targets|
        invariant target == [] && forall j :: 0 <= j < i ==> targets[j].id != targetID
      {
        if targets[i].id == targetID {
          target := [targets[i]];
          break;
        }
      }
      assert Traceable(targets, targetID) <==> target != [] && !target[0].disableRoute;
      var last := lastTracedAt;
      Elsewhere();
      if target == [] || target[0].disableRoute { return; }
      if Since(last, targetID) < MIN_TRACE_COOLDOWN {
        InTable(targetID);
        return;
      }
      TraceNow(targetID);
    }

    // One pass over a snapshot of the targets. If it is not cancelled, then at its end every target that may
    // be traced has been, within the pass or less than a cooldown before it. Only force ignores cooldowns.
    method ExecuteSerialTraces(force: bool)
      requires Valid()
      modifies this
      ensures Valid() && old(now) <= now && (old(cancelled) ==> cancelled) && old(log) <= log
      ensures !force && Spaced(old(log)) ==> Spaced(log)
      ensures forall k :: |old(log)| <= k < |log| ==> Enabled(old(targets), log[k].id) && old(now) <= log[k].start
      ensures !cancelled ==> forall i :: 0 <= i < |old(targets)| && !old(targets)[i].disableRoute ==>
        Fresh(log, old(targets)[i].id, old(now))
    {
      hide Valid, Spaced;
      var targetsCopy := targets;
      Elsewhere();
      if |targetsCopy| == 0 { return; }
      for i := 0 to |targetsCopy|
        invariant Valid() && old(now) <= now && (old(cancelled) ==> cancelled) && old(log) <= log
        invariant !force && Spaced(old(log)) ==> Spaced(log)
        invariant forall k :: |old(log)| <= k < |log| ==> Enabled(targetsCopy, log[k].id) && old(now) <= log[k].start
        invariant forall k :: 0 <= k < i && !targetsCopy[k].disableRoute ==> Fresh(log, targetsCopy[k].id, old(now))
      {
        if cancelled { return; }
        var t := targetsCopy[i];
        if t.disableRoute { continue; }
        var last := lastTracedAt;
        Elsewhere();
        if !force && Since(last, t.id) < MIN_TRACE_COOLDOWN {
          InTable(t.id);
          continue;
        }
        ghost var before := log;
        TraceNow(t.id);
        forall k | 0 <= k < i && !targetsCopy[k].disableRoute ensures Fresh(log, targetsCopy[k].id, old(now)) {
          StaysFresh(before, log, targetsCopy[k].id, old(now));
        }
        Elsewhere();
        if cancelled { return; }
      }
    }

    method PassTurn() returns (ghost turn: Turn)
      requires Valid() && Spaced(log)
      modifies this
      ensures Valid() && Spaced(log) && old(log) <= log && turn.logged == |log|
      ensures InTurn(log, turn, |old(log)|) && PassServed(log, turn)
      ensures old(cancelled) || turn.cancelled ==> cancelled
    {
      hide Valid, Spaced, Fresh, Enabled;
      ghost var at, before := now, targets;
      NoLater();
      ExecuteSerialTraces(false);
      turn := Turn(at, before, |log|, cancelled);
    }

    lemma NoLater()
      requires Valid()
      ensures forall i :: 0 <= i < |log| ==> log[i].end <= now
    {
    }

    method ShiftTurn(id: TargetId) returns (ghost turn: Turn)
      requires Valid() && Spaced(log)
      modifies this
      ensures Valid() && Spaced(log) && old(log) <= log && turn.logged == |log|
      ensures InTurn(log, turn, |old(log)|) && ShiftServed(log, turn, |old(log)|, id)
      ensures old(cancelled) || turn.cancelled ==> cancelled
    {
      hide Valid, Spaced, Fresh;
      ghost var at, before := now, targets;
      NoLater();
      ExecuteSingleShiftTrace(id);
      turn := Turn(at, before, |log|, cancelled);
    }

    // The worker: a grace period, then one trigger after the other, whichever comes, any number of them.
    // No two traces overlap, and two traces of one target are a cooldown apart, from end to start. There is
    // one turn for the first pass and one for every trigger before the end, and all are served.
    method RunSerialTracerouteLoop(first: First, triggers: seq<Trigger>) returns (ghost turns: seq<Turn>)
      requires Valid() && Spaced(log)
      modifies this
      ensures Serial(log, now) && Spaced(log) && old(log) <= log && |log| == Logged(turns, |old(log)|)
      ensures turns == [] <==> first == Cancelled
      ensures first != Cancelled ==>
        && |turns| <= |triggers| + 1 && Done !in triggers[..|turns| - 1]
        && (|turns| - 1 < |triggers| ==> triggers[|turns| - 1] == Done)
      ensures AllServed(log, turns, triggers, |old(log)|)
      ensures forall k :: 0 <= k < |turns| && turns[k].cancelled ==> cancelled
    {
      turns := [];
      hide Serial, Remembered, Spaced, PassServed, ShiftServed, InTurn;
      Elsewhere();
      if first == Cancelled { return; }
      ghost var start := log;
      ghost var turn := PassTurn();
      TurnAdded(start, log, [], triggers, turn, |old(log)|);
      turns := [] + [turn];
      for i := 0 to |triggers|
        invariant Valid() && Spaced(log) && old(log) <= log
        invariant |turns| == i + 1 && Done !in triggers[..i] && |log| == Logged(turns, |old(log)|)
        invariant AllServed(log, turns, triggers, |old(log)|)
        invariant forall k :: 0 <= k < |turns| && turns[k].cancelled ==> cancelled
      {
        Elsewhere();
        ghost var before := log;
        match triggers[i] {
          case Done => return;
          case Periodic => turn := PassTurn();
          case Synced => turn := PassTurn();
          case Shift(id) => turn := ShiftTurn(id);
        }
        assert triggers[..i + 1] == triggers[..i] + [triggers[i]];
        TurnAdded(before, log, turns, triggers, turn, |old(log)|);
        turns := turns + [turn];
      }
    }
  }

  // ----- The ping workers -----

  // The goroutine that pings one target until its context is cancelled: its own, or the scheduler's.
  class Worker {
    var stopped: bool // its own

    constructor ()
      ensures !stopped
    {
      stopped := false;
    }
  }

  ghost predicate DistinctIds(targets: seq<TargetConfig>) {
    forall i, j :: 0 <= i < j < |targets| ==> targets[i].id != targets[j].id
  }

  // The other half of the scheduler's state: who pings, and who watches for shifts.
  class PingWorkers {
    var running: map<TargetId, Worker>
    var targets: seq<TargetConfig>
    var detectors: map<TargetId, D.LatencyShiftDetector>
    var traceTrigger: bool // the token of the trace worker's trigger channel
    var cancelled: bool
    ghost var started: set<Worker>

    ghost predicate Runs(w: Worker)
      reads this, w
    {
      !w.stopped && !cancelled
    }

    // Every worker that still runs can be stopped.
    ghost predicate Valid()
      reads this, started
    {
      running.Values <= started && forall w :: w in started && Runs(w) ==> w in running.Values
    }

    // The loop that cancels every context in the table.
    method StopAll()
      requires running.Values <= started
      modifies started
      ensures forall w :: w in started ==> w.stopped == (old(w.stopped) || w in running.Values)
    {
      var rest := running;
      while rest != map[]
        invariant rest.Keys <= running.Keys && forall id :: id in rest ==> rest[id] == running[id]
        invariant forall w :: w in started && w.stopped ==> old(w.stopped) || w in running.Values
        invariant forall w :: w in started && old(w.stopped) ==> w.stopped
        invariant forall id :: id in running && id !in rest ==> running[id].stopped
        decreases |rest|
      {
        var id :| id in rest;
        assert rest[id] in running.Values;
        rest[id].stopped := true;
        rest := rest - {id};
      }
    }

    // Stop ends every worker, also those that the table no longer reaches.
    method Stop()
      requires running.Values <= started
      modifies this, started
      ensures cancelled && running == map[] && Valid() && started == old(started)
      ensures forall w :: w in started ==> !Runs(w)
      ensures targets == old(targets) && detectors == old(detectors) && traceTrigger == old(traceTrigger)
    {
      cancelled := true;
      StopAll();
      running := map[];
    }

    // SyncTargets: the workers in the table stop and every target gets a new one; detectors outlive the
    // sync, and the trace worker is triggered. The table still reaches every running worker exactly when it
    // did and no two targets share an id, or the scheduler has been stopped.
    method SyncTargets(targets: seq<TargetConfig>)
      requires running.Values <= started
      modifies this, started
      ensures this.targets == targets && traceTrigger && cancelled == old(cancelled)
      ensures running.Keys == (set i | 0 <= i < |targets| :: targets[i].id)
      ensures running.Values <= started && forall w :: w in running.Values ==> fresh(w) && !w.stopped
      ensures forall w :: w in old(running.Values) ==> w.stopped
      ensures Valid() <==> cancelled || (old(Valid()) && DistinctIds(targets))
      ensures detectors.Keys == old(detectors.Keys) + running.Keys
      ensures forall id :: id in old(detectors) ==> detectors[id] == old(detectors)[id]
      ensures forall id :: id in detectors && id !in old(detectors) ==> detectors[id].requiredStreak == 30
    {
      StopAll();
      this.targets := targets;
      AddDetectors(targets);
      StartAll(targets);
      traceTrigger := true;
    }

    method AddDetectors(targets: seq<TargetConfig>)
      modifies this`detectors
      ensures detectors.Keys == old(detectors.Keys) + (set i | 0 <= i < |targets| :: targets[i].id)
      ensures forall id :: id in old(detectors) ==> detectors[id] == old(detectors)[id]
      ensures forall id :: id in detectors && id !in old(detectors) ==> detectors[id].requiredStreak == 30
    {
      for i := 0 to |targets|
        invariant detectors.Keys == old(detectors.Keys) + (set k | 0 <= k < i :: targets[k].id)
        invariant forall id :: id in old(detectors) ==> detectors[id] == old(detectors)[id]
        invariant forall id :: id in detectors && id !in old(detectors) ==> detectors[id].requiredStreak == 30
      {
        if targets[i].id !in detectors {
          var d := new D.LatencyShiftDetector(30);
          detectors := detectors[targets[i].id := d];
        }
      }
    }

    method StartAll(targets: seq<TargetConfig>)
      modifies this`running, this`started
      ensures running.Keys == (set i | 0 <= i < |targets| :: targets[i].id)
      ensures running.Values <= started && forall w :: w in running.Values ==> fresh(w) && !w.stopped
      ensures old(started) <= started
      ensures Valid() <==> cancelled || (DistinctIds(targets) && forall w :: w in old(started) ==> w.stopped)
    {
      running := map[];
      ghost var ws: seq<Worker> := [];
      hide HoldsLast;
      for i := 0 to |targets|
        invariant |ws| == i && started == old(started) + set w | w in ws
        invariant forall k :: 0 <= k < i ==> fresh(ws[k]) && !ws[k].stopped && ws[k] !in ws[..k]
        invariant Table(targets, ws, running)
      {
        var w := new Worker();
        TableAdd(targets, ws, running, w);
        running := running[targets[i].id := w];
        started := started + {w};
        ws := ws + [w];
      }
      TableReaches(targets, ws, running);
    }
  }

  // The table keeps the worker of the last target with an id.
  ghost predicate HoldsLast(targets: seq<TargetConfig>, ws: seq<Worker>, id: TargetId, w: Worker)
    requires |ws| <= |targets|
  {
    exists k :: 0 <= k < |ws| && targets[k].id == id && ws[k] == w && forall l :: k < l < |ws| ==> targets[l].id != id
  }

  ghost predicate Table(targets: seq<TargetConfig>, ws: seq<Worker>, running: map<TargetId, Worker>) {
    && |ws| <= |targets| && running.Keys == (set k | 0 <= k < |ws| :: targets[k].id)
    && forall id :: id in running ==> HoldsLast(targets, ws, id, running[id])
  }

  lemma TableAdd(targets: seq<TargetConfig>, ws: seq<Worker>, running: map<TargetId, Worker>, w: Worker)
    requires Table(targets, ws, running) && |ws| < |targets|
    ensures Table(targets, ws + [w], running[targets[|ws|].id := w])
  {
    var t, ws', next := targets[|ws|].id, ws + [w], running[targets[|ws|].id := w];
    forall id | id in next ensures HoldsLast(targets, ws', id, next[id]) {
      if id != t {
        var k :| 0 <= k < |ws| && targets[k].id == id && ws[k] == running[id]
          && forall l :: k < l < |ws| ==> targets[l].id != id;
        assert ws'[k] == ws[k];
      } else {
        assert ws'[|ws|] == w;
      }
    }
  }

  lemma TableReaches(targets: seq<TargetConfig>, ws: seq<Worker>, running: map<TargetId, Worker>)
    requires Table(targets, ws, running) && |ws| == |targets|
    requires forall k :: 0 <= k < |ws| ==> ws[k] !in ws[..k]
    ensures DistinctIds(targets) <==> forall w :: w in ws ==> w in running.Values
    ensures forall w :: w in running.Values ==> w in ws
  {
    forall i, j | 0 <= i < j < |ws| ensures ws[i] != ws[j] { assert ws[i] in ws[..j]; }
    if DistinctIds(targets) {
      forall w | w in ws ensures w in running.Values {
        var k :| 0 <= k < |ws| && ws[k] == w;
        assert targets[k].id in running;
      }
    } else {
      var i, j :| 0 <= i < j < |targets| && targets[i].id == targets[j].id;
      assert ws[i] in ws && ws[i] !in running.Values;
    }
  }
}
