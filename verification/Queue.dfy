// agent/internal/client/queue.go: ping reports that are sent at once while the probe is online and kept,
// oldest dropped first, while it is not. Whether a send succeeds is an input.
module Queue {
  const CAPACITY: nat := 500

  // ----- Where every report is -----

  // Reports are named by the order of their submission.
  datatype Where = Where(queued: seq<nat>, sent: seq<nat>, evicted: seq<nat>, next: nat)

  datatype Event = Submit(sent: bool) | Flush(oks: seq<bool>)

  // Flushing offers every queued report once, in order; a send that is not listed as working fails.
  predicate Works(oks: seq<bool>, i: nat) { i < |oks| && oks[i] }

  function Delivered(q: seq<nat>, oks: seq<bool>): seq<nat> {
    if q == [] then []
    else Delivered(q[..|q| - 1], oks) + if Works(oks, |q| - 1) then [q[|q| - 1]] else []
  }

  function Remaining(q: seq<nat>, oks: seq<bool>): seq<nat> {
    if q == [] then []
    else Remaining(q[..|q| - 1], oks) + if Works(oks, |q| - 1) then [] else [q[|q| - 1]]
  }

  function Step(w: Where, e: Event): Where {
    match e
    case Submit(true) => w.(sent := w.sent + [w.next], next := w.next + 1)
    case Submit(false) =>
      if |w.queued| >= CAPACITY then
        w.(queued := w.queued[1..] + [w.next], evicted := w.evicted + [w.queued[0]], next := w.next + 1)
      else
        w.(queued := w.queued + [w.next], next := w.next + 1)
    case Flush(oks) => w.(queued := Remaining(w.queued, oks), sent := w.sent + Delivered(w.queued, oks))
  }

  function Run(w: Where, events: seq<Event>): Where {
    if events == [] then w else Step(Run(w, events[..|events| - 1]), events[|events| - 1])
  }

  predicate Ascending(s: seq<nat>) {
    forall i, j :: 0 <= i < j < |s| ==> s[i] < s[j]
  }

  // Each report is in exactly one place, once; the queue is bounded and in submission order; what was
  // evicted is older than everything queued, and had 500 newer reports behind it.
  ghost predicate Conserved(w: Where) {
    (forall k: nat :: Places(w)[k] == if k < w.next then 1 else 0) && InOrder(w.queued, w.evicted, w.next)
  }

  ghost predicate InOrder(queued: seq<nat>, evicted: seq<nat>, next: nat) {
    && |queued| <= CAPACITY && Ascending(queued) && Ascending(evicted)
    && (forall i, j :: 0 <= i < |evicted| && 0 <= j < |queued| ==> evicted[i] < queued[j])
    && (forall i :: 0 <= i < |queued| ==> queued[i] < next)
    && (forall i :: 0 <= i < |evicted| ==> evicted[i] + CAPACITY < next)
  }

  ghost function Places(w: Where): multiset<nat> {
    multiset(w.queued) + multiset(w.sent) + multiset(w.evicted)
  }

  lemma {:induction false} FlushSplits(q: seq<nat>, oks: seq<bool>)
    ensures multiset(Delivered(q, oks)) + multiset(Remaining(q, oks)) == multiset(q)
    ensures |Remaining(q, oks)| <= |q|
  {
    if q != [] {
      var front, last := q[..|q| - 1], q[|q| - 1];
      FlushSplits(front, oks);
      assert q == front + [last];
    }
  }

  lemma {:induction false} RemainingAscends(q: seq<nat>, oks: seq<bool>)
    requires Ascending(q)
    ensures Ascending(Remaining(q, oks))
    ensures forall i :: 0 <= i < |Remaining(q, oks)| ==> Remaining(q, oks)[i] in q
  {
    if q != [] {
      var front, last := q[..|q| - 1], q[|q| - 1];
      RemainingAscends(front, oks);
      assert q == front + [last];
      assert forall x :: x in front ==> x < last;
    }
  }

  lemma {:induction false} DeliveredAscends(q: seq<nat>, oks: seq<bool>)
    requires Ascending(q)
    ensures Ascending(Delivered(q, oks))
    ensures forall i :: 0 <= i < |Delivered(q, oks)| ==> Delivered(q, oks)[i] in q
  {
    if q != [] {
      var front, last := q[..|q| - 1], q[|q| - 1];
      DeliveredAscends(front, oks);
      assert q == front + [last];
      assert forall x :: x in front ==> x < last;
    }
  }

  // What a flush delivers are exactly the reports whose sends work, in order, and the others remain, in order.
  lemma {:induction false} DeliveredExactly(q: seq<nat>, oks: seq<bool>)
    requires Ascending(q)
    ensures forall i :: 0 <= i < |q| ==> (q[i] !in Delivered(q, oks) <==> i >= |oks| || !oks[i])
  {
    if q != [] {
      var n := |q| - 1;
      DeliveredExactly(q[..n], oks);
      DeliveredAscends(q[..n], oks);
      var front := Delivered(q[..n], oks);
      assert q[n] !in front;
      hide Ascending;
      forall i | 0 <= i < n ensures q[i] !in Delivered(q, oks) <==> i >= |oks| || !oks[i] {
        assert q[i] == q[..n][i] && q[i] != q[n];
      }
    }
  }

  lemma {:induction false} RemainingExactly(q: seq<nat>, oks: seq<bool>)
    requires Ascending(q)
    ensures forall i :: 0 <= i < |q| ==> (q[i] in Remaining(q, oks) <==> i >= |oks| || !oks[i])
  {
    if q != [] {
      var n := |q| - 1;
      RemainingExactly(q[..n], oks);
      RemainingAscends(q[..n], oks);
      var front := Remaining(q[..n], oks);
      assert q[n] !in front;
      forall i | 0 <= i < n ensures q[i] in Remaining(q, oks) <==> i >= |oks| || !oks[i] {
        assert q[i] == q[..n][i] && q[i] != q[n];
      }
    }
  }

  // Spread-out numbers: the k-th of an ascending list is at least k above its first.
  lemma {:induction false} AscendingSpan(s: seq<nat>, k: nat)
    requires Ascending(s) && k < |s|
    ensures s[0] + k <= s[k]
  {
    if k > 0 { AscendingSpan(s, k - 1); }
  }

  lemma FlushOne(q: seq<nat>, i: nat, oks: seq<bool>)
    requires i < |q|
    ensures Delivered(q[..i + 1], oks) == if i < |oks| && oks[i] then Delivered(q[..i], oks) + [q[i]] else Delivered(q[..i], oks)
    ensures Remaining(q[..i + 1], oks) == if i < |oks| && oks[i] then Remaining(q[..i], oks) else Remaining(q[..i], oks) + [q[i]]
  {
    assert q[..i + 1][..i] == q[..i];
  }

  lemma FlushAll(q: seq<nat>, oks: seq<bool>)
    ensures q[..|q|] == q && Delivered(q[..0], oks) == Remaining(q[..0], oks) == []
    ensures q == [] ==> Delivered(q, oks) == Remaining(q, oks) == []
  {
  }

  lemma StepConserves(w: Where, e: Event)
    requires Conserved(w)
    ensures Conserved(Step(w, e))
  {
    match e
    case Submit(true) => SubmitSent(w);
    case Submit(false) => SubmitQueued(w);
    case Flush(ok) => FlushConserves(w, ok);
  }

  lemma SubmitSent(w: Where)
    requires Conserved(w)
    ensures Conserved(Step(w, Submit(true)))
  {
    assert Places(Step(w, Submit(true))) == Places(w) + multiset{w.next};
  }

  lemma SubmitQueued(w: Where)
    requires Conserved(w)
    ensures Conserved(Step(w, Submit(false)))
  {
    SubmitPlaces(w);
    hide Places, InOrder;
    if |w.queued| >= CAPACITY { EvictInOrder(w.queued, w.evicted, w.next); } else { AppendInOrder(w.queued, w.evicted, w.next); }
  }

  lemma AppendInOrder(queued: seq<nat>, evicted: seq<nat>, next: nat)
    requires InOrder(queued, evicted, next) && |queued| < CAPACITY
    ensures InOrder(queued + [next], evicted, next + 1)
  {
  }

  // The evicted head has the 499 others of the queue and the new report behind it.
  lemma EvictInOrder(queued: seq<nat>, evicted: seq<nat>, next: nat)
    requires InOrder(queued, evicted, next) && |queued| >= CAPACITY
    ensures InOrder(queued[1..] + [next], evicted + [queued[0]], next + 1)
  {
    AscendingSpan(queued, CAPACITY - 1);
    var q, e := queued[1..] + [next], evicted + [queued[0]];
    assert Ascending(q);
    assert Ascending(e) by { assert forall i :: 0 <= i < |evicted| ==> evicted[i] < queued[0]; }
    forall i, j | 0 <= i < |e| && 0 <= j < |q| ensures e[i] < q[j] {
      assert j < |q| - 1 ==> q[j] == queued[j + 1];
    }
  }

  lemma SubmitPlaces(w: Where)
    ensures Places(Step(w, Submit(false))) == Places(w) + multiset{w.next}
  {
    if |w.queued| >= CAPACITY {
      assert w.queued == [w.queued[0]] + w.queued[1..];
    }
  }

  lemma FlushConserves(w: Where, ok: seq<bool>)
    requires Conserved(w)
    ensures Conserved(Step(w, Flush(ok)))
  {
    hide Delivered, Remaining;
    FlushSplits(w.queued, ok);
    RemainingAscends(w.queued, ok);
    var v := Step(w, Flush(ok));
    assert Places(v) == Places(w);
  }

  // Over every run of submissions and flushes, with whatever sends failing.
  lemma {:induction false} RunConserves(w: Where, events: seq<Event>)
    requires Conserved(w)
    ensures Conserved(Run(w, events))
  {
    if events != [] {
      RunConserves(w, events[..|events| - 1]);
      StepConserves(Run(w, events[..|events| - 1]), events[|events| - 1]);
    }
  }

  // So a report is evicted only if 500 newer ones were submitted after it, and nothing that was sent is
  // ever evicted, queued again or sent again.
  lemma OneFate(events: seq<Event>, k: nat)
    ensures var w := Run(Where([], [], [], 0), events);
            && (k < w.next <==> k in w.queued || k in w.sent || k in w.evicted)
            && !(k in w.queued && k in w.sent) && !(k in w.queued && k in w.evicted) && !(k in w.sent && k in w.evicted)
            && (k in w.evicted ==> k + 500 < w.next) && |w.queued| <= 500
            && multiset(w.sent)[k] <= 1
  {
    var start := Where([], [], [], 0);
    assert Conserved(start);
    RunConserves(start, events);
    var w := Run(start, events);
    assert Places(w)[k] == if k < w.next then 1 else 0;
    hide *;
    assert k in w.queued <==> multiset(w.queued)[k] > 0;
    assert k in w.sent <==> multiset(w.sent)[k] > 0;
    assert k in w.evicted <==> multiset(w.evicted)[k] > 0;
  }

  // ----- The client -----

  datatype Report = Report(agentID: string, body: int)

  ghost predicate Placed(rs: seq<Report>, ks: seq<nat>, submitted: seq<Report>) {
    |rs| == |ks| && forall i :: 0 <= i < |rs| ==> ks[i] < |submitted| && rs[i].body == submitted[ks[i]].body
  }

  lemma PlacedAppend(rs: seq<Report>, ks: seq<nat>, submitted: seq<Report>, r: Report, k: nat)
    requires Placed(rs, ks, submitted) && k < |submitted| && r.body == submitted[k].body
    ensures Placed(rs + [r], ks + [k], submitted)
  {
  }

  lemma PlacedAt(rs: seq<Report>, ks: seq<nat>, submitted: seq<Report>, i: nat)
    requires Placed(rs, ks, submitted) && i < |rs|
    ensures |ks| == |rs| && ks[i] < |submitted| && rs[i].body == submitted[ks[i]].body
  {
  }

  lemma PlacedSize(rs: seq<Report>, ks: seq<nat>, submitted: seq<Report>)
    requires Placed(rs, ks, submitted)
    ensures |ks| == |rs| && Placed([], [], submitted)
  {
  }

  // One report of a flush: it moves to the wire or stays.
  lemma OfferStep(wire: seq<Report>, remaining: seq<Report>, from: Where, i: nat, oks: seq<bool>, submitted: seq<Report>, r: Report)
    requires i < |from.queued| && from.queued[i] < |submitted| && r.body == submitted[from.queued[i]].body
    requires Placed(remaining, Remaining(from.queued[..i], oks), submitted)
    requires Placed(wire, from.sent + Delivered(from.queued[..i], oks), submitted)
    ensures i < |oks| && oks[i] ==>
      && Placed(remaining, Remaining(from.queued[..i + 1], oks), submitted)
      && Placed(wire + [r], from.sent + Delivered(from.queued[..i + 1], oks), submitted)
    ensures !(i < |oks| && oks[i]) ==>
      && Placed(remaining + [r], Remaining(from.queued[..i + 1], oks), submitted)
      && Placed(wire, from.sent + Delivered(from.queued[..i + 1], oks), submitted)
  {
    hide *;
    FlushOne(from.queued, i, oks);
    if i < |oks| && oks[i] {
      PlacedAppend(wire, from.sent + Delivered(from.queued[..i], oks), submitted, r, from.queued[i]);
      Regroup(from.sent, Delivered(from.queued[..i], oks), from.queued[i]);
    } else {
      PlacedAppend(remaining, Remaining(from.queued[..i], oks), submitted, r, from.queued[i]);
    }
  }

  lemma Regroup(a: seq<nat>, b: seq<nat>, k: nat)
    ensures a + (b + [k]) == a + b + [k]
  {
  }

  lemma PlacedGrow(rs: seq<Report>, ks: seq<nat>, submitted: seq<Report>, r: Report)
    requires Placed(rs, ks, submitted)
    ensures Placed(rs, ks, submitted + [r])
    ensures rs != [] ==> Placed(rs[1..], ks[1..], submitted + [r])
    ensures |rs| == |ks|
  {
  }

  // Sent and kept by a flush, a report carries the id under which the probe is registered now.
  predicate Signed(rs: seq<Report>, agentID: string) {
    forall i :: 0 <= i < |rs| ==> rs[i].agentID == agentID
  }

  lemma SignedMore(a: seq<Report>, b: seq<Report>, r: Report)
    requires Signed(a, r.agentID) && Signed(b, r.agentID)
    ensures Signed(a + [r], r.agentID) && Signed(b + [r], r.agentID)
  {
  }

  class Client {
    var agentID: string
    var reportQueue: seq<Report>
    ghost var submitted: seq<Report>
    ghost var wire: seq<Report> // what was sent, in order
    ghost var at: Where

    // Queue and wire hold the submitted reports that the ledger places there, under some sender id.
    ghost predicate Valid()
      reads this
    {
      && Conserved(at) && at.next == |submitted|
      && Placed(reportQueue, at.queued, submitted) && Placed(wire, at.sent, submitted)
    }

    constructor (agentID: string)
      ensures Valid() && this.agentID == agentID && at == Where([], [], [], 0)
    {
      this.agentID, reportQueue, submitted, wire := agentID, [], [], [];
      at := Where([], [], [], 0);
    }

    // Online, the report carries the probe's id; if the send works that is all.
    method QueueReport(report: Report, online: bool, sendWorks: bool)
      requires Valid()
      modifies this
      ensures Valid() && submitted == old(submitted) + [report] && agentID == old(agentID)
      ensures at == Step(old(at), Submit(online && sendWorks))
      ensures online && sendWorks ==> reportQueue == old(reportQueue)
      ensures !(online && sendWorks) ==>
        reportQueue == (if |old(reportQueue)| >= CAPACITY then old(reportQueue)[1..] else old(reportQueue))
                     + [if online then report.(agentID := agentID) else report]
      ensures wire == if online && sendWorks then old(wire) + [report.(agentID := agentID)] else old(wire)
    {
      StepConserves(at, Submit(online && sendWorks));
      PlacedGrow(reportQueue, at.queued, submitted, report);
      PlacedGrow(wire, at.sent, submitted, report);
      hide Conserved, Placed;
      ghost var from, k := at, |submitted|;
      at := Step(at, Submit(online && sendWorks));
      submitted := submitted + [report];
      var r := report;
      if online {
        r := report.(agentID := agentID);
        if sendWorks {
          PlacedAppend(wire, from.sent, submitted, r, k);
          wire := wire + [r];
          return;
        }
      }
      if |reportQueue| >= 500 {
        reportQueue := reportQueue[1..];
      }
      PlacedAppend(reportQueue, if |from.queued| >= 500 then from.queued[1..] else from.queued, submitted, r, k);
      reportQueue := reportQueue + [r];
    }

    // Reconnected: every queued report is offered once, in order; the ones that fail stay, in order.
    method FlushQueuedReports(sendWorks: seq<bool>)
      requires Valid()
      modifies this
      ensures Valid() && submitted == old(submitted) && agentID == old(agentID)
      ensures at == Step(old(at), Flush(sendWorks))
      ensures old(wire) <= wire && Signed(wire[|old(wire)|..], agentID) && Signed(reportQueue, agentID)
    {
      StepConserves(at, Flush(sendWorks));
      hide Conserved, Delivered, Remaining, Placed;
      FlushAll(at.queued, sendWorks);
      if |reportQueue| == 0 {
        PlacedSize(reportQueue, at.queued, submitted);
        assert wire[|wire|..] == [];
        return;
      }
      ghost var before := wire;
      var remaining, sentNow := SendAll(at, sendWorks);
      assert wire[|before|..] == sentNow;
      reportQueue := remaining;
      at := Step(at, Flush(sendWorks));
    }

    // The loop over the queue.
    method SendAll(ghost from: Where, sendWorks: seq<bool>)
      returns (remaining: seq<Report>, ghost sentNow: seq<Report>)
      requires Placed(reportQueue, from.queued, submitted) && Placed(wire, from.sent, submitted)
      modifies this`wire
      ensures Placed(remaining, Remaining(from.queued, sendWorks), submitted)
      ensures Placed(wire, from.sent + Delivered(from.queued, sendWorks), submitted)
      ensures wire == old(wire) + sentNow && Signed(sentNow, agentID) && Signed(remaining, agentID)
    {
      remaining, sentNow := [], [];
      FlushAll(from.queued, sendWorks);
      PlacedSize(reportQueue, from.queued, submitted);
      assert from.sent + [] == from.sent && wire + [] == wire && Signed([], agentID);
      hide Delivered, Remaining, Works, Placed, Signed;
      for i := 0 to |reportQueue|
        invariant Placed(remaining, Remaining(from.queued[..i], sendWorks), submitted)
        invariant Placed(wire, from.sent + Delivered(from.queued[..i], sendWorks), submitted)
        invariant wire == old(wire) + sentNow && Signed(sentNow, agentID) && Signed(remaining, agentID)
      {
        PlacedAt(reportQueue, from.queued, submitted, i);
        var report := reportQueue[i].(agentID := agentID);
        OfferStep(wire, remaining, from, i, sendWorks, submitted, report);
        SignedMore(sentNow, remaining, report);
        if i < |sendWorks| && sendWorks[i] {
          assert wire + [report] == old(wire) + (sentNow + [report]);
          wire, sentNow := wire + [report], sentNow + [report];
        } else {
          remaining := remaining + [report];
        }
      }
    }
  }
}
