// agent/internal/traceroute/detector.go: telling a persistent route change from jitter.
module Detector {
  import opened Numbers
  import opened OrderStats

  const WARMUP: nat := 8
  const MAX_HISTORY: nat := 30

  datatype State = State(history: seq<real>, baseline: real, shift: seq<real>)

  // A sample far enough from the baseline median to be collected as a possible shift.
  predicate Candidate(history: seq<real>, rtt: real) {
    var base := Median(history);
    var jitter := Mad(history, base);
    var diff := Abs(rtt - base);
    || diff >= Max(40.0, jitter * 3.0)
    || (diff >= 25.0 && base > 0.0 && diff / base >= 0.45 && diff >= jitter * 2.5)
  }

  // The collected samples sit too close to the old baseline.
  predicate Spurious(history: seq<real>, shift: seq<real>) {
    var base := Median(history);
    var dist := Abs(Median(shift) - base);
    dist < 30.0 && (base == 0.0 || dist / base < 0.40)
  }

  // The collected samples agree with each other.
  predicate Stable(shift: seq<real>) {
    var median := Median(shift);
    var mad := Mad(shift, median);
    mad <= 25.0 || (median > 0.0 && mad / median <= 0.25)
  }

  function AddHistory(history: seq<real>, val: real): seq<real> {
    var h := history + [val];
    if |h| > MAX_HISTORY then h[|h| - MAX_HISTORY..] else h
  }

  // One call of Feed with streak length R: the new state and the verdict.
  function Step(R: nat, st: State, rtt: real): (State, bool)
    requires R > 0
  {
    if rtt <= 0.0 then (st, false)
    else if |st.history| < WARMUP then
      var h := st.history + [rtt];
      (State(h, Median(h), st.shift), false)
    else
      var base := Median(st.history);
      if !Candidate(st.history, rtt) then (State(AddHistory(st.history, rtt), base, []), false)
      else
        var shift := st.shift + [rtt];
        if |shift| < R then (State(st.history, base, shift), false)
        else if Spurious(st.history, shift) then (State(st.history, base, []), false)
        else if !Stable(shift) then (State(st.history, base, shift[1..]), false)
        else (State(shift, Median(shift), []), true)
  }

  class LatencyShiftDetector {
    var history: seq<real>
    var baseline: real
    var shiftSamples: seq<real>
    const requiredStreak: nat

    function St(): State
      reads this
    {
      State(history, baseline, shiftSamples)
    }

    constructor (requiredStreak: int)
      ensures this.requiredStreak == if requiredStreak <= 0 then 30 else requiredStreak
      ensures St() == State([], 0.0, [])
    {
      this.requiredStreak := if requiredStreak <= 0 then 30 else requiredStreak;
      history, baseline, shiftSamples := [], 0.0, [];
    }

    method AddToHistory(val: real)
      modifies this`history
      ensures history == AddHistory(old(history), val)
    {
      history := history + [val];
      if |history| > MAX_HISTORY { history := history[|history| - MAX_HISTORY..]; }
    }

    method Feed(rtt: real) returns (alarm: bool)
      requires requiredStreak > 0
      modifies this
      ensures (St(), alarm) == Step(requiredStreak, old(St()), rtt)
    {
      hide Median, Mad;
      if rtt <= 0.0 { return false; }
      if |history| < WARMUP {
        history := history + [rtt];
        baseline := CalcMedian(history);
        return false;
      }
      var baseMedian := CalcMedian(history);
      baseline := baseMedian;
      var baseJitter := CalcMad(history, baseMedian);
      var diff := Abs(rtt - baseMedian);
      var minDiffRequired := Max(40.0, baseJitter * 3.0);
      var isCandidateShift := diff >= minDiffRequired
        || (diff >= 25.0 && baseMedian > 0.0 && diff / baseMedian >= 0.45 && diff >= baseJitter * 2.5);
      if !isCandidateShift {
        if |shiftSamples| > 0 { shiftSamples := []; }
        AddToHistory(rtt);
        return false;
      }
      shiftSamples := shiftSamples + [rtt];
      if |shiftSamples| < requiredStreak { return false; }
      var newMedian := CalcMedian(shiftSamples);
      var newMAD := CalcMad(shiftSamples, newMedian);
      var shiftDist := Abs(newMedian - baseMedian);
      if shiftDist < 30.0 && (baseMedian == 0.0 || shiftDist / baseMedian < 0.40) {
        shiftSamples := [];
        return false;
      }
      var isStableNewRoute := newMAD <= 25.0 || (newMedian > 0.0 && newMAD / newMedian <= 0.25);
      if !isStableNewRoute {
        shiftSamples := shiftSamples[1..];
        return false;
      }
      history := shiftSamples;
      baseline := newMedian;
      shiftSamples := [];
      return true;
    }
  }

  // ---- runs ----

  // State after a run, and the number of alarms it raised.
  function Run(R: nat, st: State, xs: seq<real>): (State, nat)
    requires R > 0
  {
    if xs == [] then (st, 0)
    else
      var (before, n) := Run(R, st, xs[..|xs| - 1]);
      var (after, alarm) := Step(R, before, xs[|xs| - 1]);
      (after, if alarm then n + 1 else n)
  }

  const FRESH := State([], 0.0, [])

  // Only positive samples reach the detector's state.
  function Positive(xs: seq<real>): seq<real> {
    if xs == [] then []
    else Positive(xs[..|xs| - 1]) + if xs[|xs| - 1] > 0.0 then [xs[|xs| - 1]] else []
  }

  ghost predicate Suffix(s: seq<real>, t: seq<real>) {
    |s| <= |t| && s == t[|t| - |s|..]
  }

  // What holds between calls: the pending streak is incomplete, it is exactly the latest positive
  // samples, each still a candidate against the unchanged history, and the history is bounded.
  ghost predicate Inv(R: nat, st: State, fed: seq<real>) {
    && |st.shift| < R
    && Suffix(st.shift, fed)
    && (st.shift != [] ==> |st.history| >= WARMUP && forall i :: 0 <= i < |st.shift| ==> Candidate(st.history, st.shift[i]))
    && |st.history| <= MaxNat(R, MAX_HISTORY)
    && (forall i :: 0 <= i < |st.history| ==> st.history[i] > 0.0)
    && (forall i :: 0 <= i < |fed| ==> fed[i] > 0.0)
  }

  lemma SuffixStep(s: seq<real>, t: seq<real>, x: real)
    requires Suffix(s, t)
    ensures Suffix(s + [x], t + [x]) && Suffix((s + [x])[1..], t + [x]) && Suffix([], t) && Suffix([], t + [x])
  {
    var r, u := s + [x], t + [x];
    assert r == u[|u| - |r|..] && r[1..] == u[|u| - |r| + 1..];
  }

  lemma InvStep(R: nat, st: State, fed: seq<real>, rtt: real)
    requires R > 0 && Inv(R, st, fed)
    ensures Inv(R, Step(R, st, rtt).0, if rtt > 0.0 then fed + [rtt] else fed)
  {
    hide Candidate, Spurious, Stable, Median, Mad, Suffix;
    SuffixStep(st.shift, fed, rtt);
  }

  lemma {:induction false} InvRun(R: nat, xs: seq<real>)
    requires R > 0
    ensures Inv(R, Run(R, FRESH, xs).0, Positive(xs))
  {
    if xs != [] {
      InvRun(R, xs[..|xs| - 1]);
      InvStep(R, Run(R, FRESH, xs[..|xs| - 1]).0, Positive(xs[..|xs| - 1]), xs[|xs| - 1]);
    }
  }

  // s can be picked out of t, in order.
  predicate Picked(s: seq<real>, t: seq<real>) {
    || s == []
    || (t != [] && s[|s| - 1] == t[|t| - 1] && Picked(s[..|s| - 1], t[..|t| - 1]))
    || (t != [] && Picked(s, t[..|t| - 1]))
  }

  lemma PickedMore(s: seq<real>, t: seq<real>, x: real)
    requires Picked(s, t)
    ensures Picked(s, t + [x]) && Picked(s + [x], t + [x])
  {
    assert (t + [x])[..|t|] == t && (s + [x])[..|s|] == s;
  }

  // Leaving out a part keeps the rest picked.
  lemma {:induction false} PickedLess(a: seq<real>, b: seq<real>, c: seq<real>, t: seq<real>)
    requires Picked(a + b + c, t)
    ensures Picked(a + c, t)
    decreases |t|, |b|
  {
    var s := a + b + c;
    if s == [] || b == [] {
      assert a + c == s;
    } else {
      var s', t' := s[..|s| - 1], t[..|t| - 1];
      if c != [] {
        var c' := c[..|c| - 1];
        assert s' == a + b + c' && (a + c)[..|a + c| - 1] == a + c' && (a + c)[|a + c| - 1] == s[|s| - 1];
        if Picked(s, t') { PickedLess(a, b, c, t'); } else { PickedLess(a, b, c', t'); }
      } else {
        assert s' == a + b[..|b| - 1] + [] && a + c == a + [];
        if Picked(s, t') {
          PickedLess(a, b, c, t');
        } else {
          PickedLess(a, b[..|b| - 1], [], t');
        }
        PickedLonger(a + c, t);
      }
    }
  }

  lemma PickedLonger(s: seq<real>, t: seq<real>)
    requires t != [] && Picked(s, t[..|t| - 1])
    ensures Picked(s, t)
  {
  }

  lemma Without(s: seq<real>, i: nat, j: nat, r: seq<real>, t: seq<real>)
    requires Picked(s, t) && i <= j <= |s| && r == s[..i] + s[j..]
    ensures Picked(r, t)
  {
    hide Picked;
    assert s == s[..i] + s[i..j] + s[j..];
    PickedLess(s[..i], s[i..j], s[j..], t);
  }

  // Each state that a sample can lead to is picked.
  lemma PickedParts(h: seq<real>, shift: seq<real>, x: real, t: seq<real>)
    requires Picked(h + shift + [x], t)
    ensures Picked(h + (shift + [x]), t) && Picked(h, t) && Picked(shift + [x], t)
    ensures Picked(h + (shift + [x])[1..], t) && Picked(AddHistory(h, x), t)
  {
    hide Picked;
    var s, n, m := h + shift + [x], |h|, |h + shift|;
    assert h + (shift + [x]) == s;
    Without(s, n, m + 1, h, t);
    Without(s, 0, n, shift + [x], t);
    assert h + (shift + [x])[1..] == s[..n] + s[n + 1..];
    Without(s, n, n + 1, h + (shift + [x])[1..], t);
    assert h + [x] == s[..n] + s[m..];
    Without(s, n, m, h + [x], t);
    if |h + [x]| > MAX_HISTORY {
      var k := |h + [x]| - MAX_HISTORY;
      Without(h + [x], 0, k, (h + [x])[k..], t);
    }
  }

  lemma PickedStep(R: nat, st: State, fed: seq<real>, rtt: real)
    requires R > 0 && Picked(st.history + st.shift, fed) && (|st.history| < WARMUP ==> st.shift == [])
    ensures var next := Step(R, st, rtt).0;
            Picked(next.history + next.shift, if rtt > 0.0 then fed + [rtt] else fed)
  {
    hide Candidate, Spurious, Stable, Median, Mad, Picked, AddHistory;
    PickedMore(st.history + st.shift, fed, rtt);
    PickedParts(st.history, st.shift, rtt, fed + [rtt]);
    var next := Step(R, st, rtt).0;
    assert next.shift == [] ==> next.history + next.shift == next.history;
    assert st.shift == [] ==> st.history + (st.shift + [rtt]) == st.history + [rtt] + [];
  }

  // The history followed by the pending streak is picked, in order, from the positive samples.
  lemma {:induction false} HistoryPicked(R: nat, xs: seq<real>)
    requires R > 0
    ensures var st := Run(R, FRESH, xs).0; Picked(st.history + st.shift, Positive(xs))
  {
    if xs != [] {
      var before := xs[..|xs| - 1];
      HistoryPicked(R, before);
      InvRun(R, before);
      hide Step, Picked;
      PickedStep(R, Run(R, FRESH, before).0, Positive(before), xs[|xs| - 1]);
      assert Positive(before) + [] == Positive(before);
    }
  }

  // A sample that joins the history at once: during warm-up every positive one, later those that are not
  // collected as a possible shift.
  predicate Joins(st: State, x: real) { x <= 0.0 || |st.history| < 8 || !Candidate(st.history, x) }

  ghost predicate AllJoin(R: nat, st: State, xs: seq<real>)
    requires R > 0
  {
    forall i :: 0 <= i < |xs| ==> Joins(Run(R, st, xs[..i]).0, xs[i])
  }

  lemma FollowStep(R: nat, st: State, x: real)
    requires R > 0 && Joins(st, x) && (|st.history| < 8 ==> st.shift == [])
    ensures var (next, alarm) := Step(R, st, x);
            && !alarm
            && (x <= 0.0 ==> next.history == st.history && next.shift == st.shift)
            && (x > 0.0 ==> next.history == Latest(st.history + [x], 30) && next.shift == [])
  {
    hide Candidate, Spurious, Stable, Median;
    LatestMore(st.history, [], x);
  }

  // Such samples replace the oldest of the last 30.
  lemma {:induction false} HistoryFollows(R: nat, st: State, xs: seq<real>)
    requires R > 0 && AllJoin(R, st, xs) && (|st.history| < 8 ==> st.shift == [])
    ensures var next := Run(R, st, xs).0;
            if Positive(xs) == [] then next.history == st.history && next.shift == st.shift
            else next.history == Latest(st.history + Positive(xs), 30) && next.shift == []
    ensures Run(R, st, xs).1 == 0
  {
    hide Step, Joins, Latest;
    if xs != [] {
      var front, x := xs[..|xs| - 1], xs[|xs| - 1];
      forall i | 0 <= i < |front| ensures Joins(Run(R, st, front[..i]).0, front[i]) { assert front[..i] == xs[..i]; }
      HistoryFollows(R, st, front);
      assert Joins(Run(R, st, xs[..|xs| - 1]).0, x);
      FollowShort(st.history, Positive(front));
      FollowStep(R, Run(R, st, front).0, x);
      LatestMore(st.history, Positive(front), x);
      assert Positive(front) + [] == Positive(front);
    }
  }

  lemma FollowShort(h: seq<real>, p: seq<real>)
    ensures |Latest(h + p, 30)| < 8 ==> |h| < 8
  {
  }

  lemma LatestMore(h: seq<real>, p: seq<real>, x: real)
    ensures Latest((if p == [] then h else Latest(h + p, 30)) + [x], 30) == Latest(h + (p + [x]), 30)
    ensures |h| < 8 && p == [] ==> Latest(h + [x], 30) == h + [x]
    ensures forall g :: AddHistory(g, x) == Latest(g + [x], 30)
    ensures |Latest(h + p, 30)| < 8 ==> Latest(Latest(h + p, 30) + [x], 30) == Latest(h + p, 30) + [x]
  {
    assert h + (p + [x]) == h + p + [x];
    assert p == [] ==> h + p == h;
  }

  // In particular, after at least 30 positive samples in a row that joined, the history is the last 30 of them.
  lemma HistoryIsLatest(R: nat, before: seq<real>, xs: seq<real>)
    requires R > 0 && AllJoin(R, Run(R, FRESH, before).0, xs) && |Positive(xs)| >= 30
    ensures Run(R, FRESH, before + xs).0.history == Latest(Positive(before + xs), 30) == Latest(Positive(xs), 30)
  {
    hide Step, AllJoin;
    var st := Run(R, FRESH, before).0;
    InvRun(R, before);
    HistoryFollows(R, st, xs);
    RunConcat(R, FRESH, before, xs);
    PositiveConcat(before, xs);
    TailOnly(st.history, Positive(xs));
    TailOnly(Positive(before), Positive(xs));
  }

  lemma TailOnly(a: seq<real>, b: seq<real>)
    requires |b| >= 30
    ensures Latest(a + b, 30) == Latest(b, 30)
  {
  }

  lemma {:induction false} PositiveConcat(xs: seq<real>, ys: seq<real>)
    ensures Positive(xs + ys) == Positive(xs) + Positive(ys)
  {
    if ys == [] {
      assert xs + ys == xs;
    } else {
      PositiveConcat(xs, ys[..|ys| - 1]);
      assert (xs + ys)[..|xs + ys| - 1] == xs + ys[..|ys| - 1];
    }
  }

  // The thresholds: how far a sample has to be from the median m of a history with deviation j to be
  // collected, and a collected streak with median m and deviation d to be reported.
  lemma Thresholds(history: seq<real>, x: real, shift: seq<real>)
    ensures var m, j := Median(history), Mad(history, Median(history)); var diff := Abs(x - m);
            Candidate(history, x) <==>
              || (diff >= 40.0 && diff >= 3.0 * j)
              || (diff >= 25.0 && m > 0.0 && 100.0 * diff >= 45.0 * m && 2.0 * diff >= 5.0 * j)
    ensures var b, m := Median(history), Median(shift); var dist := Abs(m - b);
            b >= 0.0 ==> (Spurious(history, shift) <==> dist < 30.0 && (b == 0.0 || 10.0 * dist < 4.0 * b))
    ensures var m, d := Median(shift), Mad(shift, Median(shift));
            Stable(shift) <==> d <= 25.0 || (m > 0.0 && 4.0 * d <= m)
  {
    hide Median, Mad;
    var m, n, d := Median(history), Median(shift), Mad(shift, Median(shift));
    if m > 0.0 {
      Quotient(Abs(x - m), m, 0.45);
      Quotient(Abs(n - m), m, 0.40);
    }
    if n > 0.0 { Quotient(d, n, 0.25); }
  }

  lemma Quotient(a: real, b: real, c: real)
    requires b > 0.0
    ensures a / b >= c <==> a >= c * b
    ensures a / b <= c <==> a <= c * b
  {
    var q := a / b;
    assert q * b == a;
    assert (q - c) * b == q * b - c * b;
    if q >= c { assert (q - c) * b >= 0.0; } else { assert (q - c) * b < 0.0; }
    if q > c { assert (q - c) * b > 0.0; }
  }

  // What an alarm means in any run: the last R positive samples were all candidates against one and the
  // same history, their median is clear of the old baseline, at least half of them are within 25 ms or a
  // quarter of that median, and they become the new history.
  lemma AlarmMeaning(R: nat, xs: seq<real>, rtt: real)
    requires R > 0
    requires Step(R, Run(R, FRESH, xs).0, rtt).1
    ensures rtt > 0.0 && R <= |Positive(xs) + [rtt]|
    ensures Shifted(Run(R, FRESH, xs).0.history, Latest(Positive(xs) + [rtt], R))
    ensures Step(R, Run(R, FRESH, xs).0, rtt).0 ==
            State(Latest(Positive(xs) + [rtt], R), Median(Latest(Positive(xs) + [rtt], R)), [])
  {
    InvRun(R, xs);
    var st := Run(R, FRESH, xs).0;
    var fed := Positive(xs) + [rtt];
    AlarmStep(R, st, Positive(xs), rtt);
  }

  // The last n entries.
  function Latest(s: seq<real>, n: nat): seq<real> { if n <= |s| then s[|s| - n..] else s }

  ghost predicate Shifted(history: seq<real>, last: seq<real>) {
    && |history| >= WARMUP
    && (forall i :: 0 <= i < |last| ==> Candidate(history, last[i]))
    && !Spurious(history, last)
    && 2 * CountNear(last, Median(last), Max(25.0, Median(last) * 0.25)) >= |last|
  }

  lemma AlarmStep(R: nat, st: State, fed: seq<real>, rtt: real)
    requires R > 0 && Inv(R, st, fed) && Step(R, st, rtt).1
    ensures rtt > 0.0 && R <= |fed + [rtt]|
    ensures Shifted(st.history, Latest(fed + [rtt], R))
    ensures Step(R, st, rtt).0 == State(Latest(fed + [rtt], R), Median(Latest(fed + [rtt], R)), [])
  {
    hide Candidate, Spurious, Stable, Median, Mad, CountNear;
    var shift := st.shift + [rtt];
    assert Latest(fed + [rtt], R) == shift;
    StableBand(shift);
    MadMajority(shift, Median(shift), Max(25.0, Median(shift) * 0.25));
  }

  lemma StableBand(shift: seq<real>)
    requires Stable(shift)
    ensures Mad(shift, Median(shift)) <= Max(25.0, Median(shift) * 0.25)
  {
    hide Median, Mad;
    var m, d := Median(shift), Mad(shift, Median(shift));
    if d > 25.0 { BelowQuarter(d, m); }
  }

  lemma BelowQuarter(d: real, m: real)
    requires m > 0.0 && d / m <= 0.25
    ensures d <= m * 0.25
  {
    var q := d / m;
    assert q * m == d && (0.25 - q) * m >= 0.0;
    assert (0.25 - q) * m == 0.25 * m - q * m;
  }

  // ---- how often it can alarm ----

  function MinNat(a: nat, b: nat): nat { if a <= b then a else b }

  // The fewest positive samples that can raise k alarms.
  function Cost(R: nat, k: nat): nat {
    if k == 0 then 0 else WARMUP + R + (k - 1) * MaxNat(WARMUP, R)
  }

  // Samples already spent towards the next alarm: warm-up progress since the last one, and the pending streak.
  function Progress(R: nat, k: nat, st: State): nat {
    var warm := MinNat(WARMUP, |st.history|);
    (if k == 0 then warm else warm - MinNat(warm, MinNat(WARMUP, R))) + |st.shift|
  }

  lemma CostStep(R: nat, k: nat)
    requires R > 0
    ensures Cost(R, k + 1) == Cost(R, k) + if k == 0 then WARMUP + R else MaxNat(WARMUP, R)
  {
    if k > 0 { assert k * MaxNat(WARMUP, R) == (k - 1) * MaxNat(WARMUP, R) + MaxNat(WARMUP, R); }
  }

  lemma {:induction false} AlarmBudget(R: nat, xs: seq<real>)
    requires R > 0
    ensures var (st, k) := Run(R, FRESH, xs);
            && Cost(R, k) + Progress(R, k, st) <= |Positive(xs)|
            && (k > 0 ==> |st.history| >= MinNat(WARMUP, R))
  {
    hide Step, Cost, Progress;
    if xs == [] {
      BudgetStart(R);
    } else {
      var front, x := xs[..|xs| - 1], xs[|xs| - 1];
      AlarmBudget(R, front);
      InvRun(R, front);
      var (st, k) := Run(R, FRESH, front);
      BudgetStep(R, st, k, x, |Positive(front)|);
    }
  }

  lemma BudgetStart(R: nat)
    ensures Cost(R, 0) + Progress(R, 0, FRESH) == 0
  {
  }

  lemma BudgetStep(R: nat, st: State, k: nat, x: real, n: nat)
    requires R > 0 && |st.shift| < R && (st.shift != [] ==> |st.history| >= WARMUP)
    requires Cost(R, k) + Progress(R, k, st) <= n && (k > 0 ==> |st.history| >= MinNat(WARMUP, R))
    ensures var (after, alarm) := Step(R, st, x); var k' := if alarm then k + 1 else k;
            && Cost(R, k') + Progress(R, k', after) <= (if x > 0.0 then n + 1 else n)
            && (k' > 0 ==> |after.history| >= MinNat(WARMUP, R))
  {
    hide Candidate, Spurious, Stable, Median, Cost;
    CostStep(R, k);
  }

  lemma CostLinear(R: nat, k: nat)
    ensures k > 0 ==> WARMUP + k * R <= Cost(R, k)
  {
    if k > 0 {
      var w := MaxNat(WARMUP, R);
      assert k * R == (k - 1) * R + R;
      assert (k - 1) * w - (k - 1) * R == (k - 1) * (w - R);
    }
  }

  // k alarms take at least Cost(R, k) positive samples; with R >= 8 that is 8 + k*R.
  lemma AlarmRate(R: nat, xs: seq<real>)
    requires R > 0
    ensures Run(R, FRESH, xs).1 > 0 ==> 8 + Run(R, FRESH, xs).1 * R <= |Positive(xs)|
    ensures Cost(R, Run(R, FRESH, xs).1) <= |Positive(xs)|
  {
    hide Run, Progress, Positive;
    AlarmBudget(R, xs);
    CostLinear(R, Run(R, FRESH, xs).1);
  }

  // ---- a stable plateau is always detected ----

  // Samples that form a new plateau: all on one side of the baseline, clear of it, and close together.
  ghost predicate Plateau(history: seq<real>, xs: seq<real>) {
    var base := Median(history);
    && (forall i :: 0 <= i < |xs| ==> xs[i] > 0.0 && Abs(xs[i] - base) >= Max(40.0, 3.0 * Mad(history, base)))
    && (forall i, j :: 0 <= i < |xs| && 0 <= j < |xs| ==> (xs[i] > base <==> xs[j] > base))
    && (forall i, j :: 0 <= i < |xs| && 0 <= j < |xs| ==> xs[i] - xs[j] <= 25.0)
  }

  // While the streak is collected the history is frozen and nothing is reported.
  lemma {:induction false} Collecting(R: nat, st: State, xs: seq<real>)
    requires R > 0 && |st.history| >= WARMUP && st.shift == [] && |xs| < R
    requires forall i :: 0 <= i < |xs| ==> xs[i] > 0.0 && Candidate(st.history, xs[i])
    ensures Run(R, st, xs).1 == 0
    ensures Run(R, st, xs).0.history == st.history && Run(R, st, xs).0.shift == xs
  {
    hide Candidate, Spurious, Stable, Median;
    if xs != [] { Collecting(R, st, xs[..|xs| - 1]); }
  }

  lemma PlateauAccepted(history: seq<real>, xs: seq<real>)
    requires history != [] && xs != [] && Plateau(history, xs)
    ensures forall i :: 0 <= i < |xs| ==> Candidate(history, xs[i])
    ensures !Spurious(history, xs) && Stable(xs)
  {
    var base, m := Median(history), Median(xs);
    var lo, hi := Extremes(xs);
    MedianBounded(xs, xs[lo], xs[hi]);
    assert Abs(xs[lo] - base) >= 40.0 && Abs(xs[hi] - base) >= 40.0;
    assert Abs(m - base) >= 40.0;
    assert xs[hi] - xs[lo] <= 25.0;
    MadBounded(xs, m, 25.0);
  }

  lemma {:induction false} Extremes(xs: seq<real>) returns (lo: nat, hi: nat)
    requires xs != []
    ensures lo < |xs| && hi < |xs| && forall i :: 0 <= i < |xs| ==> xs[lo] <= xs[i] <= xs[hi]
  {
    lo, hi := 0, 0;
    if |xs| > 1 {
      lo, hi := Extremes(xs[..|xs| - 1]);
      if xs[|xs| - 1] < xs[lo] { lo := |xs| - 1; }
      if xs[|xs| - 1] > xs[hi] { hi := |xs| - 1; }
    }
  }

  // R candidates in a row, starting with no pending streak, raise an alarm exactly when they are clear of
  // the baseline and agree with each other, then at the last of them and not before.
  lemma StreakVerdict(R: nat, st: State, xs: seq<real>)
    requires R > 0 && |st.history| >= WARMUP && st.shift == [] && |xs| == R
    requires forall i :: 0 <= i < R ==> xs[i] > 0.0 && Candidate(st.history, xs[i])
    ensures forall j :: 0 <= j < R ==> Run(R, st, xs[..j]).1 == 0
    ensures Run(R, st, xs).1 == if !Spurious(st.history, xs) && Stable(xs) then 1 else 0
    ensures Run(R, st, xs).1 == 1 ==> Run(R, st, xs).0 == State(xs, Median(xs), [])
  {
    hide Candidate, Spurious, Stable, Median;
    forall j | 0 <= j < R ensures Run(R, st, xs[..j]).1 == 0 {
      Collecting(R, st, xs[..j]);
    }
    Collecting(R, st, xs[..R - 1]);
    assert xs[..R - 1] + [xs[R - 1]] == xs;
  }

  // From 8 samples of history and no pending streak, R plateau samples raise the alarm at the last of
  // them and not before, and become the new history.
  lemma PlateauDetected(R: nat, st: State, xs: seq<real>)
    requires R > 0 && |st.history| >= WARMUP && st.shift == [] && |xs| == R && Plateau(st.history, xs)
    ensures forall j :: 0 <= j < R ==> Run(R, st, xs[..j]).1 == 0
    ensures Run(R, st, xs) == (State(xs, Median(xs), []), 1)
  {
    hide Run, Candidate, Spurious, Stable, Median;
    PlateauAccepted(st.history, xs);
    StreakVerdict(R, st, xs);
  }

  // ---- jitter inside a band never alarms ----

  lemma {:induction false} QuietBand(R: nat, xs: seq<real>, lo: real)
    requires R > 0 && forall i :: 0 <= i < |xs| ==> xs[i] <= 0.0 || lo <= xs[i] < lo + 25.0
    ensures var (st, k) := Run(R, FRESH, xs);
            k == 0 && st.shift == [] && forall i :: 0 <= i < |st.history| ==> lo <= st.history[i] < lo + 25.0
  {
    hide Mad, Spurious, Stable, Median;
    if xs != [] {
      var x := xs[|xs| - 1];
      QuietBand(R, xs[..|xs| - 1], lo);
      var st := Run(R, FRESH, xs[..|xs| - 1]).0;
      if x > 0.0 && |st.history| >= WARMUP {
        var l, h := Extremes(st.history);
        MedianBounded(st.history, st.history[l], st.history[h]);
        assert Abs(x - Median(st.history)) < 25.0;
      }
    }
  }

  // The width of 25 ms is the limit: a jump from 50 ms to 75 ms that lasts is reported.
  lemma BandOf25Alarms(R: nat)
    requires R > 0
    ensures Run(R, FRESH, Constant(50.0, WARMUP) + Constant(75.0, R)).1 == 1
  {
    hide Step, Run, Median, Mad;
    var calm, jump := Constant(50.0, WARMUP), Constant(75.0, R);
    WarmUp(R, FRESH, 50.0, WARMUP);
    MedianBounded(calm, 50.0, 50.0);
    MadBounded(calm, 50.0, 0.0);
    MedianBounded(jump, 75.0, 75.0);
    MadBounded(jump, 75.0, 0.0);
    var ready := Run(R, FRESH, calm).0;
    assert ready.history == calm;
    StreakVerdict(R, ready, jump);
    RunConcat(R, FRESH, calm, jump);
  }

  // ---- the alarm-rate bound is reached ----

  lemma {:induction false} RunConcat(R: nat, st: State, xs: seq<real>, ys: seq<real>)
    requires R > 0
    ensures Run(R, st, xs + ys).0 == Run(R, Run(R, st, xs).0, ys).0
    ensures Run(R, st, xs + ys).1 == Run(R, st, xs).1 + Run(R, Run(R, st, xs).0, ys).1
  {
    hide Step;
    if ys == [] {
      assert xs + ys == xs;
    } else {
      RunConcat(R, st, xs, ys[..|ys| - 1]);
      assert (xs + ys)[..|xs + ys| - 1] == xs + ys[..|ys| - 1];
    }
  }

  function Constant(x: real, n: nat): seq<real> { seq(n, _ => x) }

  lemma {:induction false} WarmUp(R: nat, st: State, x: real, n: nat)
    requires R > 0 && x > 0.0 && (n == 0 || |st.history| + n <= WARMUP) && st.shift == []
    ensures Run(R, st, Constant(x, n)).1 == 0 && Run(R, st, Constant(x, n)).0.shift == []
    ensures Run(R, st, Constant(x, n)).0.history == st.history + Constant(x, n)
  {
    if n > 0 {
      assert Constant(x, n)[..n - 1] == Constant(x, n - 1);
      WarmUp(R, st, x, n - 1);
    }
  }

  function Level(k: nat): real { if k % 2 == 0 then 100.0 else 200.0 }

  // Alternating plateaus with no sample to spare.
  function Fastest(R: nat, k: nat): seq<real> {
    if k == 0 then Constant(Level(0), 0)
    else
      Fastest(R, k - 1)
      + Constant(Level(k - 1), if k == 1 then WARMUP else WARMUP - MinNat(WARMUP, R))
      + Constant(Level(k), R)
  }

  lemma FastestRound(R: nat, st: State, k: nat, warm: nat)
    requires R > 0 && k > 0 && st.shift == [] && st.history == Constant(Level(k - 1), |st.history|)
    requires warm == WARMUP - MinNat(WARMUP, |st.history|)
    ensures var xs := Constant(Level(k - 1), warm) + Constant(Level(k), R);
            Run(R, st, xs).1 == 1 && Run(R, st, xs).0.shift == [] && Run(R, st, xs).0.history == Constant(Level(k), R)
  {
    hide Step, Run, Median, Mad;
    var calm, jump := Constant(Level(k - 1), warm), Constant(Level(k), R);
    WarmUp(R, st, Level(k - 1), warm);
    var ready := Run(R, st, calm).0;
    forall i | 0 <= i < |ready.history| ensures ready.history[i] == Level(k - 1) {
      if i < |st.history| { assert st.history[i] == Constant(Level(k - 1), |st.history|)[i]; }
    }
    MedianBounded(ready.history, Level(k - 1), Level(k - 1));
    MadBounded(ready.history, Level(k - 1), 0.0);
    PlateauDetected(R, ready, jump);
    RunConcat(R, st, calm, jump);
  }

  lemma FastestStart(R: nat)
    requires R > 0
    ensures Fastest(R, 0) == [] && Cost(R, 0) == 0 && Run(R, FRESH, []) == (FRESH, 0)
  {
  }

  // For every streak length and every k some run raises k alarms from exactly Cost(R, k) positive
  // samples, so the bound of AlarmRate cannot be improved.
  lemma {:induction false} AlarmRateReached(R: nat, k: nat)
    requires R > 0
    ensures var xs := Fastest(R, k);
            && Run(R, FRESH, xs).1 == k && |xs| == Cost(R, k)
            && (forall i :: 0 <= i < |xs| ==> xs[i] > 0.0)
            && Run(R, FRESH, xs).0.shift == []
            && Run(R, FRESH, xs).0.history == Constant(Level(k), if k == 0 then 0 else R)
  {
    hide Step, Run, Median, Mad, Cost;
    if k == 0 {
      FastestStart(R);
    } else {
      AlarmRateReached(R, k - 1);
      CostStep(R, k - 1);
      var warm := if k == 1 then WARMUP else WARMUP - MinNat(WARMUP, R);
      var before := Fastest(R, k - 1);
      var round := Constant(Level(k - 1), warm) + Constant(Level(k), R);
      assert Fastest(R, k) == before + round;
      FastestRound(R, Run(R, FRESH, before).0, k, warm);
      RunConcat(R, FRESH, before, round);
    }
  }
}
