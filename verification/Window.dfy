// agent/internal/pinger/single.go and pinger.go: the sliding window of ping samples and its summary.
// float64 is taken over the reals, and the square root is a function given to the window.
module Window {
  import opened Numbers

  function Pow2(n: nat): (p: int)
    ensures p >= 1
  {
    if n == 0 then 1 else 2 * Pow2(n - 1)
  }

  // math.MaxFloat64
  function MaxFloat64(): (m: real)
    ensures m > 0.0
  {
    assert Pow2(971) * Pow2(53) >= Pow2(53) && Pow2(53) >= 2 by { assert Pow2(53) == 2 * Pow2(52); Scale(Pow2(971), Pow2(53)); }
    ((Pow2(53) - 1) * Pow2(971)) as real
  }

  lemma Scale(a: int, b: int)
    requires a >= 1 && b >= 1
    ensures a * b >= b
  {
  }

  // A successful ping's round trip in milliseconds: a finite, non-negative float.
  type Rtt = r: real | 0.0 <= r <= MaxFloat64() ghost witness 0.0

  datatype SinglePingStat = SinglePingStat(timestamp: int, success: bool, rtt: Rtt, errorMsg: string)

  datatype WindowSummary = WindowSummary(
    totalSent: nat, totalRecv: nat, lossPct: real, minRTT: real, maxRTT: real, avgRTT: real,
    jitter: real, stdDev: real, latestRTT: real, latestError: string)

  // ----- Rounding to two decimals -----

  // math.Round: to the nearest integer, halves away from zero.
  function Nearest(x: real): real {
    if x >= 0.0 then (x + 0.5).Floor as real else -((0.5 - x).Floor as real)
  }

  function Round(x: real): real { Nearest(x * 100.0) / 100.0 }

  // A real number's floor is the one integer at most the number and less than one below it.
  lemma FloorIs(x: real, k: int)
    requires k as real <= x < k as real + 1.0
    ensures x.Floor == k
  {
  }

  lemma FloorMonotone(x: real, y: real)
    requires x <= y
    ensures x.Floor <= y.Floor
  {
  }

  lemma RoundMonotone(x: real, y: real)
    requires x <= y
    ensures Round(x) <= Round(y)
  {
    var a, b := x * 100.0, y * 100.0;
    if a >= 0.0 {
      FloorMonotone(a + 0.5, b + 0.5);
    } else if b < 0.0 {
      FloorMonotone(0.5 - b, 0.5 - a);
    } else {
      FloorMonotone(0.5, b + 0.5);
      FloorMonotone(0.5, 0.5 - a);
      FloorIs(0.5, 0);
    }
  }

  // Rounding moves a value by at most half a hundredth, leaves hundredths alone, and mirrors the sign.
  lemma RoundNear(x: real)
    ensures -0.005 <= Round(x) - x <= 0.005
    ensures Round(Round(x)) == Round(x)
    ensures Round(-x) == -Round(x)
    ensures x >= 0.0 ==> Round(x) > x - 0.005
  {
    var a := x * 100.0;
    NearestNear(a);
    assert Round(x) * 100.0 == Nearest(a);
    assert (-x) * 100.0 == -a;
  }

  lemma NearestNear(a: real)
    ensures -0.5 <= Nearest(a) - a <= 0.5
    ensures Nearest(Nearest(a)) == Nearest(a)
    ensures Nearest(-a) == -Nearest(a)
    ensures a >= 0.0 ==> Nearest(a) > a - 0.5
  {
    if a >= 0.0 {
      var k := (a + 0.5).Floor;
      assert k as real <= a + 0.5 < k as real + 1.0;
      FloorIs(k as real + 0.5, k);
      if a == 0.0 { FloorIs(0.5, 0); }
    } else {
      var k := (0.5 - a).Floor;
      assert k as real <= 0.5 - a < k as real + 1.0;
      FloorIs(k as real + 0.5, k);
      if k == 0 { FloorIs(0.5, 0); }
    }
  }

  // ----- What a window of samples means -----

  function Rtts(h: seq<SinglePingStat>): (s: seq<real>)
    ensures |s| <= |h|
    ensures forall x :: x in s ==> 0.0 <= x <= MaxFloat64()
  {
    if h == [] then [] else
      var last := h[|h| - 1];
      Rtts(h[..|h| - 1]) + if last.success then [last.rtt] else []
  }

  function LastError(h: seq<SinglePingStat>): string {
    if h == [] then "" else
      var last := h[|h| - 1];
      if !last.success && last.errorMsg != "" then last.errorMsg else LastError(h[..|h| - 1])
  }

  function Sum(s: seq<real>): real {
    if s == [] then 0.0 else Sum(s[..|s| - 1]) + s[|s| - 1]
  }

  function Least(s: seq<real>): (m: real)
    requires s != []
    ensures m in s && forall x :: x in s ==> m <= x
  {
    var last := s[|s| - 1];
    if |s| == 1 then last else
      var m := Least(s[..|s| - 1]);
      assert s == s[..|s| - 1] + [last];
      if last < m then last else m
  }

  function Greatest(s: seq<real>): (m: real)
    requires s != []
    ensures m in s && forall x :: x in s ==> x <= m
  {
    var last := s[|s| - 1];
    if |s| == 1 then last else
      var m := Greatest(s[..|s| - 1]);
      assert s == s[..|s| - 1] + [last];
      if last > m then last else m
  }

  // Interarrival jitter, section 6.4.1 of RFC 3550: a running mean of the steps with gain 1/16.
  function Jitter(s: seq<real>): real {
    if |s| < 2 then 0.0 else
      var j := Jitter(s[..|s| - 1]);
      j + (Abs(s[|s| - 1] - s[|s| - 2]) - j) / 16.0
  }

  // Squared distances from a.
  function Spread(s: seq<real>, a: real): real {
    if s == [] then 0.0 else Spread(s[..|s| - 1], a) + Square(s[|s| - 1] - a)
  }

  function Square(d: real): real { d * d }

  function Mean(s: seq<real>): real
    requires s != []
  {
    Sum(s) / |s| as real
  }

  function Variance(s: seq<real>): real
    requires s != []
  {
    Spread(s, Mean(s)) / |s| as real
  }

  function Summarize(h: seq<SinglePingStat>, sqrt: real -> real): WindowSummary {
    if h == [] then WindowSummary(0, 0, 0.0, 0.0, 0.0, 0.0, 0.0, 0.0, 0.0, "")
    else
      var s := Rtts(h);
      if s == [] then
        WindowSummary(|h|, 0, 100.0, 0.0, 0.0, 0.0, 0.0, 0.0, 0.0,
                      if LastError(h) == "" then "All packets timed out" else LastError(h))
      else
        WindowSummary(
          |h|, |s|, Round((|h| - |s|) as real / |h| as real * 100.0), Round(Least(s)), Round(Greatest(s)),
          Round(Mean(s)), Round(Jitter(s)), Round(sqrt(Variance(s))), Round(s[|s| - 1]), LastError(h))
  }

  // ----- The window -----

  function Last<T>(s: seq<T>, n: nat): seq<T> {
    if |s| <= n then s else s[|s| - n..]
  }

  lemma LastIsSuffix<T>(s: seq<T>, n: nat)
    ensures exists front: seq<T> :: s == front + Last(s, n)
    ensures |Last(s, n)| == if |s| < n then |s| else n
  {
    assert s == s[..|s| - |Last(s, n)|] + Last(s, n);
  }

  class TargetWindow {
    var history: seq<SinglePingStat>
    const maxKeep: nat
    ghost var fed: seq<SinglePingStat> // every sample ever added

    ghost predicate Valid()
      reads this
    {
      maxKeep > 0 && history == Last(fed, maxKeep)
    }

    constructor (maxKeep: int)
      ensures Valid() && fed == [] && this.maxKeep == if maxKeep <= 0 then 20 else maxKeep
    {
      this.maxKeep := if maxKeep <= 0 then 20 else maxKeep;
      history, fed := [], [];
    }

    method Add(stat: SinglePingStat)
      requires Valid()
      modifies this
      ensures Valid() && fed == old(fed) + [stat]
    {
      history := history + [stat];
      if |history| > maxKeep {
        history := history[|history| - maxKeep..];
      }
      fed := fed + [stat];
    }

    method Summary(sqrt: real -> real) returns (r: WindowSummary)
      requires Valid()
      ensures r == Summarize(Last(fed, maxKeep), sqrt)
    {
      r := SummaryOf(history, sqrt);
    }
  }

  // What one more sample does to the running figures.
  lemma OneMore(s: seq<real>, x: real)
    requires 0.0 <= x <= MaxFloat64() && forall y :: y in s ==> 0.0 <= y <= MaxFloat64()
    ensures Sum(s + [x]) == Sum(s) + x
    ensures LeastOrMax(s + [x]) == if x < LeastOrMax(s) then x else LeastOrMax(s)
    ensures GreatestOrZero(s + [x]) == if x > GreatestOrZero(s) then x else GreatestOrZero(s)
  {
    assert (s + [x])[..|s|] == s;
  }

  function LeastOrMax(s: seq<real>): real { if s == [] then MaxFloat64() else Least(s) }

  function GreatestOrZero(s: seq<real>): real { if s == [] then 0.0 else Greatest(s) }

  // The loop over the window.
  method Tally(history: seq<SinglePingStat>)
    returns (rtts: seq<real>, sumRTT: real, minRTT: real, maxRTT: real, lastErr: string)
    ensures rtts == Rtts(history) && sumRTT == Sum(rtts) && lastErr == LastError(history)
    ensures minRTT == LeastOrMax(rtts) && maxRTT == GreatestOrZero(rtts)
  {
    rtts, sumRTT, minRTT, maxRTT, lastErr := [], 0.0, MaxFloat64(), 0.0, "";
    assert minRTT == LeastOrMax(rtts) && maxRTT == GreatestOrZero(rtts) && sumRTT == Sum(rtts);
    hide MaxFloat64, Sum, LeastOrMax, GreatestOrZero;
    for i := 0 to |history|
      invariant rtts == Rtts(history[..i]) && lastErr == LastError(history[..i])
      invariant sumRTT == Sum(rtts) && minRTT == LeastOrMax(rtts) && maxRTT == GreatestOrZero(rtts)
    {
      var s := history[i];
      assert history[..i + 1][..i] == history[..i];
      if s.success {
        OneMore(rtts, s.rtt);
        rtts := rtts + [s.rtt];
        sumRTT := sumRTT + s.rtt;
        if s.rtt < minRTT { minRTT := s.rtt; }
        if s.rtt > maxRTT { maxRTT := s.rtt; }
      } else if s.errorMsg != "" {
        lastErr := s.errorMsg;
      }
    }
    assert history[..|history|] == history;
  }

  // The second loop, over the received samples.
  method VarianceSum(rtts: seq<real>, avg: real) returns (varianceSum: real)
    ensures varianceSum == Spread(rtts, avg)
  {
    varianceSum := 0.0;
    for i := 0 to |rtts|
      invariant varianceSum == Spread(rtts[..i], avg)
    {
      assert rtts[..i + 1][..i] == rtts[..i];
      var d := rtts[i] - avg;
      varianceSum := varianceSum + d * d;
    }
    assert rtts[..|rtts|] == rtts;
  }

  method SummaryOf(history: seq<SinglePingStat>, sqrt: real -> real) returns (r: WindowSummary)
    ensures r == Summarize(history, sqrt)
  {
    hide MaxFloat64, Round, Jitter, Spread, Rtts, LastError, Least, Greatest, Sum;
    var total := |history|;
    if total == 0 { return WindowSummary(0, 0, 0.0, 0.0, 0.0, 0.0, 0.0, 0.0, 0.0, ""); }
    var rtts, sumRTT, minRTT, maxRTT, lastErr := Tally(history);
    var recv := |rtts|;
    if recv == 0 {
      return WindowSummary(total, 0, 100.0, 0.0, 0.0, 0.0, 0.0, 0.0, 0.0,
                           if lastErr == "" then "All packets timed out" else lastErr);
    }
    var avg := sumRTT / recv as real;
    var varianceSum := VarianceSum(rtts, avg);
    var jitter := CalculateRFC3550Jitter(rtts);
    return WindowSummary(total, recv, Round((total - recv) as real / total as real * 100.0), Round(minRTT), Round(maxRTT),
                         Round(avg), jitter, Round(sqrt(varianceSum / recv as real)), Round(rtts[recv - 1]), lastErr);
  }

  method CalculateRFC3550Jitter(rtts: seq<real>) returns (r: real)
    ensures r == Round(Jitter(rtts))
  {
    hide MaxFloat64, Round;
    if |rtts| < 2 {
      RoundZero();
      return 0.0;
    }
    var jitter := 0.0;
    var i := 1;
    while i < |rtts|
      invariant 1 <= i <= |rtts| && jitter == Jitter(rtts[..i])
    {
      assert rtts[..i + 1][..i] == rtts[..i];
      var d := Abs(rtts[i] - rtts[i - 1]);
      jitter := jitter + (d - jitter) / 16.0;
      i := i + 1;
    }
    assert rtts[..i] == rtts;
    return Round(jitter);
  }

  lemma RoundZero()
    ensures Round(0.0) == 0.0
  {
  }

  // ----- What the numbers promise -----

  lemma {:induction false} SumBetween(s: seq<real>, lo: real, hi: real)
    requires forall i :: 0 <= i < |s| ==> lo <= s[i] <= hi
    ensures lo * |s| as real <= Sum(s) <= hi * |s| as real
  {
    if s != [] {
      var n := |s| as real - 1.0;
      SumBetween(s[..|s| - 1], lo, hi);
      assert lo * |s| as real == lo * n + lo;
      assert hi * |s| as real == hi * n + hi;
    }
  }

  lemma MeanBetween(s: seq<real>)
    requires s != []
    ensures Least(s) <= Mean(s) <= Greatest(s)
  {
    var n := |s| as real;
    forall i | 0 <= i < |s| ensures Least(s) <= s[i] <= Greatest(s) { assert s[i] in s; }
    SumBetween(s, Least(s), Greatest(s));
    hide *;
    Quotient(Sum(s), n, Least(s), Greatest(s));
  }

  lemma Scaled(a: real, b: real, n: real)
    requires n > 0.0
    ensures a < b <==> a * n < b * n
  {
    assert (b - a) * n == b * n - a * n;
  }

  lemma Quotient(sum: real, n: real, lo: real, hi: real)
    requires n > 0.0 && lo * n <= sum <= hi * n
    ensures lo <= sum / n <= hi
  {
    var q := sum / n;
    assert q * n == sum;
    Scaled(q, lo, n);
    Scaled(hi, q, n);
  }

  // Each step is at most the range of the window, and the mean of numbers up to a bound stays below it.
  lemma {:induction false} JitterWithinRange(s: seq<real>)
    requires s != []
    ensures 0.0 <= Jitter(s) <= Greatest(s) - Least(s)
  {
    if |s| > 1 {
      var front := s[..|s| - 1];
      JitterWithinRange(front);
      assert s == front + [s[|s| - 1]];
      assert s[|s| - 2] in front;
      assert Least(s) <= Least(front) && Greatest(front) <= Greatest(s);
    }
  }

  function Power(r: real, n: nat): real {
    if n == 0 then 1.0 else r * Power(r, n - 1)
  }

  // The steps, each weighted with 1/16 and with 15/16 for every later step.
  function WeightedSteps(s: seq<real>): real {
    if |s| < 2 then 0.0 else Abs(s[1] - s[0]) / 16.0 * Power(15.0 / 16.0, |s| - 2) + WeightedSteps(s[1..])
  }

  lemma {:induction false} WeightedMore(s: seq<real>, x: real)
    requires s != []
    ensures WeightedSteps(s + [x]) == WeightedSteps(s) * 15.0 / 16.0 + Abs(x - s[|s| - 1]) / 16.0
  {
    if |s| == 1 {
      assert (s + [x])[1..] == [x];
      assert Power(15.0 / 16.0, 0) == 1.0;
    } else {
      WeightedMore(s[1..], x);
      assert (s + [x])[1..] == s[1..] + [x];
      assert s[1..][|s| - 2] == s[|s| - 1];
      Fade(Abs(s[1] - s[0]) / 16.0, Power(15.0 / 16.0, |s| - 2), WeightedSteps(s[1..]), Abs(x - s[|s| - 1]) / 16.0);
    }
  }

  lemma Fade(w: real, p: real, rest: real, step: real)
    ensures w * (15.0 / 16.0 * p) + (rest * 15.0 / 16.0 + step) == (w * p + rest) * 15.0 / 16.0 + step
  {
    assert w * (15.0 / 16.0 * p) == w * p * 15.0 / 16.0;
  }

  // The running mean in closed form.
  lemma {:induction false} JitterWeighted(s: seq<real>)
    ensures Jitter(s) == WeightedSteps(s)
  {
    if |s| >= 2 {
      var front := s[..|s| - 1];
      JitterWeighted(front);
      WeightedMore(front, s[|s| - 1]);
      assert s == front + [s[|s| - 1]];
    }
  }

  // Equal steps of size d: the jitter approaches d by a sixteenth of what is missing with every step.
  lemma {:induction false} JitterOfEqualSteps(s: seq<real>, d: real)
    requires s != [] && forall i :: 0 < i < |s| ==> Abs(s[i] - s[i - 1]) == d
    ensures Jitter(s) == d - d * Power(15.0 / 16.0, |s| - 1)
  {
    if |s| > 1 {
      JitterOfEqualSteps(s[..|s| - 1], d);
      EqualStep(d, Power(15.0 / 16.0, |s| - 2));
    }
  }

  lemma EqualStep(d: real, p: real)
    ensures (d - d * p) + (d - (d - d * p)) / 16.0 == d - d * (15.0 / 16.0 * p)
  {
    assert d * (15.0 / 16.0 * p) == d * p * 15.0 / 16.0;
  }

  // The latest error is that of the last failed sample that carries one.
  lemma {:induction false} LastErrorIsLatest(h: seq<SinglePingStat>)
    ensures LastError(h) == "" ==> forall i :: 0 <= i < |h| && !h[i].success ==> h[i].errorMsg == ""
    ensures LastError(h) != "" ==> exists k: nat :: LatestError(h, k, LastError(h))
  {
    if h != [] {
      var n := |h| - 1;
      LastErrorIsLatest(h[..n]);
      if !h[n].success && h[n].errorMsg != "" {
        assert LatestError(h, n, LastError(h));
      } else if LastError(h) != "" {
        var k: nat :| LatestError(h[..n], k, LastError(h));
        assert LatestError(h, k, LastError(h));
      }
    }
  }

  ghost predicate LatestError(h: seq<SinglePingStat>, k: nat, e: string) {
    && k < |h| && !h[k].success && h[k].errorMsg == e
    && forall i :: k < i < |h| && !h[i].success ==> h[i].errorMsg == ""
  }

  // The round trips are those of the successful samples, in order.
  lemma RttsOfOne(x: SinglePingStat)
    ensures Rtts([x]) == if x.success then [x.rtt] else []
  {
    assert [x][..0] == [];
  }

  lemma {:induction false} RttsBySample(front: seq<SinglePingStat>, back: seq<SinglePingStat>)
    ensures Rtts(front + back) == Rtts(front) + Rtts(back)
  {
    hide MaxFloat64;
    if back != [] {
      RttsBySample(front, back[..|back| - 1]);
      assert (front + back)[..|front + back| - 1] == front + back[..|back| - 1];
      assert (front + back)[|front + back| - 1] == back[|back| - 1];
    } else {
      assert front + back == front;
    }
  }

  // The spread is the sum of the squared distances.
  lemma {:induction false} SpreadSums(s: seq<real>, a: real, squares: seq<real>)
    requires |squares| == |s| && forall i :: 0 <= i < |s| ==> squares[i] == (s[i] - a) * (s[i] - a)
    ensures Spread(s, a) == Sum(squares)
  {
    if s != [] { SpreadSums(s[..|s| - 1], a, squares[..|s| - 1]); }
  }

  lemma {:induction false} SumConcat(s: seq<real>, t: seq<real>)
    ensures Sum(s + t) == Sum(s) + Sum(t)
    ensures forall x :: Sum([x]) == x
  {
    forall x: real ensures [x][..0] == [] {}
    if t != [] {
      SumConcat(s, t[..|t| - 1]);
      assert (s + t)[..|s + t| - 1] == s + t[..|t| - 1];
    } else {
      assert s + t == s;
    }
  }

  // A bound on the sum of (x - a)^2 of n samples that is linear in their sum.
  predicate Linear(spread: real, n: real, sum: real, a: real, lo: real, hi: real) {
    spread <= n * (a * a - lo * hi) + (lo + hi - 2.0 * a) * sum
  }

  lemma {:induction false} SpreadLinear(s: seq<real>, a: real, lo: real, hi: real)
    requires forall i :: 0 <= i < |s| ==> lo <= s[i] <= hi
    ensures Linear(Spread(s, a), |s| as real, Sum(s), a, lo, hi)
  {
    if s != [] {
      hide Linear, Square;
      var front, x := s[..|s| - 1], s[|s| - 1];
      SpreadLinear(front, a, lo, hi);
      LinearMore(Spread(front, a), |front| as real, Sum(front), x, a, lo, hi);
    }
  }

  lemma LinearMore(spread: real, n: real, sum: real, x: real, a: real, lo: real, hi: real)
    requires Linear(spread, n, sum, a, lo, hi) && lo <= x <= hi
    ensures Linear(spread + Square(x - a), n + 1.0, sum + x, a, lo, hi)
  {
    var p, q := a * a - lo * hi, lo + hi - 2.0 * a;
    Chord(x, a, lo, hi);
    assert (n + 1.0) * p == n * p + p;
    assert q * (sum + x) == q * sum + q * x;
  }

  lemma Chord(x: real, a: real, lo: real, hi: real)
    requires lo <= x <= hi
    ensures Square(x - a) <= a * a - lo * hi + (lo + hi - 2.0 * a) * x
  {
    assert (hi - x) * (x - lo) >= 0.0;
    assert (hi - x) * (x - lo) == hi * x - hi * lo - x * x + lo * x;
    assert (x - a) * (x - a) == x * x - 2.0 * (a * x) + a * a;
    assert (lo + hi - 2.0 * a) * x == lo * x + hi * x - 2.0 * (a * x);
  }

  // The variance is at most (max - mean)(mean - min).
  lemma VarianceBound(s: seq<real>)
    requires s != []
    ensures Variance(s) <= (Greatest(s) - Mean(s)) * (Mean(s) - Least(s))
  {
    hide Spread, Sum, Least, Greatest, Linear;
    forall i | 0 <= i < |s| ensures Least(s) <= s[i] <= Greatest(s) { assert s[i] in s; }
    SpreadLinear(s, Mean(s), Least(s), Greatest(s));
    Undivide(Sum(s), |s| as real);
    FromLinear(Spread(s, Mean(s)), Sum(s), |s| as real, Mean(s), Least(s), Greatest(s));
  }

  lemma FromLinear(spread: real, sum: real, n: real, a: real, lo: real, hi: real)
    requires n > 0.0 && sum == n * a
    requires Linear(spread, n, sum, a, lo, hi)
    ensures spread / n <= (hi - a) * (a - lo)
  {
    Expand(n, a, lo, hi);
    BelowQuotient(spread, n, (hi - a) * (a - lo));
  }

  lemma Undivide(sum: real, n: real)
    requires n > 0.0
    ensures n * (sum / n) == sum
  {
  }

  lemma Expand(n: real, a: real, lo: real, hi: real)
    ensures n * (a * a - lo * hi) + (lo + hi - 2.0 * a) * (n * a) == (hi - a) * (a - lo) * n
  {
    var p := n * a;
    assert (lo + hi - 2.0 * a) * p == lo * p + hi * p - 2.0 * a * p;
    assert (hi - a) * (a - lo) == hi * a - hi * lo - a * a + a * lo;
  }

  lemma BelowQuotient(x: real, n: real, b: real)
    requires n > 0.0 && x <= b * n
    ensures x / n <= b
  {
    var q := x / n;
    assert q * n == x;
    Scaled(b, q, n);
  }

  // Over the reals math.Sqrt is the non-negative square root.
  predicate Roots(sqrt: real -> real, v: real) { sqrt(v) >= 0.0 && sqrt(v) * sqrt(v) == v }

  // A number whose square is at most a product of two is at most the mean of the two.
  lemma BelowMean(d: real, a: real, b: real)
    requires d >= 0.0 && a >= 0.0 && b >= 0.0 && d * d <= a * b
    ensures d <= (a + b) / 2.0
  {
    var m := (a + b) / 2.0;
    assert m * m - a * b == Square((a - b) / 2.0);
    assert d == m + (d - m);
    if d > m { SquareAbove(m, d - m); }
  }

  lemma SquareAbove(m: real, e: real)
    requires m >= 0.0 && e > 0.0
    ensures Square(m + e) > Square(m)
  {
    assert (m + e) * (m + e) == m * m + 2.0 * (m * e) + e * e;
  }

  // The standard deviation is at most half the range.
  lemma StdDevBound(s: seq<real>, sqrt: real -> real)
    requires s != [] && Roots(sqrt, Variance(s))
    ensures 0.0 <= sqrt(Variance(s)) <= (Greatest(s) - Least(s)) / 2.0
  {
    hide Spread, Sum, Least, Greatest, Variance, Mean;
    MeanBetween(s);
    VarianceBound(s);
    BelowMean(sqrt(Variance(s)), Greatest(s) - Mean(s), Mean(s) - Least(s));
  }

  // Every summary of a window in which something came back: rounded, the mean and the latest sample still
  // lie between the extremes, the jitter is no more than the range and the standard deviation no more than
  // half of it.
  lemma SummaryOrdered(h: seq<SinglePingStat>, sqrt: real -> real)
    requires Rtts(h) != []
    ensures var r := Summarize(h, sqrt);
            && r.minRTT <= r.avgRTT <= r.maxRTT
            && r.minRTT <= r.latestRTT <= r.maxRTT
            && 0.0 <= r.jitter <= Round(Greatest(Rtts(h)) - Least(Rtts(h)))
            && (Roots(sqrt, Variance(Rtts(h))) ==> 0.0 <= r.stdDev <= Round((Greatest(Rtts(h)) - Least(Rtts(h))) / 2.0))
  {
    var s := Rtts(h);
    hide Round, Spread, Jitter, Sum, MaxFloat64, Rtts, Least, Greatest, Mean, LastError, Variance;
    MeanBetween(s);
    RoundMonotone(Least(s), Mean(s));
    RoundMonotone(Mean(s), Greatest(s));
    var x := s[|s| - 1];
    assert x in s;
    RoundMonotone(Least(s), x);
    RoundMonotone(x, Greatest(s));
    JitterWithinRange(s);
    RoundZero();
    RoundMonotone(0.0, Jitter(s));
    RoundMonotone(Jitter(s), Greatest(s) - Least(s));
    if Roots(sqrt, Variance(s)) {
      StdDevBound(s, sqrt);
      RoundMonotone(0.0, sqrt(Variance(s)));
      RoundMonotone(sqrt(Variance(s)), (Greatest(s) - Least(s)) / 2.0);
    }
  }

  // What every figure of such a summary is, up to the rounding to hundredths.
  lemma SummaryMeaning(h: seq<SinglePingStat>, sqrt: real -> real, squares: seq<real>)
    requires Rtts(h) != [] && |squares| == |Rtts(h)|
    requires forall i :: 0 <= i < |squares| ==>
      squares[i] == (Rtts(h)[i] - Mean(Rtts(h))) * (Rtts(h)[i] - Mean(Rtts(h)))
    ensures var r := Summarize(h, sqrt); var s := Rtts(h);
            && (exists x :: x in s && (forall y :: y in s ==> x <= y) && r.minRTT == Round(x))
            && (exists x :: x in s && (forall y :: y in s ==> x >= y) && r.maxRTT == Round(x))
            && Near(r.avgRTT, Sum(s) / |s| as real)
            && Near(r.stdDev, sqrt(Sum(squares) / |s| as real))
            && Near(r.jitter, WeightedSteps(s))
            && Near(r.latestRTT, s[|s| - 1])
            && r.latestError == LastError(h)
  {
    var s := Rtts(h);
    hide Round, Spread, Jitter, Sum, MaxFloat64, Rtts, LastError;
    SpreadSums(s, Mean(s), squares);
    JitterWeighted(s);
    RoundNear(Mean(s));
    RoundNear(sqrt(Variance(s)));
    RoundNear(Jitter(s));
    RoundNear(s[|s| - 1]);
  }

  ghost predicate Near(figure: real, exact: real) { -0.005 <= figure - exact <= 0.005 }

  // Nothing sent, or nothing back.
  lemma SummaryOfNothing(h: seq<SinglePingStat>, sqrt: real -> real)
    requires Rtts(h) == []
    ensures var r := Summarize(h, sqrt);
            && r.totalSent == |h| && r.totalRecv == 0 && r.lossPct == (if h == [] then 0.0 else 100.0)
            && r.minRTT == r.maxRTT == r.avgRTT == r.jitter == r.stdDev == r.latestRTT == 0.0
            && r.latestError == (if h != [] && LastError(h) == "" then "All packets timed out" else LastError(h))
  {
  }

  // The loss of a non-empty window, exactly: never outside 0 to 100, rounded down to 0 only when less
  // than one packet in 20000 was lost, and up to 100 only when at most one in 20000 came back.
  lemma LossExact(h: seq<SinglePingStat>, sqrt: real -> real)
    requires h != []
    ensures var r := Summarize(h, sqrt);
            && r.totalSent == |h| && r.totalRecv == |Rtts(h)|
            && 0.0 <= r.lossPct <= 100.0
            && (r.lossPct == 0.0 <==> (r.totalSent - r.totalRecv) * 20000 < r.totalSent)
            && (r.lossPct == 100.0 <==> r.totalRecv * 20000 <= r.totalSent)
  {
    hide MaxFloat64, Least, Greatest, Spread, Jitter, Sum, LastError;
    var n, k := |h|, |Rtts(h)|;
    LossRounds(n, k);
  }

  lemma LossRounds(n: nat, k: nat)
    requires n > 0 && k <= n
    ensures var loss := Round((n - k) as real / n as real * 100.0);
            && 0.0 <= loss <= 100.0
            && (loss == 0.0 <==> (n - k) * 20000 < n)
            && (loss == 100.0 <==> k * 20000 <= n)
  {
    var q := (n - k) as real / n as real;
    assert q * n as real == (n - k) as real;
    assert 0.0 <= q <= 1.0;
    var y := q * 100.0 * 100.0;
    assert y < 0.5 <==> (n - k) * 20000 < n by { Cross((n - k) as real, n as real, 0.00005); }
    assert y >= 9999.5 <==> k * 20000 <= n by { Cross((n - k) as real, n as real, 0.99995); }
  }

  lemma Cross(a: real, n: real, c: real)
    requires n > 0.0
    ensures a / n < c <==> a < c * n
  {
    var q := a / n;
    assert q * n == a;
    if q < c { assert (c - q) * n > 0.0; } else { assert (q - c) * n >= 0.0; }
  }
}
