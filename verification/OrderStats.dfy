// Medians of float64 samples, taken over the reals.
module OrderStats {
  import opened Numbers

  function Insert(x: real, s: seq<real>): seq<real> {
    if s == [] || x <= s[0] then [x] + s else [s[0]] + Insert(x, s[1..])
  }

  // The sorted permutation of s.
  function Sort(s: seq<real>): seq<real> {
    if s == [] then [] else Insert(s[|s| - 1], Sort(s[..|s| - 1]))
  }

  function Median(vals: seq<real>): real {
    if vals == [] then 0.0
    else
      SortKeeps(vals);
      var s := Sort(vals);
      var mid := |s| / 2;
      if |s| % 2 == 1 then s[mid] else (s[mid - 1] + s[mid]) / 2.0
  }

  function Deviations(vals: seq<real>, center: real): seq<real> {
    seq(|vals|, i requires 0 <= i < |vals| => Abs(vals[i] - center))
  }

  // Median absolute deviation around center.
  function Mad(vals: seq<real>, center: real): real { Median(Deviations(vals, center)) }

  // sort.Float64s: which algorithm the library uses does not matter to its callers.
  method SortFloat64s(a: array<real>)
    modifies a
    ensures a[..] == Sort(old(a[..]))
  {
    var s := Sort(a[..]);
    SortKeeps(a[..]);
    forall i | 0 <= i < a.Length { a[i] := s[i]; }
  }

  method CalcMedian(vals: seq<real>) returns (m: real)
    ensures m == Median(vals)
  {
    if |vals| == 0 { return 0.0; }
    var copied := new real[|vals|](i requires 0 <= i < |vals| => vals[i]);
    assert copied[..] == vals;
    SortKeeps(vals);
    SortFloat64s(copied);
    var mid := copied.Length / 2;
    if copied.Length % 2 == 1 { return copied[mid]; }
    return (copied[mid - 1] + copied[mid]) / 2.0;
  }

  method CalcMad(vals: seq<real>, center: real) returns (m: real)
    ensures m == Mad(vals, center)
  {
    if |vals| == 0 {
      assert Deviations(vals, center) == [];
      return 0.0;
    }
    var devs := new real[|vals|];
    for i := 0 to |vals|
      invariant devs[..i] == Deviations(vals, center)[..i]
    {
      devs[i] := Abs(vals[i] - center);
    }
    assert devs[..] == Deviations(vals, center);
    m := CalcMedian(devs[..]);
  }

  // ---- what sorting and the median mean ----

  predicate Sorted(s: seq<real>) {
    forall i, j :: 0 <= i < j < |s| ==> s[i] <= s[j]
  }

  lemma {:induction false} InsertAbove(x: real, s: seq<real>, lo: real)
    requires lo <= x && forall i :: 0 <= i < |s| ==> lo <= s[i]
    ensures forall i :: 0 <= i < |Insert(x, s)| ==> lo <= Insert(x, s)[i]
  {
    if s != [] && x > s[0] { InsertAbove(x, s[1..], lo); }
  }

  lemma {:induction false} InsertKeeps(x: real, s: seq<real>)
    ensures multiset(Insert(x, s)) == multiset(s) + multiset{x}
    ensures |Insert(x, s)| == |s| + 1
  {
    if s != [] && x > s[0] {
      InsertKeeps(x, s[1..]);
      assert s == [s[0]] + s[1..];
    }
  }

  lemma {:induction false} InsertSorted(x: real, s: seq<real>)
    requires Sorted(s)
    ensures Sorted(Insert(x, s))
  {
    if s != [] && x > s[0] {
      InsertSorted(x, s[1..]);
      InsertAbove(x, s[1..], s[0]);
    }
  }

  lemma {:induction false} SortKeeps(s: seq<real>)
    ensures Sorted(Sort(s)) && multiset(Sort(s)) == multiset(s) && |Sort(s)| == |s|
  {
    if s != [] {
      SortKeeps(s[..|s| - 1]);
      InsertKeeps(s[|s| - 1], Sort(s[..|s| - 1]));
      InsertSorted(s[|s| - 1], Sort(s[..|s| - 1]));
      assert s == s[..|s| - 1] + [s[|s| - 1]];
    }
  }

  function CountLe(s: seq<real>, x: real): nat {
    if s == [] then 0 else CountLe(s[1..], x) + if s[0] <= x then 1 else 0
  }

  function CountGe(s: seq<real>, x: real): nat {
    if s == [] then 0 else CountGe(s[1..], x) + if s[0] >= x then 1 else 0
  }

  lemma {:induction false} CountInsert(y: real, s: seq<real>, x: real)
    ensures CountLe(Insert(y, s), x) == CountLe(s, x) + if y <= x then 1 else 0
    ensures CountGe(Insert(y, s), x) == CountGe(s, x) + if y >= x then 1 else 0
  {
    if s != [] && y > s[0] { CountInsert(y, s[1..], x); }
  }

  lemma {:induction false} CountLast(s: seq<real>, x: real)
    requires s != []
    ensures CountLe(s, x) == CountLe(s[..|s| - 1], x) + if s[|s| - 1] <= x then 1 else 0
    ensures CountGe(s, x) == CountGe(s[..|s| - 1], x) + if s[|s| - 1] >= x then 1 else 0
  {
    if |s| > 1 {
      CountLast(s[1..], x);
      assert s[1..][..|s| - 2] == s[..|s| - 1][1..];
    }
  }

  lemma {:induction false} CountSort(s: seq<real>, x: real)
    ensures CountLe(Sort(s), x) == CountLe(s, x) && CountGe(Sort(s), x) == CountGe(s, x)
  {
    if s != [] {
      CountSort(s[..|s| - 1], x);
      CountInsert(s[|s| - 1], Sort(s[..|s| - 1]), x);
      CountLast(s, x);
    }
  }

  lemma {:induction false} CountSorted(s: seq<real>, k: nat, x: real)
    requires Sorted(s) && k < |s|
    ensures s[k] <= x ==> CountLe(s, x) >= k + 1
    ensures s[k] >= x ==> CountGe(s, x) >= |s| - k
    decreases |s|
  {
    if k > 0 {
      CountSorted(s[1..], k - 1, x);
    } else if |s| > 1 {
      CountSorted(s[1..], 0, x);
    }
  }

  // The median splits the samples: at least half lie at or below it and at least half at or above it.
  lemma MedianSplits(vals: seq<real>)
    requires vals != []
    ensures 2 * CountLe(vals, Median(vals)) >= |vals| && 2 * CountGe(vals, Median(vals)) >= |vals|
  {
    SortKeeps(vals);
    var s, m := Sort(vals), Median(vals);
    var mid := |s| / 2;
    CountSort(vals, m);
    CountSorted(s, mid, m);
    if |s| % 2 == 0 { CountSorted(s, mid - 1, m); }
  }

  // Two sorted sequences of the same samples are the same.
  lemma {:induction false} SortedOnce(s: seq<real>, t: seq<real>)
    requires |s| == |t| && Sorted(s) && Sorted(t) && multiset(s) == multiset(t)
    ensures s == t
  {
    if s != [] {
      SameHead(s, t);
      hide Sorted;
      SortedOnce(s[1..], t[1..]);
      assert s == [s[0]] + s[1..] && t == [t[0]] + t[1..];
    }
  }

  lemma SameHead(s: seq<real>, t: seq<real>)
    requires s != [] && t != [] && Sorted(s) && Sorted(t) && multiset(s) == multiset(t)
    ensures s[0] == t[0] && multiset(s[1..]) == multiset(t[1..]) && Sorted(s[1..]) && Sorted(t[1..])
  {
    HeadLeast(s);
    HeadLeast(t);
    hide Sorted;
    assert s[0] in multiset(s) && t[0] in multiset(t);
  }

  lemma HeadLeast(s: seq<real>)
    requires s != [] && Sorted(s)
    ensures forall x :: x in multiset(s) ==> s[0] <= x
    ensures Sorted(s[1..]) && multiset(s[1..]) == multiset(s) - multiset{s[0]}
  {
    assert s == [s[0]] + s[1..];
  }

  lemma SameSize(s: seq<real>, t: seq<real>)
    requires multiset(s) == multiset(t)
    ensures |s| == |t|
  {
    assert |s| == |multiset(s)| && |t| == |multiset(t)|;
  }

  // However the samples are put in order, the median is the middle one, or the mean of the two in the middle.
  lemma MedianMiddle(vals: seq<real>, sorted: seq<real>)
    requires vals != [] && Sorted(sorted) && multiset(sorted) == multiset(vals)
    ensures |sorted| == |vals|
    ensures forall k: nat :: |vals| == 2 * k + 1 ==> Median(vals) == sorted[k]
    ensures forall k: nat :: |vals| == 2 * k + 2 ==> 2.0 * Median(vals) == sorted[k] + sorted[k + 1]
  {
    SortKeeps(vals);
    SameSize(sorted, vals);
    SortedOnce(sorted, Sort(vals));
  }

  // The median lies between any bounds of the samples.
  lemma MedianBounded(vals: seq<real>, lo: real, hi: real)
    requires vals != [] && forall i :: 0 <= i < |vals| ==> lo <= vals[i] <= hi
    ensures lo <= Median(vals) <= hi
  {
    SortKeeps(vals);
    var s := Sort(vals);
    forall i | 0 <= i < |s| ensures lo <= s[i] <= hi {
      assert s[i] in multiset(s);
      assert s[i] in multiset(vals);
    }
  }

  // Samples within d of the center have a MAD of at most d, and a MAD is never negative.
  lemma MadBounded(vals: seq<real>, center: real, d: real)
    requires vals != [] && forall i :: 0 <= i < |vals| ==> Abs(vals[i] - center) <= d
    ensures 0.0 <= Mad(vals, center) <= d
  {
    MedianBounded(Deviations(vals, center), 0.0, d);
  }

  // The number of samples within d of the center.
  function CountNear(vals: seq<real>, center: real, d: real): nat { CountLe(Deviations(vals, center), d) }

  lemma {:induction false} CountMonotone(s: seq<real>, x: real, y: real)
    requires x <= y
    ensures CountLe(s, x) <= CountLe(s, y)
  {
    if s != [] { CountMonotone(s[1..], x, y); }
  }

  // A MAD of at most d means that at least half of the samples are within d of the center.
  lemma MadMajority(vals: seq<real>, center: real, d: real)
    requires vals != [] && Mad(vals, center) <= d
    ensures 2 * CountNear(vals, center, d) >= |vals|
  {
    MedianSplits(Deviations(vals, center));
    CountMonotone(Deviations(vals, center), Mad(vals, center), d);
  }
}
