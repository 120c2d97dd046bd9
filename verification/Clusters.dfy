/** The cluster bonus of the liquidity score: windows counted by bisection over the sorted prices. */
module Clusters {

  const CLUSTER_SIZE := 3

  /** How many prices lie in [lo, hi], with multiplicity. */
  function Within(prices: seq<real>, lo: real, hi: real): nat {
    if prices == [] then 0
    else Within(prices[..|prices| - 1], lo, hi) + if lo <= prices[|prices| - 1] <= hi then 1 else 0
  }

  /** Some interval of that width contains the price and at least three of the pools. */
  ghost predicate Clustered(prices: seq<real>, width: real, p: real) {
    exists x: real :: InWindow(prices, width, p, x)
  }

  ghost predicate InWindow(prices: seq<real>, width: real, p: real, x: real) {
    x <= p <= x + width && Within(prices, x, x + width) >= CLUSTER_SIZE
  }

  predicate Ascending(s: seq<real>) {
    forall i, j :: 0 <= i < j < |s| ==> s[i] <= s[j]
  }

  // ---------------------------------------------------------------- sorting and bisection

  function InsertSorted(x: real, s: seq<real>): seq<real> {
    if s == [] || x >= s[|s| - 1] then s + [x] else InsertSorted(x, s[..|s| - 1]) + [s[|s| - 1]]
  }

  function Sorted(prices: seq<real>): seq<real> {
    if prices == [] then [] else InsertSorted(prices[|prices| - 1], Sorted(prices[..|prices| - 1]))
  }

  lemma {:induction false} InsertKeeps(x: real, s: seq<real>)
    requires Ascending(s)
    ensures Ascending(InsertSorted(x, s)) && forall y :: y in InsertSorted(x, s) <==> y == x || y in s
  {
    if s != [] && x < s[|s| - 1] {
      var front, last := s[..|s| - 1], s[|s| - 1];
      InsertKeeps(x, front);
      var r := InsertSorted(x, front);
      assert s == front + [last];
      assert forall k :: 0 <= k < |r| ==> r[k] in r;
    }
  }

  lemma {:induction false} InsertCounts(x: real, s: seq<real>, lo: real, hi: real)
    ensures Within(InsertSorted(x, s), lo, hi) == Within(s, lo, hi) + if lo <= x <= hi then 1 else 0
  {
    if s == [] || x >= s[|s| - 1] {
      assert (s + [x])[..|s|] == s;
    } else {
      var front, last := s[..|s| - 1], s[|s| - 1];
      InsertCounts(x, front, lo, hi);
      var r := InsertSorted(x, front);
      assert (r + [last])[..|r|] == r;
    }
  }

  lemma {:induction false} SortedKeeps(prices: seq<real>)
    ensures Ascending(Sorted(prices)) && forall y :: y in Sorted(prices) <==> y in prices
  {
    hide Ascending, InsertSorted;
    if prices == [] {
      assert Ascending([]) by {
        NothingAscends();
      }
    } else {
      var front := prices[..|prices| - 1];
      SortedKeeps(front);
      InsertKeeps(prices[|prices| - 1], Sorted(front));
      assert prices == front + [prices[|prices| - 1]];
    }
  }

  lemma NothingAscends()
    ensures Ascending([])
  {
  }

  lemma {:induction false} SortedCounts(prices: seq<real>, lo: real, hi: real)
    ensures Within(Sorted(prices), lo, hi) == Within(prices, lo, hi)
  {
    hide InsertSorted;
    if prices != [] {
      var front := prices[..|prices| - 1];
      SortedCounts(front, lo, hi);
      InsertCounts(prices[|prices| - 1], Sorted(front), lo, hi);
    }
  }

  function BisectLeft(s: seq<real>, x: real): (r: nat)
    requires Ascending(s)
    ensures r <= |s|
    ensures forall i :: 0 <= i < r ==> s[i] < x
    ensures forall i :: r <= i < |s| ==> s[i] >= x
  {
    if s == [] || s[|s| - 1] < x then |s| else BisectLeft(s[..|s| - 1], x)
  }

  function BisectRight(s: seq<real>, x: real): (r: nat)
    requires Ascending(s)
    ensures r <= |s|
    ensures forall i :: 0 <= i < r ==> s[i] <= x
    ensures forall i :: r <= i < |s| ==> s[i] > x
  {
    if s == [] || s[|s| - 1] <= x then |s| else BisectRight(s[..|s| - 1], x)
  }

  lemma BisectRightRises(s: seq<real>, x: real, y: real)
    requires Ascending(s) && x <= y
    ensures BisectRight(s, x) <= BisectRight(s, y)
  {
    hide Ascending;
    var r := BisectRight(s, y);
    assert r < |s| ==> s[r] > y;
  }

  /** The distance between two bisections is the number of prices in the window. */
  lemma {:induction false} WithinByBisection(s: seq<real>, lo: real, hi: real)
    requires Ascending(s) && lo <= hi
    ensures BisectRight(s, hi) - BisectLeft(s, lo) == Within(s, lo, hi)
  {
    if s != [] {
      var front := s[..|s| - 1];
      WithinByBisection(front, lo, hi);
      var l, r := BisectLeft(s, lo), BisectRight(s, hi);
      var fl, fr := BisectLeft(front, lo), BisectRight(front, hi);
      assert s[|s| - 1] >= lo ==> l == fl;
      assert s[|s| - 1] > hi ==> r == fr;
      if s[|s| - 1] < lo {
        assert fl == |front| && fr == |front|;
      }
      if s[|s| - 1] <= hi {
        assert fr == |front|;
      }
    }
  }

  // ---------------------------------------------------------------- the bonus

  /** Pools inside [s[j], s[j] + width], not counting equal prices before j. */
  function WindowFrom(s: seq<real>, width: real, j: nat): int
    requires Ascending(s) && j < |s|
  {
    BisectRight(s, s[j] + width) - j
  }

  /** A window that starts at or before p, no further than its width, holds enough pools. */
  predicate Crowded(s: seq<real>, counts: seq<int>, width: real, p: real)
    requires Ascending(s) && |counts| == |s|
  {
    exists j :: BisectLeft(s, p - width) <= j < BisectRight(s, p) && counts[j] >= CLUSTER_SIZE
  }

  method ClusterBonus(prices: seq<real>, width: real) returns (granted: seq<bool>)
    requires width >= 0.0
    ensures |granted| == |prices|
    ensures forall n :: 0 <= n < |prices| ==> (granted[n] <==> Clustered(prices, width, prices[n]))
  {
    hide Clustered, Sorted, Crowded, WindowFrom, Ascending;
    var s := Sorted(prices);
    SortedKeeps(prices);
    var counts := Counts(s, width);
    granted := [];
    for n := 0 to |prices|
      invariant |granted| == n
      invariant forall i :: 0 <= i < n ==> (granted[i] <==> Clustered(prices, width, prices[i]))
    {
      ClusteredByCounts(prices, s, counts, width, prices[n]);
      granted := granted + [Crowded(s, counts, width, prices[n])];
    }
  }

  method Counts(s: seq<real>, width: real) returns (counts: seq<int>)
    requires Ascending(s)
    ensures |counts| == |s| && forall j :: 0 <= j < |s| ==> counts[j] == WindowFrom(s, width, j)
  {
    hide WindowFrom;
    counts := [];
    for j := 0 to |s|
      invariant |counts| == j && forall i :: 0 <= i < j ==> counts[i] == WindowFrom(s, width, i)
    {
      counts := counts + [WindowFrom(s, width, j)];
    }
  }

  lemma ClusteredByCounts(prices: seq<real>, s: seq<real>, counts: seq<int>, width: real, p: real)
    requires width >= 0.0 && s == Sorted(prices) && Ascending(s) && p in prices
    requires |counts| == |s| && forall j :: 0 <= j < |s| ==> counts[j] == WindowFrom(s, width, j)
    ensures Crowded(s, counts, width, p) <==> Clustered(prices, width, p)
  {
    hide Within, WindowFrom, Sorted, Ascending, InWindow;
    forall j | BisectLeft(s, p - width) <= j < BisectRight(s, p) && counts[j] >= CLUSTER_SIZE
      ensures Clustered(prices, width, p)
    {
      CountsCluster(prices, s, width, p, j);
    }
    if Clustered(prices, width, p) {
      var x: real :| InWindow(prices, width, p, x);
      var j := WindowStart(prices, s, width, p, x);
      assert counts[j] >= CLUSTER_SIZE;
    }
  }

  lemma CountsCluster(prices: seq<real>, s: seq<real>, width: real, p: real, j: nat)
    requires width >= 0.0 && s == Sorted(prices) && Ascending(s)
    requires BisectLeft(s, p - width) <= j < BisectRight(s, p) && WindowFrom(s, width, j) >= CLUSTER_SIZE
    ensures Clustered(prices, width, p)
  {
    hide Within, Sorted, BisectLeft, BisectRight;
    var x := s[j];
    WithinByBisection(s, x, x + width);
    SortedKeeps(prices);
    SortedCounts(prices, x, x + width);
    assert BisectLeft(s, x) <= j;
    assert InWindow(prices, width, p, x);
  }

  /** The first pool of a window starts a window that holds as much. */
  lemma WindowStart(prices: seq<real>, s: seq<real>, width: real, p: real, x: real) returns (j: nat)
    requires width >= 0.0 && s == Sorted(prices) && Ascending(s) && p in prices && InWindow(prices, width, p, x)
    ensures BisectLeft(s, p - width) <= j < BisectRight(s, p) && j < |s| && WindowFrom(s, width, j) >= CLUSTER_SIZE
  {
    hide Within, Sorted, BisectLeft, BisectRight;
    SortedKeeps(prices);
    SortedCounts(prices, x, x + width);
    WithinByBisection(s, x, x + width);
    j := BisectLeft(s, x);
    var at :| 0 <= at < |s| && s[at] == p;
    assert j <= at;
    assert s[j] <= p;
    BisectRightRises(s, x + width, s[j] + width);
  }
}
