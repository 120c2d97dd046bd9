/** Liquidity levels: separate touches, sweep status, and clusters of pools. */
module Levels {
  import opened Trades
  import opened Primitives

  // ---------------------------------------------------------------- separate touches

  function Wick(high: bool, b: Bar): real {
    if high then b.h else b.l
  }

  predicate Touch(level: real, high: bool, bars: seq<Bar>, tol: real, k: int) {
    0 <= k < |bars| && Abs(Wick(high, bars[k]) - level) <= tol
  }

  /** Touching bars among the first n, pairwise at least minGap apart. */
  ghost predicate Separate(level: real, high: bool, bars: seq<Bar>, tol: real, minGap: nat, n: int, s: set<int>) {
    && (forall k :: k in s ==> k < n && Touch(level, high, bars, tol, k))
    && (forall i, j :: i in s && j in s && i < j ==> j - i >= minGap)
  }

  /** No such set has more than c members. */
  ghost predicate AtMost(level: real, high: bool, bars: seq<Bar>, tol: real, minGap: nat, n: int, c: nat) {
    forall s :: Separate(level, high, bars, tol, minGap, n, s) ==> |s| <= c
  }

  const NEVER := -1000000000

  /** Greedy, and optimal: no set of touching bars at least minGap apart is larger than the count. */
  method TouchCount(level: real, high: bool, bars: seq<Bar>, tol: real, minGap: nat)
      returns (count: nat, ghost best: set<int>)
    requires minGap <= -NEVER
    ensures Separate(level, high, bars, tol, minGap, |bars|, best) && |best| == count
    ensures AtMost(level, high, bars, tol, minGap, |bars|, count)
  {
    hide AtMost, Touch;
    count, best := 0, {};
    var last := NEVER;
    NoneYet(level, high, bars, tol, minGap, 0);
    NoneYet(level, high, bars, tol, minGap, NEVER);
    for k := 0 to |bars|
      invariant Separate(level, high, bars, tol, minGap, k, best) && |best| == count
      invariant last < k && forall i :: i in best ==> i <= last
      invariant AtMost(level, high, bars, tol, minGap, k, count)
      invariant AtMost(level, high, bars, tol, minGap, last, if count == 0 then 0 else count - 1)
      invariant count == 0 ==> last == NEVER
    {
      OneMore(level, high, bars, tol, minGap, k, last, count);
      if Touch(level, high, bars, tol, k) && k - last >= minGap {
        best := best + {k};
        count := count + 1;
        last := k;
      }
    }
  }

  lemma NoneYet(level: real, high: bool, bars: seq<Bar>, tol: real, minGap: nat, n: int)
    requires n <= 0
    ensures AtMost(level, high, bars, tol, minGap, n, 0)
  {
    forall s | Separate(level, high, bars, tol, minGap, n, s)
      ensures |s| <= 0
    {
      forall k: int
        ensures k !in s
      {
        assert k in s ==> Touch(level, high, bars, tol, k) && k < n;
      }
      assert s == {};
    }
  }

  /** What bar k can add: one to any set when the last counted touch is far enough, else nothing. */
  lemma OneMore(level: real, high: bool, bars: seq<Bar>, tol: real, minGap: nat, k: nat, last: int, count: nat)
    requires k < |bars| && last < k
    requires AtMost(level, high, bars, tol, minGap, k, count)
    requires AtMost(level, high, bars, tol, minGap, last, if count == 0 then 0 else count - 1)
    requires count == 0 ==> k - last >= minGap
    ensures AtMost(level, high, bars, tol, minGap, k + 1,
                   if Touch(level, high, bars, tol, k) && k - last >= minGap then count + 1 else count)
  {
    hide Touch;
    var c := if Touch(level, high, bars, tol, k) && k - last >= minGap then count + 1 else count;
    var n := k + 1;
    forall s: set<int> | Separate(level, high, bars, tol, minGap, n, s)
      ensures |s| <= c
    {
      WithoutLast(level, high, bars, tol, minGap, k, last, s);
      assert k in s ==> |s| == |s - {k}| + 1;
    }
    assert AtMost(level, high, bars, tol, minGap, n, c);
  }

  /** A set that reaches bar k has its other members before it, and before the last counted touch if that is near. */
  lemma WithoutLast(level: real, high: bool, bars: seq<Bar>, tol: real, minGap: nat, k: nat, last: int, s: set<int>)
    requires last < k && Separate(level, high, bars, tol, minGap, k + 1, s)
    ensures Separate(level, high, bars, tol, minGap, k, s - {k})
    ensures k !in s ==> s - {k} == s
    ensures k in s ==> Touch(level, high, bars, tol, k)
    ensures k in s && k - last < minGap ==> Separate(level, high, bars, tol, minGap, last, s - {k})
  {
    hide Touch;
  }

  // ---------------------------------------------------------------- sweep status

  datatype Status = Untouched | SweptWick(at: nat) | SweptBody(at: nat)

  predicate ClosesBeyond(level: real, high: bool, b: Bar) {
    if high then b.c > level else b.c < level
  }

  predicate WickReaches(level: real, high: bool, tol: real, b: Bar) {
    if high then b.h >= level - tol else b.l <= level + tol
  }

  /** A body close beyond the level wins over any wick, the first of its kind in either case. */
  method SweepStatus(level: real, high: bool, later: seq<Bar>, tol: real) returns (r: Status)
    ensures r.SweptBody? <==> exists k :: 0 <= k < |later| && ClosesBeyond(level, high, later[k])
    ensures r.SweptBody? ==> r.at < |later| && ClosesBeyond(level, high, later[r.at])
                             && forall k :: 0 <= k < r.at ==> !ClosesBeyond(level, high, later[k])
    ensures r.SweptWick? ==> r.at < |later| && WickReaches(level, high, tol, later[r.at])
                             && forall k :: 0 <= k < r.at ==> !WickReaches(level, high, tol, later[k])
    ensures r.Untouched? ==> forall k :: 0 <= k < |later| ==> !WickReaches(level, high, tol, later[k])
  {
    var wickAt: Option<nat> := None;
    for k := 0 to |later|
      invariant forall j :: 0 <= j < k ==> !ClosesBeyond(level, high, later[j])
      invariant wickAt.None? ==> forall j :: 0 <= j < k ==> !WickReaches(level, high, tol, later[j])
      invariant wickAt.Some? ==> wickAt.value < k && WickReaches(level, high, tol, later[wickAt.value])
                                 && forall j :: 0 <= j < wickAt.value ==> !WickReaches(level, high, tol, later[j])
    {
      if ClosesBeyond(level, high, later[k]) {
        return SweptBody(k);
      }
      if wickAt.None? && WickReaches(level, high, tol, later[k]) {
        wickAt := Some(k);
      }
    }
    r := if wickAt.Some? then SweptWick(wickAt.value) else Untouched;
  }
}
