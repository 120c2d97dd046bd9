/** Fair value gaps, displacement and balanced price ranges. */
module Gaps {
  import opened Trades
  import opened Primitives

  predicate FvgAt(bars: seq<Bar>, m: int, side: Side) {
    1 <= m && m + 1 < |bars| &&
    if side == Buy then bars[m + 1].l > bars[m - 1].h else bars[m + 1].h < bars[m - 1].l
  }

  /** Body at least the ATR and 60 % of the range, leaving a gap in its own direction. */
  predicate IsDisplacement(bars: seq<Bar>, i: nat, atr: real)
    requires i < |bars|
  {
    var b := bars[i];
    && atr > 0.0 && b.Body() >= atr
    && b.Range() > 0.0 && b.Body() >= 0.6 * b.Range()
    && FvgAt(bars, i, if b.Bull() then Buy else Sell)
  }

  datatype Zone = Zone(side: Side, low: real, high: real, formedAt: int, idx: nat)

  function FvgZone(bars: seq<Bar>, m: int, side: Side): Zone
    requires FvgAt(bars, m, side)
  {
    if side == Buy then Zone(Buy, bars[m - 1].h, bars[m + 1].l, bars[m].t, m)
    else Zone(Sell, bars[m + 1].h, bars[m - 1].l, bars[m].t, m)
  }

  /** The gaps whose middle bar is one of the first n. */
  function Fvgs(bars: seq<Bar>, n: nat): seq<Zone> {
    if n == 0 then []
    else
      Fvgs(bars, n - 1)
      + if FvgAt(bars, n - 1, Buy) then [FvgZone(bars, n - 1, Buy)]
        else if FvgAt(bars, n - 1, Sell) then [FvgZone(bars, n - 1, Sell)] else []
  }

  // ---------------------------------------------------------------- balanced price ranges

  function Overlap(a: Zone, b: Zone): Zone {
    Zone(b.side, Max(a.low, b.low), Min(a.high, b.high), b.formedAt, b.idx)
  }

  /** Bodies have closed on both sides of the zone since bar k. */
  ghost predicate Traversed(bars: seq<Bar>, k: nat, z: Zone) {
    && (exists i :: k <= i < |bars| && bars[i].c < z.low)
    && (exists i :: k <= i < |bars| && bars[i].c > z.high)
  }

  function After(bars: seq<Bar>, b: Zone): nat {
    if b.idx + 2 < |bars| then b.idx + 2 else |bars|
  }

  /** A gap overlapped by a later opposite one, still standing. */
  ghost predicate IsBpr(bars: seq<Bar>, a: Zone, b: Zone) {
    && a.side != b.side
    && Overlap(a, b).low < Overlap(a, b).high
    && !Traversed(bars, After(bars, b), Overlap(a, b))
  }

  ghost function BprsWith(bars: seq<Bar>, zones: seq<Zone>, i: nat, m: nat): seq<Zone>
    requires i < m <= |zones|
    decreases m
  {
    if m == i + 1 then []
    else BprsWith(bars, zones, i, m - 1)
         + if IsBpr(bars, zones[i], zones[m - 1]) then [Overlap(zones[i], zones[m - 1])] else []
  }

  /** The pairs whose first gap is one of the first n, in the order of the two loops. */
  ghost function BprsUpTo(bars: seq<Bar>, zones: seq<Zone>, n: nat): seq<Zone>
    requires n <= |zones|
  {
    if n == 0 then [] else BprsUpTo(bars, zones, n - 1) + BprsWith(bars, zones, n - 1, |zones|)
  }

  /** None stands for the infinity the suffix starts from. */
  ghost predicate SuffixMin(bars: seq<Bar>, k: nat, x: Option<real>) {
    match x
    case None => k >= |bars|
    case Some(v) => (exists i :: k <= i < |bars| && bars[i].c == v) && (forall i :: k <= i < |bars| ==> v <= bars[i].c)
  }

  ghost predicate SuffixMax(bars: seq<Bar>, k: nat, x: Option<real>) {
    match x
    case None => k >= |bars|
    case Some(v) => (exists i :: k <= i < |bars| && bars[i].c == v) && (forall i :: k <= i < |bars| ==> bars[i].c <= v)
  }

  method SuffixCloses(bars: seq<Bar>) returns (lo: array<Option<real>>, hi: array<Option<real>>)
    ensures fresh(lo) && fresh(hi) && lo.Length == hi.Length == |bars| + 1
    ensures forall k :: 0 <= k <= |bars| ==> SuffixMin(bars, k, lo[k]) && SuffixMax(bars, k, hi[k])
  {
    var n := |bars|;
    lo, hi := new Option<real>[n + 1](_ => None), new Option<real>[n + 1](_ => None);
    var i := n;
    while i > 0
      invariant 0 <= i <= n
      invariant forall k :: i <= k <= n ==> SuffixMin(bars, k, lo[k]) && SuffixMax(bars, k, hi[k])
    {
      i := i - 1;
      var c := bars[i].c;
      lo[i] := Some(if lo[i + 1].None? then c else Min(c, lo[i + 1].value));
      hi[i] := Some(if hi[i + 1].None? then c else Max(c, hi[i + 1].value));
      assert SuffixMin(bars, i, lo[i]) by { SuffixMinStep(bars, i, lo[i + 1], lo[i]); }
      assert SuffixMax(bars, i, hi[i]) by { SuffixMaxStep(bars, i, hi[i + 1], hi[i]); }
    }
  }

  lemma SuffixMinStep(bars: seq<Bar>, i: nat, next: Option<real>, x: Option<real>)
    requires i < |bars| && SuffixMin(bars, i + 1, next)
    requires x == Some(if next.None? then bars[i].c else Min(bars[i].c, next.value))
    ensures SuffixMin(bars, i, x)
  {
  }

  lemma SuffixMaxStep(bars: seq<Bar>, i: nat, next: Option<real>, x: Option<real>)
    requires i < |bars| && SuffixMax(bars, i + 1, next)
    requires x == Some(if next.None? then bars[i].c else Max(bars[i].c, next.value))
    ensures SuffixMax(bars, i, x)
  {
  }

  /** With suffix extremes of the closes, one look decides whether a pair was traversed. */
  method Bprs(bars: seq<Bar>, zones: seq<Zone>) returns (out: seq<Zone>)
    ensures out == BprsUpTo(bars, zones, |zones|)
  {
    hide Overlap, Traversed, SuffixMin, SuffixMax;
    var lo, hi := SuffixCloses(bars);
    out := [];
    for i := 0 to |zones|
      invariant out == BprsUpTo(bars, zones, i)
      modifies {}
    {
      var a := zones[i];
      ghost var before := out;
      for j := i + 1 to |zones|
        invariant out == before + BprsWith(bars, zones, i, j)
        modifies {}
      {
        var b := zones[j];
        if b.side == a.side {
          continue;
        }
        var z := Overlap(a, b);
        if z.low >= z.high {
          continue;
        }
        var k := After(bars, b);
        assert SuffixMin(bars, k, lo[k]) && SuffixMax(bars, k, hi[k]);
        TraversedBySuffix(bars, k, z, lo[k], hi[k]);
        if lo[k].Some? && lo[k].value < z.low && hi[k].Some? && hi[k].value > z.high {
          continue;  // traversed body-to-body
        }
        out := out + [z];
      }
    }
  }

  lemma TraversedBySuffix(bars: seq<Bar>, k: nat, z: Zone, lo: Option<real>, hi: Option<real>)
    requires SuffixMin(bars, k, lo) && SuffixMax(bars, k, hi)
    ensures Traversed(bars, k, z) <==> lo.Some? && lo.value < z.low && hi.Some? && hi.value > z.high
  {
  }

  /** z is the standing overlap of the i-th gap with one of the gaps before m. */
  ghost predicate PairsWith(bars: seq<Bar>, zones: seq<Zone>, i: nat, m: nat, z: Zone)
    requires i < m <= |zones|
  {
    exists j :: i < j < m && IsBpr(bars, zones[i], zones[j]) && z == Overlap(zones[i], zones[j])
  }

  lemma {:induction false} BprsWithExact(bars: seq<Bar>, zones: seq<Zone>, i: nat, m: nat, z: Zone)
    requires i < m <= |zones|
    ensures z in BprsWith(bars, zones, i, m) <==> PairsWith(bars, zones, i, m, z)
    decreases m
  {
    if m > i + 1 {
      BprsWithExact(bars, zones, i, m - 1, z);
    }
  }

  /** Exactly the overlapping opposite pairs that were not traversed, and each of them. */
  lemma {:induction false} BprsExact(bars: seq<Bar>, zones: seq<Zone>, n: nat, z: Zone)
    requires n <= |zones|
    ensures z in BprsUpTo(bars, zones, n) <==> exists i :: 0 <= i < n && PairsWith(bars, zones, i, |zones|, z)
  {
    if n > 0 {
      BprsExact(bars, zones, n - 1, z);
      BprsWithExact(bars, zones, n - 1, |zones|, z);
    }
  }

  // ---------------------------------------------------------------- as bars arrive

  /** The gaps of a prefix stay, and later ones form later. */
  lemma {:induction false} FvgsGrow(bars: seq<Bar>, more: seq<Bar>, n: nat)
    requires bars <= more && |bars| <= n + 1 && n <= |more| && bars != []
    ensures Fvgs(bars, |bars|) <= Fvgs(more, n)
    ensures forall j :: |Fvgs(bars, |bars|)| <= j < |Fvgs(more, n)| ==>
              |bars| - 1 <= Fvgs(more, n)[j].idx < n && Fvgs(more, n)[j].formedAt == more[Fvgs(more, n)[j].idx].t
  {
    if n + 1 == |bars| {
      FvgsOfPrefix(bars, more, n);
    } else {
      FvgsGrow(bars, more, n - 1);
    }
  }

  lemma {:induction false} FvgsOfPrefix(bars: seq<Bar>, more: seq<Bar>, n: nat)
    requires bars <= more && n < |bars|
    ensures Fvgs(bars, n) == Fvgs(more, n)
  {
    if n > 0 {
      FvgsOfPrefix(bars, more, n - 1);
    }
  }

  lemma TraversedStays(bars: seq<Bar>, more: seq<Bar>, k: nat, z: Zone)
    requires bars <= more && Traversed(bars, k, z)
    ensures Traversed(more, k, z)
  {
    var i :| k <= i < |bars| && bars[i].c < z.low;
    var j :| k <= j < |bars| && bars[j].c > z.high;
    assert more[i].c < z.low && more[j].c > z.high;
  }

  /** A standing range of a longer series stood when only the prefix was known. */
  lemma BprStood(bars: seq<Bar>, more: seq<Bar>, a: Zone, b: Zone)
    requires bars <= more
    ensures IsBpr(more, a, b) ==> IsBpr(bars, a, b)
  {
    if Traversed(bars, After(bars, b), Overlap(a, b)) {
      TraversedStays(bars, more, After(bars, b), Overlap(a, b));
    }
  }

  // ---------------------------------------------------------------- median body

  function Insert(x: real, sorted: seq<real>): seq<real> {
    if sorted == [] || x <= sorted[0] then [x] + sorted else [sorted[0]] + Insert(x, sorted[1..])
  }

  function SortedBodies(bars: seq<Bar>): seq<real> {
    if bars == [] then [] else Insert(bars[0].Body(), SortedBodies(bars[1..]))
  }

  lemma {:induction false} InsertLength(x: real, sorted: seq<real>)
    ensures |Insert(x, sorted)| == |sorted| + 1
  {
    if sorted != [] && x > sorted[0] {
      InsertLength(x, sorted[1..]);
    }
  }

  lemma {:induction false} SortedBodiesLength(bars: seq<Bar>)
    ensures |SortedBodies(bars)| == |bars|
  {
    if bars != [] {
      SortedBodiesLength(bars[1..]);
      InsertLength(bars[0].Body(), SortedBodies(bars[1..]));
    }
  }

  function MedianBody(bars: seq<Bar>): real {
    SortedBodiesLength(bars);
    var s := SortedBodies(bars);
    if s == [] then 0.0
    else if |s| % 2 == 1 then s[|s| / 2]
    else (s[|s| / 2 - 1] + s[|s| / 2]) / 2.0
  }
}
