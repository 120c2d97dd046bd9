/** Closed bars per timeframe, growing from one evaluation to the next, and searches by open time. */
module Feeds {
  import opened Primitives

  datatype TF = M1 | M5 | M15

  function Seconds(tf: TF): int {
    match tf
    case M1 => 60
    case M5 => 300
    case M15 => 900
  }

  datatype Feed = Feed(m1: seq<Bar>, m5: seq<Bar>, m15: seq<Bar>, d1: seq<Bar>) {
    function Of(tf: TF): seq<Bar> {
      match tf
      case M1 => m1
      case M5 => m5
      case M15 => m15
    }

    ghost predicate Valid() {
      Sorted(m1) && Sorted(m5) && Sorted(m15)
    }
  }

  ghost predicate Sorted(bars: seq<Bar>) {
    forall i, j :: 0 <= i < j < |bars| ==> bars[i].t < bars[j].t
  }

  /** Bars are only ever appended. */
  ghost predicate Grown(f: Feed, g: Feed) {
    f.m1 <= g.m1 && f.m5 <= g.m5 && f.m15 <= g.m15
  }

  /** bisect_left on the open time */
  function AtOrAfter(bars: seq<Bar>, t: int): (r: nat)
    ensures r <= |bars|
    ensures forall j :: 0 <= j < r ==> bars[j].t < t
    ensures r < |bars| ==> bars[r].t >= t
  {
    if bars == [] || bars[0].t >= t then 0
    else
      var r := 1 + AtOrAfter(bars[1..], t);
      assert forall j :: 1 <= j < |bars| ==> bars[j] == bars[1..][j - 1];
      r
  }

  /** bisect_right on the open time */
  function Past(bars: seq<Bar>, t: int): (r: nat)
    ensures r <= |bars|
    ensures forall j :: 0 <= j < r ==> bars[j].t <= t
    ensures r < |bars| ==> bars[r].t > t
  {
    if bars == [] || bars[0].t > t then 0
    else
      var r := 1 + Past(bars[1..], t);
      assert forall j :: 1 <= j < |bars| ==> bars[j] == bars[1..][j - 1];
      r
  }

  lemma IndexOf(bars: seq<Bar>, i: nat)
    requires Sorted(bars) && i < |bars|
    ensures AtOrAfter(bars, bars[i].t) == i && Past(bars, bars[i].t) == i + 1
  {
    var p := Past(bars, bars[i].t);
    assert p < |bars| ==> bars[p].t > bars[i].t;
  }

  /** A bar keeps its place when the feed grows. */
  lemma SamePlace(bars: seq<Bar>, more: seq<Bar>, t: int)
    requires bars <= more && AtOrAfter(bars, t) < |bars|
    ensures AtOrAfter(more, t) == AtOrAfter(bars, t)
  {
    var b := AtOrAfter(more, t);
    assert b < |bars| ==> more[b] == bars[b];
  }
}
