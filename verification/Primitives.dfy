/** Candles and the detectors over closed bars. Prices are reals. */
module Primitives {
  import opened Trades

  /** t is the open time in seconds. */
  datatype Bar = Bar(t: int, o: real, h: real, l: real, c: real) {
    function Top(): real { if o > c then o else c }
    function Bot(): real { if o < c then o else c }
    function Body(): real { Top() - Bot() }
    function Range(): real { h - l }
    predicate Bull() { c > o }
    predicate Bear() { c < o }
    predicate WellFormed() { l <= Bot() && Top() <= h }
  }

  predicate AllWellFormed(bars: seq<Bar>) {
    forall i :: 0 <= i < |bars| ==> bars[i].WellFormed()
  }

  function Abs(x: real): real {
    if x < 0.0 then -x else x
  }

  function Max(x: real, y: real): real {
    if x > y then x else y
  }

  function Min(x: real, y: real): real {
    if x < y then x else y
  }

  // ---------------------------------------------------------------- ATR

  function TrueRange(bars: seq<Bar>, i: nat): real
    requires i < |bars|
  {
    var b := bars[i];
    if i == 0 then b.Range()
    else
      var pc := bars[i - 1].c;
      Max(Max(b.h - b.l, Abs(b.h - pc)), Abs(b.l - pc))
  }

  /** The true ranges of bars lo..hi. */
  function TrueRanges(bars: seq<Bar>, lo: nat, hi: nat): seq<real>
    requires lo <= hi <= |bars|
    decreases hi
  {
    if lo == hi then [] else TrueRanges(bars, lo, hi - 1) + [TrueRange(bars, hi - 1)]
  }

  function Sum(xs: seq<real>): real {
    if xs == [] then 0.0 else Sum(xs[..|xs| - 1]) + xs[|xs| - 1]
  }

  /** Mean of the last n true ranges of the given bars; the first bar's range is used only when it is alone. */
  function Atr(bars: seq<Bar>, n: nat): real
    requires n >= 1
  {
    if bars == [] then 0.0
    else
      var k := if |bars| > 1 then if n < |bars| - 1 then n else |bars| - 1 else 1;
      Sum(TrueRanges(bars, |bars| - k, |bars|)) / k as real
  }

  lemma {:induction false} TrueRangesCut(bars: seq<Bar>, lo: nat, hi: nat, m: nat)
    requires lo <= hi <= m <= |bars|
    ensures TrueRanges(bars[..m], lo, hi) == TrueRanges(bars, lo, hi)
    decreases hi
  {
    if lo < hi {
      TrueRangesCut(bars, lo, hi - 1, m);
      assert bars[..m][hi - 1] == bars[hi - 1];
      assert hi >= 2 ==> bars[..m][hi - 2] == bars[hi - 2];
    }
  }

  lemma {:induction false} TrueRangesDrop(bars: seq<Bar>, lo: nat, hi: nat)
    requires lo < hi <= |bars|
    ensures TrueRanges(bars, lo, hi) == [TrueRange(bars, lo)] + TrueRanges(bars, lo + 1, hi)
    decreases hi
  {
    if lo + 1 < hi {
      TrueRangesDrop(bars, lo, hi - 1);
    }
  }

  lemma {:induction false} SumDrop(xs: seq<real>)
    requires xs != []
    ensures Sum(xs) == xs[0] + Sum(xs[1..])
  {
    if |xs| > 1 {
      var n := |xs| - 1;
      SumDrop(xs[..n]);
      assert xs[..n][1..] == xs[1..][..n - 1];
    } else {
      assert xs[..0] == [] && xs[1..] == [];
    }
  }

  /** Where the window that ends before bar i begins: at most n ranges, never the first of a longer series. */
  function WindowStart(bars: seq<Bar>, n: nat, i: nat): nat
    requires n >= 1
  {
    var first := if |bars| > 1 then 1 else 0;
    if i - first > n then i - n else first
  }

  /** The sliding window gives, for every bar, the ATR of the bars known at its close. */
  method AtrSeries(bars: seq<Bar>, n: nat) returns (out: seq<real>)
    requires n >= 1
    ensures |out| == |bars|
    ensures forall i :: 0 <= i < |bars| ==> out[i] == Atr(bars[..i + 1], n)
  {
    hide Atr, Sum, TrueRange;
    out := [];
    var window: seq<real>, s := [], 0.0;
    NoSum();
    for i := 0 to |bars|
      invariant |out| == i
      invariant forall k :: 0 <= k < i ==> out[k] == Atr(bars[..k + 1], n)
      invariant WindowStart(bars, n, i) <= i ==> window == TrueRanges(bars, WindowStart(bars, n, i), i)
      invariant WindowStart(bars, n, i) > i ==> window == []
      invariant s == Sum(window)
    {
      var tr := TrueRange(bars, i);
      if i == 0 && |bars| > 1 {
        out := out + [tr];
        AtrOfOne(bars, n);
        continue;
      }
      WindowGrows(bars, n, i, window);
      SumAppend(window, tr);
      window := window + [tr];
      s := s + tr;
      if |window| > n {
        SumDrop(window);
        s := s - window[0];
        window := window[1..];
      }
      AtrOfWindow(bars, n, i, window, s);
      out := out + [s / |window| as real];
    }
  }

  lemma NoSum()
    ensures Sum([]) == 0.0
  {
  }

  lemma SumAppend(xs: seq<real>, x: real)
    ensures Sum(xs + [x]) == Sum(xs) + x
  {
    assert (xs + [x])[..|xs|] == xs;
  }

  lemma {:induction false} TrueRangesLength(bars: seq<Bar>, lo: nat, hi: nat)
    requires lo <= hi <= |bars|
    ensures |TrueRanges(bars, lo, hi)| == hi - lo
    decreases hi
  {
    if lo < hi {
      TrueRangesLength(bars, lo, hi - 1);
    }
  }

  lemma WindowGrows(bars: seq<Bar>, n: nat, i: nat, window: seq<real>)
    requires n >= 1 && i < |bars| && (i > 0 || |bars| == 1)
    requires window == TrueRanges(bars, WindowStart(bars, n, i), i)
    ensures var w := window + [TrueRange(bars, i)];
            && |w| >= 1
            && TrueRanges(bars, WindowStart(bars, n, i + 1), i + 1) == if |w| > n then w[1..] else w
  {
    var lo := WindowStart(bars, n, i);
    TrueRangesLength(bars, lo, i);
    if i - lo >= n {
      TrueRangesDrop(bars, lo, i + 1);
    }
  }

  lemma AtrOfOne(bars: seq<Bar>, n: nat)
    requires n >= 1 && |bars| > 1
    ensures Atr(bars[..1], n) == TrueRange(bars, 0)
  {
    var one := bars[..1];
    assert TrueRanges(one, 0, 1) == TrueRanges(one, 0, 0) + [TrueRange(one, 0)];
    SumDrop([TrueRange(one, 0)]);
  }

  lemma AtrOfWindow(bars: seq<Bar>, n: nat, i: nat, window: seq<real>, s: real)
    requires n >= 1 && i < |bars| && (i > 0 || |bars| == 1)
    requires window == TrueRanges(bars, WindowStart(bars, n, i + 1), i + 1) && s == Sum(window)
    ensures |window| >= 1 && s / |window| as real == Atr(bars[..i + 1], n)
  {
    var lo := WindowStart(bars, n, i + 1);
    TrueRangesLength(bars, lo, i + 1);
    TrueRangesCut(bars, lo, i + 1, i + 1);
  }

  // ---------------------------------------------------------------- swings and structure

  predicate SwingHigh(bars: seq<Bar>, i: int) {
    1 <= i < |bars| - 1 && bars[i].h > bars[i - 1].h && bars[i].h > bars[i + 1].h
  }

  predicate SwingLow(bars: seq<Bar>, i: int) {
    1 <= i < |bars| - 1 && bars[i].l < bars[i - 1].l && bars[i].l < bars[i + 1].l
  }

  datatype Break = Break(idx: nat, side: Side, level: real, swing: nat)

  /** The latest swing high that bar i - 1 had confirmed. */
  function LatestHigh(bars: seq<Bar>, i: nat): Option<nat> {
    if i < 3 then None else if SwingHigh(bars, i - 2) then Some(i - 2) else LatestHigh(bars, i - 1)
  }

  function LatestLow(bars: seq<Bar>, i: nat): Option<nat> {
    if i < 3 then None else if SwingLow(bars, i - 2) then Some(i - 2) else LatestLow(bars, i - 1)
  }

  predicate ClosedAbove(bars: seq<Bar>, s: nat, i: nat) {
    s < |bars| && exists k :: s + 2 <= k < i && k < |bars| && bars[k].c > bars[s].h
  }

  predicate ClosedBelow(bars: seq<Bar>, s: nat, i: nat) {
    s < |bars| && exists k :: s + 2 <= k < i && k < |bars| && bars[k].c < bars[s].l
  }

  /** The swing still waiting for a close beyond it when bar i is looked at. */
  function PendingHigh(bars: seq<Bar>, i: nat): Option<nat> {
    var s := LatestHigh(bars, i);
    if s.Some? && !ClosedAbove(bars, s.value, i) then s else None
  }

  function PendingLow(bars: seq<Bar>, i: nat): Option<nat> {
    var s := LatestLow(bars, i);
    if s.Some? && !ClosedBelow(bars, s.value, i) then s else None
  }

  function BreaksAt(bars: seq<Bar>, i: nat): seq<Break>
    requires i < |bars|
  {
    LatestHighIs(bars, i);
    LatestLowIs(bars, i);
    var high, low := PendingHigh(bars, i), PendingLow(bars, i);
    (if high.Some? && bars[i].c > bars[high.value].h then [Break(i, Buy, bars[high.value].h, high.value)] else [])
    + (if low.Some? && bars[i].c < bars[low.value].l then [Break(i, Sell, bars[low.value].l, low.value)] else [])
  }

  /** The breaks of the first n bars in bar order. */
  function Breaks(bars: seq<Bar>, n: nat): seq<Break>
    requires n <= |bars|
  {
    if n == 0 then [] else Breaks(bars, n - 1) + BreaksAt(bars, n - 1)
  }

  lemma {:induction false} LatestHighIs(bars: seq<Bar>, i: nat)
    ensures LatestHigh(bars, i).Some? ==> var s := LatestHigh(bars, i).value;
              s + 2 <= i && SwingHigh(bars, s) && forall r :: s < r <= i - 2 ==> !SwingHigh(bars, r)
    ensures LatestHigh(bars, i).None? ==> forall r :: r <= i - 2 ==> !SwingHigh(bars, r)
  {
    if i >= 3 {
      LatestHighIs(bars, i - 1);
    }
  }

  lemma {:induction false} LatestLowIs(bars: seq<Bar>, i: nat)
    ensures LatestLow(bars, i).Some? ==> var s := LatestLow(bars, i).value;
              s + 2 <= i && SwingLow(bars, s) && forall r :: s < r <= i - 2 ==> !SwingLow(bars, r)
    ensures LatestLow(bars, i).None? ==> forall r :: r <= i - 2 ==> !SwingLow(bars, r)
  {
    if i >= 3 {
      LatestLowIs(bars, i - 1);
    }
  }

  /** Every close past the latest confirmed swing that no close had passed before. */
  method StructureBreaks(bars: seq<Bar>) returns (out: seq<Break>)
    ensures out == Breaks(bars, |bars|)
  {
    hide SwingHigh, SwingLow, ClosedAbove, ClosedBelow;
    out := [];
    var lastHigh: Option<nat>, lastLow: Option<nat> := None, None;
    for i := 0 to |bars|
      invariant out == Breaks(bars, i)
      invariant lastHigh == PendingHigh(bars, i) && lastLow == PendingLow(bars, i)
    {
      LatestHighIs(bars, i);
      LatestLowIs(bars, i);
      PendingStep(bars, i);
      var before := out;
      if lastHigh.Some? && bars[i].c > bars[lastHigh.value].h {
        out := out + [Break(i, Buy, bars[lastHigh.value].h, lastHigh.value)];
        lastHigh := None;
      }
      if lastLow.Some? && bars[i].c < bars[lastLow.value].l {
        out := out + [Break(i, Sell, bars[lastLow.value].l, lastLow.value)];
        lastLow := None;
      }
      assert out == before + BreaksAt(bars, i);
      // bar i - 1 has a bar on either side now
      if SwingHigh(bars, i - 1) {
        lastHigh := Some(i - 1);
      }
      if SwingLow(bars, i - 1) {
        lastLow := Some(i - 1);
      }
    }
  }

  lemma PendingStep(bars: seq<Bar>, i: nat)
    requires i < |bars|
    ensures PendingHigh(bars, i + 1) ==
      if SwingHigh(bars, i - 1) then Some(i - 1)
      else
        (LatestHighIs(bars, i);
         var h := PendingHigh(bars, i); if h.Some? && bars[i].c > bars[h.value].h then None else h)
    ensures PendingLow(bars, i + 1) ==
      if SwingLow(bars, i - 1) then Some(i - 1)
      else
        (LatestLowIs(bars, i);
         var l := PendingLow(bars, i); if l.Some? && bars[i].c < bars[l.value].l then None else l)
  {
    LatestHighIs(bars, i);
    LatestLowIs(bars, i);
    var h, l := LatestHigh(bars, i), LatestLow(bars, i);
    if h.Some? {
      assert ClosedAbove(bars, h.value, i + 1) <==> ClosedAbove(bars, h.value, i) || bars[i].c > bars[h.value].h;
    }
    if l.Some? {
      assert ClosedBelow(bars, l.value, i + 1) <==> ClosedBelow(bars, l.value, i) || bars[i].c < bars[l.value].l;
    }
  }

  /** Bar i closes above the latest swing high confirmed before it, and no close since the confirmation did. */
  ghost predicate BuyBreak(bars: seq<Bar>, i: nat, s: nat) {
    && i < |bars| && s + 2 <= i
    && SwingHigh(bars, s) && (forall r :: s < r <= i - 2 ==> !SwingHigh(bars, r))
    && bars[i].c > bars[s].h
    && (forall k :: s + 2 <= k < i ==> bars[k].c <= bars[s].h)
  }

  ghost predicate SellBreak(bars: seq<Bar>, i: nat, s: nat) {
    && i < |bars| && s + 2 <= i
    && SwingLow(bars, s) && (forall r :: s < r <= i - 2 ==> !SwingLow(bars, r))
    && bars[i].c < bars[s].l
    && (forall k :: s + 2 <= k < i ==> bars[k].c >= bars[s].l)
  }

  ghost predicate IsBreak(bars: seq<Bar>, k: Break) {
    match k.side
    case Buy => BuyBreak(bars, k.idx, k.swing) && k.level == bars[k.swing].h
    case Sell => SellBreak(bars, k.idx, k.swing) && k.level == bars[k.swing].l
  }

  lemma BuyBreakAt(bars: seq<Bar>, i: nat, s: nat)
    requires i < |bars|
    ensures PendingHigh(bars, i) == Some(s) && s < |bars| && bars[i].c > bars[s].h <==> BuyBreak(bars, i, s)
  {
    LatestHighIs(bars, i);
    if BuyBreak(bars, i, s) {
      assert LatestHigh(bars, i) == Some(s);
    }
  }

  lemma SellBreakAt(bars: seq<Bar>, i: nat, s: nat)
    requires i < |bars|
    ensures PendingLow(bars, i) == Some(s) && s < |bars| && bars[i].c < bars[s].l <==> SellBreak(bars, i, s)
  {
    LatestLowIs(bars, i);
    if SellBreak(bars, i, s) {
      assert LatestLow(bars, i) == Some(s);
    }
  }

  lemma BreaksAtExact(bars: seq<Bar>, i: nat, k: Break)
    requires i < |bars|
    ensures k in BreaksAt(bars, i) <==> k.idx == i && IsBreak(bars, k)
  {
    LatestHighIs(bars, i);
    LatestLowIs(bars, i);
    if k.side == Buy {
      BuyBreakAt(bars, i, k.swing);
    } else {
      SellBreakAt(bars, i, k.swing);
    }
  }

  /** The report is exact: nothing else, nothing missed. */
  lemma {:induction false} BreaksExact(bars: seq<Bar>, n: nat, k: Break)
    requires n <= |bars|
    ensures k in Breaks(bars, n) <==> k.idx < n && IsBreak(bars, k)
  {
    if n > 0 {
      BreaksExact(bars, n - 1, k);
      BreaksAtExact(bars, n - 1, k);
    }
  }

  /** On well-formed bars no bar breaks both ways. */
  lemma NoBarBreaksBothWays(bars: seq<Bar>, i: nat, s: nat, r: nat)
    requires AllWellFormed(bars) && BuyBreak(bars, i, s)
    ensures !SellBreak(bars, i, r)
  {
    if r + 2 <= i && SwingLow(bars, r) {
      assert bars[s].WellFormed() && bars[r].WellFormed();
      if s + 2 <= r {
        assert bars[r].l <= bars[r].c <= bars[s].h;
      } else if r + 2 <= s {
        assert bars[s].c >= bars[r].l ==> bars[r].l <= bars[s].h;
      } else {
        assert bars[r].l <= bars[s].h;
      }
    }
  }

  /** No repainting: what is reported on a prefix is what the full series reports with an index in it. */
  lemma {:induction false} NoRepaint(bars: seq<Bar>, n: nat, m: nat)
    requires m <= n <= |bars|
    ensures Breaks(bars[..n], m) == Breaks(bars, m)
  {
    if m > 0 {
      NoRepaint(bars, n, m - 1);
      BreaksAtCut(bars, n, m - 1);
    }
  }

  lemma BreaksAtCut(bars: seq<Bar>, n: nat, i: nat)
    requires i < n <= |bars|
    ensures BreaksAt(bars[..n], i) == BreaksAt(bars, i)
  {
    LatestCut(bars, n, i);
    LatestHighIs(bars, i);
    LatestLowIs(bars, i);
  }

  lemma {:induction false} LatestCut(bars: seq<Bar>, n: nat, i: nat)
    requires i < n <= |bars|
    ensures LatestHigh(bars[..n], i) == LatestHigh(bars, i) && LatestLow(bars[..n], i) == LatestLow(bars, i)
    ensures PendingHigh(bars[..n], i) == PendingHigh(bars, i) && PendingLow(bars[..n], i) == PendingLow(bars, i)
  {
    if i >= 3 {
      LatestCut(bars, n, i - 1);
    }
    LatestHighIs(bars, i);
    LatestLowIs(bars, i);
    var h, l := LatestHigh(bars, i), LatestLow(bars, i);
    if h.Some? {
      assert ClosedAbove(bars[..n], h.value, i) <==> ClosedAbove(bars, h.value, i);
    }
    if l.Some? {
      assert ClosedBelow(bars[..n], l.value, i) <==> ClosedBelow(bars, l.value, i);
    }
  }
}
