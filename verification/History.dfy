/** Candle history: chunked and paged range queries, and the cache that is merged with them. */
module History {
  import opened Primitives
  import opened Feeds

  const WINDOW := 2592000  // 720 h

  // ---------------------------------------------------------------- ascending bars

  /** Two ascending series with the same bars are the same series. */
  lemma {:induction false} SameAscending(a: seq<Bar>, b: seq<Bar>)
    requires Sorted(a) && Sorted(b) && forall x :: x in a <==> x in b
    ensures a == b
  {
    HeadIn(a);
    HeadIn(b);
    if a != [] {
      var i, j := |a| - 1, |b| - 1;
      LastsAgree(a, b);
      assert a == Front(a) + [a[i]] && b == Front(b) + [b[j]];
      SameAscending(Front(a), Front(b));
    }
  }

  lemma LastsAgree(a: seq<Bar>, b: seq<Bar>)
    requires Sorted(a) && Sorted(b) && a != [] && b != [] && forall x :: x in a <==> x in b
    ensures a[|a| - 1] == b[|b| - 1]
    ensures Sorted(Front(a)) && Sorted(Front(b)) && forall x :: x in Front(a) <==> x in Front(b)
  {
    assert a[|a| - 1] in b && b[|b| - 1] in a;
    forall x
      ensures x in Front(a) <==> x in Front(b)
    {
      WithoutLast(a, x);
      WithoutLast(b, x);
    }
  }

  lemma HeadIn(a: seq<Bar>)
    ensures a == [] || exists x :: x in a
  {
    if a != [] {
      assert a[0] in a;
    }
  }

  lemma WithoutLast(a: seq<Bar>, x: Bar)
    requires Sorted(a) && a != []
    ensures x in Front(a) <==> x in a && x.t < a[|a| - 1].t
  {
    assert a == Front(a) + [a[|a| - 1]];
  }

  function Front(a: seq<Bar>): seq<Bar>
    requires a != []
  {
    a[..|a| - 1]
  }

  /** The bars opening in [lo, hi). */
  function InRange(bars: seq<Bar>, lo: int, hi: int): seq<Bar> {
    if bars == [] then []
    else
      var b := bars[|bars| - 1];
      InRange(bars[..|bars| - 1], lo, hi) + if lo <= b.t < hi then [b] else []
  }

  lemma {:induction false} InRangeIs(bars: seq<Bar>, lo: int, hi: int)
    requires Sorted(bars)
    ensures Sorted(InRange(bars, lo, hi))
    ensures forall x :: x in InRange(bars, lo, hi) <==> x in bars && lo <= x.t < hi
  {
    if bars != [] {
      var n := |bars| - 1;
      InRangeIs(bars[..n], lo, hi);
      assert bars == bars[..n] + [bars[n]];
      assert forall x :: x in bars[..n] ==> x.t < bars[n].t;
    }
  }

  // ---------------------------------------------------------------- a dictionary by open time

  ghost predicate Keyed(m: map<int, Bar>) {
    forall t :: t in m ==> m[t].t == t
  }

  lemma {:induction false} EarliestKey(keys: set<int>)
    requires keys != {}
    ensures exists t :: IsEarliest(keys, t)
  {
    SomeKey(keys);
    var x: int :| x in keys;
    var rest := keys - {x};
    assert forall u :: u in keys ==> u == x || u in rest;
    if rest == {} {
      assert IsEarliest(keys, x);
    } else {
      EarliestKey(rest);
      var y :| IsEarliest(rest, y);
      assert IsEarliest(keys, if x < y then x else y);
    }
  }

  lemma SomeKey(keys: set<int>)
    ensures keys == {} || exists t: int :: t in keys
  {
    if forall t: int :: t !in keys {
      assert keys == {};
    }
  }

  predicate IsEarliest(keys: set<int>, t: int) {
    t in keys && forall u :: u in keys ==> t <= u
  }

  function Earliest(keys: set<int>): (t: int)
    requires keys != {}
    ensures IsEarliest(keys, t)
  {
    EarliestKey(keys);
    var t :| IsEarliest(keys, t);
    t
  }

  /** The values in the order of their keys. */
  function InOrder(m: map<int, Bar>): seq<Bar>
    decreases |m.Keys|
  {
    if m.Keys == {} then []
    else
      var t := Earliest(m.Keys);
      assert (m - {t}).Keys == m.Keys - {t};
      [m[t]] + InOrder(m - {t})
  }

  lemma {:induction false} InOrderIs(m: map<int, Bar>)
    requires Keyed(m)
    ensures Sorted(InOrder(m))
    ensures forall x :: x in InOrder(m) <==> x.t in m && m[x.t] == x
    decreases |m.Keys|
  {
    if m.Keys != {} {
      var t := Earliest(m.Keys);
      var rest := m - {t};
      assert rest.Keys == m.Keys - {t};
      InOrderIs(rest);
      assert InOrder(m) == [m[t]] + InOrder(rest);
      FirstOf(m, t, InOrder(rest));
    }
  }

  lemma FirstOf(m: map<int, Bar>, t: int, rest: seq<Bar>)
    requires Keyed(m) && IsEarliest(m.Keys, t) && Sorted(rest)
    requires forall x :: x in rest <==> x.t in m && x.t != t && m[x.t] == x
    ensures Sorted([m[t]] + rest)
    ensures forall x :: x in [m[t]] + rest <==> x.t in m && m[x.t] == x
  {
    assert forall k :: 0 <= k < |rest| ==> rest[k] in rest;
  }

  /** The bars enter the map, the later one winning. */
  function PutAll(m: map<int, Bar>, bars: seq<Bar>): map<int, Bar> {
    if bars == [] then m
    else
      var b := bars[|bars| - 1];
      PutAll(m, bars[..|bars| - 1])[b.t := b]
  }

  predicate Opens(bars: seq<Bar>, t: int) {
    exists k :: 0 <= k < |bars| && bars[k].t == t
  }

  /** A bar put replaces what was there; everything else stays. */
  lemma {:induction false} PutAllIs(m: map<int, Bar>, bars: seq<Bar>, t: int)
    ensures t in PutAll(m, bars) <==> t in m || Opens(bars, t)
    ensures Opens(bars, t) ==> PutAll(m, bars)[t] in bars && PutAll(m, bars)[t].t == t
    ensures t in m && !Opens(bars, t) ==> PutAll(m, bars)[t] == m[t]
  {
    if bars != [] {
      var n := |bars| - 1;
      PutAllIs(m, bars[..n], t);
      assert bars == bars[..n] + [bars[n]];
    }
  }

  method Put(m: map<int, Bar>, bars: seq<Bar>) returns (r: map<int, Bar>)
    ensures r == PutAll(m, bars)
  {
    r := m;
    for n := 0 to |bars|
      invariant r == PutAll(m, bars[..n])
    {
      assert bars[..n + 1][..n] == bars[..n];
      r := r[bars[n].t := bars[n]];
    }
    assert bars[..|bars|] == bars;
  }

  // ---------------------------------------------------------------- the server

  /** A server that pages in ascending order and tells truthfully whether more is left. */
  class Server {
    const bars: seq<Bar>

    ghost predicate Valid() {
      Sorted(bars)
    }

    constructor (bars: seq<Bar>)
      requires Sorted(bars)
      ensures Valid() && this.bars == bars
    {
      this.bars := bars;
    }

    method Page(lo: int, hi: int) returns (page: seq<Bar>, hasMore: bool)
      requires Valid()
      ensures page <= InRange(bars, lo, hi)
      ensures page == [] ==> InRange(bars, lo, hi) == []
      ensures hasMore <==> page != InRange(bars, lo, hi)
    {
      var all := InRange(bars, lo, hi);
      var size :| 0 <= size <= |all| && (size == 0 ==> all == []);
      page := all[..size];
      hasMore := |page| < |all|;
    }
  }

  // ---------------------------------------------------------------- range queries

  /** Every bar of the server opening in [lo, hi) is in the dictionary as it is. */
  ghost predicate Has(m: map<int, Bar>, bars: seq<Bar>, lo: int, hi: int) {
    forall b :: b in bars && lo <= b.t < hi ==> b.t in m
  }

  ghost predicate From(m: map<int, Bar>, bars: seq<Bar>) {
    Keyed(m) && forall t :: t in m ==> m[t] in bars
  }

  /** The server's bars in [lo, hi), each once and ascending, however the server pages. */
  method TrendBars(server: Server, lo: int, hi: int) returns (out: seq<Bar>)
    requires server.Valid()
    ensures out == InRange(server.bars, lo, hi)
  {
    var m: map<int, Bar> := map[];
    var start := lo;
    while start < hi
      invariant From(m, server.bars) && Has(m, server.bars, lo, if start < hi then start else hi)
      invariant lo <= start
      decreases hi - start
    {
      var end := if hi < start + WINDOW then hi else start + WINDOW;
      m := Window(server, lo, start, end, m);
      start := end;
    }
    out := Cut(server.bars, m, lo, hi);
  }

  /** One window of at most 720 h, page by page. */
  method Window(server: Server, lo: int, start: int, end: int, m: map<int, Bar>) returns (r: map<int, Bar>)
    requires server.Valid() && lo <= start < end && From(m, server.bars) && Has(m, server.bars, lo, start)
    ensures From(r, server.bars) && Has(r, server.bars, lo, end)
  {
    r := m;
    var cursor := start;
    while true
      invariant start <= cursor < end && From(r, server.bars) && Has(r, server.bars, lo, cursor)
      decreases end - cursor
    {
      var page, more := server.Page(cursor, end);
      InRangeIs(server.bars, cursor, end);
      PageCovers(server.bars, page, cursor, end);
      PageAdds(server.bars, r, page, lo, cursor);
      r := Put(r, page);
      if !more || page == [] || page[|page| - 1].t + 1 >= end {
        return;
      }
      cursor := page[|page| - 1].t + 1;
    }
  }

  /** A page holds every bar up to its last one. */
  lemma PageCovers(bars: seq<Bar>, page: seq<Bar>, lo: int, hi: int)
    requires Sorted(bars) && page <= InRange(bars, lo, hi)
    ensures Sorted(page) && forall b :: b in page ==> b in bars && lo <= b.t < hi
    ensures page != [] ==> forall b :: b in bars && lo <= b.t <= page[|page| - 1].t ==> b in page
  {
    InRangeIs(bars, lo, hi);
    var all := InRange(bars, lo, hi);
    if page != [] {
      forall b | b in bars && lo <= b.t <= page[|page| - 1].t
        ensures b in page
      {
        var k :| 0 <= k < |all| && all[k] == b;
        assert k < |page|;
        assert page[k] == b;
      }
    }
  }

  /** Putting a page in keeps the dictionary true to the server and reaches past the page's last bar. */
  lemma PageAdds(bars: seq<Bar>, m: map<int, Bar>, page: seq<Bar>, lo: int, cursor: int)
    requires From(m, bars) && Has(m, bars, lo, cursor) && forall b :: b in page ==> b in bars
    ensures From(PutAll(m, page), bars) && Has(PutAll(m, page), bars, lo, cursor)
    ensures forall b :: b in page ==> b.t in PutAll(m, page)
  {
    hide PutAll;
    forall t: int
      ensures t in PutAll(m, page) <==> t in m || Opens(page, t)
      ensures t in PutAll(m, page) ==> PutAll(m, page)[t] in bars && PutAll(m, page)[t].t == t
    {
      PutAllIs(m, page, t);
    }
  }

  method Cut(ghost bars: seq<Bar>, m: map<int, Bar>, lo: int, hi: int) returns (out: seq<Bar>)
    requires Sorted(bars) && From(m, bars) && Has(m, bars, lo, hi)
    ensures out == InRange(bars, lo, hi)
  {
    out := InRange(InOrder(m), lo, hi);
    InOrderIs(m);
    InRangeIs(InOrder(m), lo, hi);
    InRangeIs(bars, lo, hi);
    forall x
      ensures x in out <==> x in InRange(bars, lo, hi)
    {
      if x in bars && lo <= x.t < hi {
        OneAt(bars, x, m[x.t]);
      }
    }
    SameAscending(out, InRange(bars, lo, hi));
  }

  lemma OneAt(bars: seq<Bar>, x: Bar, y: Bar)
    requires Sorted(bars) && x in bars && y in bars && x.t == y.t
    ensures x == y
  {
  }
}
