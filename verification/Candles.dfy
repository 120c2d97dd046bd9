/** The candle cache of one symbol and timeframe. */
module Candles {
  import opened Trades
  import opened Primitives
  import opened Feeds
  import opened History

  /** Closed bars never change; the forming one, the last, keeps its open time; bars are appended. */
  ghost predicate Later(was: seq<Bar>, now: seq<Bar>) {
    && |was| <= |now|
    && (forall k :: 0 <= k < |was| - 1 ==> now[k] == was[k])
    && (was != [] ==> now[|was| - 1].t == was[|was| - 1].t)
  }

  /** The last bars of s, each as it is and none left out. */
  ghost predicate Tail(have: seq<Bar>, s: seq<Bar>) {
    |have| <= |s| && have == s[|s| - |have|..]
  }

  function LastOf(bars: seq<Bar>, n: nat): seq<Bar> {
    if |bars| > n then bars[|bars| - n..] else bars
  }

  /** {cached} updated with {fetched}, in order, trimmed. */
  function Merge(have: seq<Bar>, fetched: seq<Bar>, limit: nat): seq<Bar> {
    LastOf(InOrder(PutAll(PutAll(map[], have), fetched)), limit)
  }

  lemma TrimmedTail(have: seq<Bar>, s: seq<Bar>, n: nat)
    requires Tail(have, s)
    ensures Tail(LastOf(have, n), s)
  {
  }

  lemma InRangeTail(s: seq<Bar>, i: nat, lo: int, hi: int)
    requires Sorted(s) && i <= |s|
    requires forall k :: 0 <= k < |s| ==> s[k].t < hi && (s[k].t >= lo <==> k >= i)
    ensures InRange(s, lo, hi) == s[i..]
  {
    InRangeIs(s, lo, hi);
    forall x
      ensures x in InRange(s, lo, hi) <==> x in s[i..]
    {
      if x in s && lo <= x.t {
        var k :| 0 <= k < |s| && s[k] == x;
        assert s[i..][k - i] == x;
      }
    }
    SameAscending(InRange(s, lo, hi), s[i..]);
  }

  /** A range query that starts at the open time of a bar returns the bars from that one on. */
  lemma RangeFrom(s: seq<Bar>, i: nat, hi: int)
    requires Sorted(s) && i < |s| && forall k :: 0 <= k < |s| ==> s[k].t < hi
    ensures InRange(s, s[i].t, hi) == s[i..]
  {
    InRangeTail(s, i, s[i].t, hi);
  }

  /** A range query returns a tail when nothing opens after it. */
  lemma RangeIsTail(s: seq<Bar>, lo: int, hi: int) returns (i: nat)
    requires Sorted(s) && forall k :: 0 <= k < |s| ==> s[k].t < hi
    ensures i <= |s| && InRange(s, lo, hi) == s[i..] && forall k :: 0 <= k < |s| ==> (s[k].t >= lo <==> k >= i)
  {
    i := AtOrAfter(s, lo);
    assert forall k :: i <= k < |s| ==> s[i].t <= s[k].t;
    InRangeTail(s, i, lo, hi);
  }

  /** The cached bars i..j are what the server has now. */
  ghost predicate Agree(was: seq<Bar>, s: seq<Bar>, i: nat, j: nat) {
    forall k :: i <= k < j ==> k < |was| && k < |s| && was[k] == s[k]
  }

  lemma InTail(s: seq<Bar>, i: nat, x: Bar)
    requires i <= |s|
    ensures x in s[i..] <==> exists k :: i <= k < |s| && s[k] == x
  {
    if x in s[i..] {
      var k :| 0 <= k < |s[i..]| && s[i..][k] == x;
      assert s[i + k] == x;
    }
    forall k | i <= k < |s| && s[k] == x
      ensures x in s[i..]
    {
      assert s[i..][k - i] == x;
    }
  }

  lemma TailOpens(s: seq<Bar>, i: nat, k: nat)
    requires i <= |s| && k < |s|
    ensures k >= i ==> Opens(s[i..], s[k].t)
    ensures Sorted(s) && k < i ==> !Opens(s[i..], s[k].t)
  {
    if k >= i {
      assert s[i..][k - i] == s[k];
    }
  }

  /** Cached bars before index j as the server has them now, fetched ones from j on: together a tail. */
  lemma MergeOfTails(s: seq<Bar>, have: seq<Bar>, fetched: seq<Bar>, i: nat, j: nat, was: seq<Bar>)
    requires Sorted(s) && Sorted(was) && Later(was, s) && i <= |was| && have == was[i..]
    requires j <= |s| && fetched == s[j..] && Agree(was, s, i, j)
    ensures InOrder(PutAll(PutAll(map[], have), fetched)) == s[(if i < j then i else j)..]
  {
    hide Agree, Later, Sorted, PutAll, InOrder;
    var m := PutAll(PutAll(map[], have), fetched);
    var low := if i < j then i else j;
    forall t: int
      ensures MergedAt(m, have, fetched, t)
    {
      PutAllIs(map[], have, t);
      PutAllIs(PutAll(map[], have), fetched, t);
    }
    forall t | t in m
      ensures m[t].t == t
    {
      assert MergedAt(m, have, fetched, t);
    }
    InOrderIs(m);
    forall x
      ensures x in InOrder(m) <==> x in s[low..]
    {
      assert MergedAt(m, have, fetched, x.t);
      KeptOrFetched(s, was, i, j, m, x);
      TailIsMerged(s, was, i, j, m, x);
    }
    TailSorted(s, low);
    SameAscending(InOrder(m), s[low..]);
  }

  lemma TailSorted(s: seq<Bar>, low: nat)
    requires Sorted(s) && low <= |s|
    ensures Sorted(s[low..])
  {
  }

  /** A fetched bar wins over a cached one of the same open time. */
  ghost predicate MergedAt(m: map<int, Bar>, have: seq<Bar>, fetched: seq<Bar>, t: int) {
    && (t in m <==> Opens(have, t) || Opens(fetched, t))
    && (t in m ==> m[t].t == t && if Opens(fetched, t) then m[t] in fetched else m[t] in have)
  }

  lemma TailIsMerged(s: seq<Bar>, was: seq<Bar>, i: nat, j: nat, m: map<int, Bar>, x: Bar)
    requires Sorted(s) && Sorted(was) && i <= |was| && j <= |s| && Agree(was, s, i, j)
    requires MergedAt(m, was[i..], s[j..], x.t)
    ensures x in s[(if i < j then i else j)..] ==> x.t in m && m[x.t] == x
  {
    hide Sorted, Opens;
    var low := if i < j then i else j;
    InTail(s, low, x);
    if x in s[low..] {
      var k :| low <= k < |s| && s[k] == x;
      TailOpens(s, j, k);
      if k >= j {
        InTail(s, j, m[x.t]);
        OneAt(s, x, m[x.t]);
      } else {
        TailOpens(was, i, k);
        InTail(was, i, m[x.t]);
        OneAt(was, x, m[x.t]);
      }
    }
  }

  lemma KeptOrFetched(s: seq<Bar>, was: seq<Bar>, i: nat, j: nat, m: map<int, Bar>, x: Bar)
    requires Later(was, s) && i <= |was| && j <= |s| && Agree(was, s, i, j)
    requires MergedAt(m, was[i..], s[j..], x.t)
    ensures x.t in m && m[x.t] == x ==> x in s[(if i < j then i else j)..]
  {
    hide Opens;
    var low := if i < j then i else j;
    InTail(s, low, x);
    InTail(s, j, x);
    InTail(was, i, x);
    if x.t in m && m[x.t] == x && !Opens(s[j..], x.t) {
      var k :| i <= k < |was| && was[k] == x;
      SameTimes(was, s, k);
      TailOpens(s, j, k);
      assert s[k] == x;
    }
  }

  lemma SameTimes(was: seq<Bar>, now: seq<Bar>, k: nat)
    requires Later(was, now) && k < |was|
    ensures k < |now| && now[k].t == was[k].t
  {
  }

  // ---------------------------------------------------------------- one refresh

  /** What a refresh can rely on: what was cached is re-read from its second last bar on, or at least its only bar. */
  ghost predicate Reaches(have: seq<Bar>, fetched: seq<Bar>, limit: nat) {
    |have| == 1 ==> |fetched| >= limit || (fetched != [] && fetched[0].t <= have[0].t)
  }

  /** Faithful again: a tail of what the server has now. */
  lemma MergeIsTail(seen: seq<Bar>, s: seq<Bar>, have: seq<Bar>, fetched: seq<Bar>, limit: nat)
    requires Sorted(seen) && Sorted(s) && Later(seen, s) && Tail(have, seen) && Tail(fetched, s)
    requires |have| >= 2 ==> fetched == s[|seen| - 2..]
    requires Reaches(have, fetched, limit)
    ensures Tail(Merge(have, fetched, limit), s)
  {
    hide Merge, Sorted;
    var i, j := |seen| - |have|, |s| - |fetched|;
    if have == [] {
      MergeOfTails(s, have, fetched, |s|, j, s);
      MergeByOrder(have, fetched, limit, s, j);
    } else if |have| == 1 {
      if fetched != [] && fetched[0].t <= have[0].t {
        SameTimes(seen, s, i);
        NotAfter(s, j, i);
        MergeOfTails(s, have, fetched, i, j, seen);
        MergeByOrder(have, fetched, limit, s, j);
      } else {
        TailSorted(s, j);
        LoneBarTrimmed(have[0], fetched, limit);
        TrimmedTail(fetched, s, limit);
        assert have == [have[0]];
      }
    } else {
      MergeOfTails(s, have, fetched, i, j, seen);
      MergeByOrder(have, fetched, limit, s, i);
    }
  }

  lemma NotAfter(s: seq<Bar>, j: nat, i: nat)
    requires Sorted(s) && j < |s| && i < |s| && s[j].t <= s[i].t
    ensures j <= i
  {
  }

  lemma MergeByOrder(have: seq<Bar>, fetched: seq<Bar>, limit: nat, s: seq<Bar>, low: nat)
    requires low <= |s| && InOrder(PutAll(PutAll(map[], have), fetched)) == s[low..]
    ensures Tail(Merge(have, fetched, limit), s)
  {
    TrimmedTail(s[low..], s, limit);
  }

  /** A lone cached bar older than a full answer falls to the trim. */
  lemma LoneBarTrimmed(b: Bar, fetched: seq<Bar>, limit: nat)
    requires Sorted(fetched) && |fetched| >= limit && (fetched != [] ==> b.t < fetched[0].t)
    ensures Merge([b], fetched, limit) == LastOf(fetched, limit)
  {
    MergeAfter(b, fetched);
    assert ([b] + fetched)[1..] == fetched;
  }

  lemma MergeAfter(b: Bar, fetched: seq<Bar>)
    requires Sorted(fetched) && (fetched != [] ==> b.t < fetched[0].t)
    ensures InOrder(PutAll(PutAll(map[], [b]), fetched)) == [b] + fetched
  {
    var s := [b] + fetched;
    assert Sorted(s);
    assert [b] == [b][0..] && fetched == s[1..] && s == s[0..];
    MergeOfTails(s, [b], fetched, 0, 1, [b]);
  }

  /** A refresh by range leaves a lone cached bar b a faithful cache of s. */
  ghost predicate RefreshedTo(b: Bar, start: int, hi: int, limit: nat, s: seq<Bar>) {
    Sorted(s) && Later([b], s) && OpenBefore(s, hi) ==> Tail(Merge([b], InRange(s, start, hi), limit), s)
  }

  /** With one cached bar and a range load, the cache is faithful whatever the server did since, exactly when the
      range reaches back to that bar. */
  lemma OnlyBarMustBeReached(b: Bar, start: int, hi: int, limit: nat)
    requires limit >= 1 && b.t < hi
    ensures (forall s :: RefreshedTo(b, start, hi, limit, s)) <==> start <= b.t
  {
    if start <= b.t {
      forall s: seq<Bar>
        ensures RefreshedTo(b, start, hi, limit, s)
      {
        if Sorted(s) && Later([b], s) && OpenBefore(s, hi) {
          hide Merge, Sorted, Later, InRange, Reaches;
          RangeReaches([b], s, [b], start, hi, limit);
          var i := RangeIsTail(s, start, hi);
          MergeIsTail([b], s, [b], InRange(s, start, hi), limit);
        }
      }
    } else {
      LoneBarGoesStale(b, start, hi, limit);
    }
  }

  /** The bar was still forming when it was cached, closed since, and the range starts after it. */
  lemma LoneBarGoesStale(b: Bar, start: int, hi: int, limit: nat)
    requires limit >= 1 && b.t < hi && b.t < start
    ensures !RefreshedTo(b, start, hi, limit, [b.(c := b.c + 1.0)])
  {
    var s := [b.(c := b.c + 1.0)];
    assert s[..0] == [] && InRange(s, start, hi) == [];
    MergeAfter(b, []);
    assert [b] + [] == [b];
    assert Merge([b], [], limit) == [b];
  }

  /** A counted load leaves a lone cached bar b and the last n bars of s a faithful cache of s. */
  ghost predicate CountedTo(b: Bar, n: nat, limit: nat, s: seq<Bar>) {
    Sorted(s) && Later([b], s) && n <= |s| ==> Tail(Merge([b], s[|s| - n..], limit), s)
  }

  /** With one cached bar and a count request answered with n bars, the cache is faithful whatever the server did since,
      exactly when the answer fills the cache. */
  lemma OnlyFullAnswers(b: Bar, n: nat, limit: nat)
    requires limit >= 1
    ensures (forall s :: CountedTo(b, n, limit, s)) <==> n >= limit
  {
    if n >= limit {
      forall s: seq<Bar>
        ensures CountedTo(b, n, limit, s)
      {
        if Sorted(s) && Later([b], s) && n <= |s| {
          hide Merge, Sorted, Later;
          var fetched := s[|s| - n..];
          assert |fetched| >= limit;
          MergeIsTail([b], s, [b], fetched, limit);
        }
      }
    } else {
      ShortAnswerGoesStale(b, n, limit);
    }
  }

  /** n minutes after b. */
  function Following(b: Bar, n: nat): (r: seq<Bar>)
    ensures |r| == n && Sorted(r) && forall k :: 0 <= k < n ==> r[k].t > b.t
  {
    seq(n, k requires 0 <= k < n => b.(t := b.t + 60 * (k + 1)))
  }

  /** The bar was still forming when it was cached, closed since, and the answer stops short of it. */
  lemma ShortAnswerGoesStale(b: Bar, n: nat, limit: nat)
    requires n < limit
    ensures !CountedTo(b, n, limit, [b.(c := b.c + 1.0)] + Following(b, n))
  {
    var closed := b.(c := b.c + 1.0);
    var s := [closed] + Following(b, n);
    assert s[|s| - n..] == Following(b, n) && Sorted(s) && Later([b], s);
    LoneBarStays(b, Following(b, n), limit);
    LoneBarKept(b, Following(b, n), limit, s);
  }

  /** A lone cached bar that the answer neither reaches nor pushes out stays as it is. */
  lemma LoneBarStays(b: Bar, fetched: seq<Bar>, limit: nat)
    requires Sorted(fetched) && !Reaches([b], fetched, limit)
    ensures Merge([b], fetched, limit) == [b] + fetched
  {
    MergeAfter(b, fetched);
  }

  /** b is the server's bar just before those fetched. */
  predicate Precedes(b: Bar, fetched: seq<Bar>, s: seq<Bar>) {
    |fetched| < |s| && s[|s| - |fetched| - 1] == b
  }

  /** Then the cache is faithful exactly when it happens to be what the server has just before the answer. */
  lemma LoneBarKept(b: Bar, fetched: seq<Bar>, limit: nat, s: seq<Bar>)
    requires Sorted(fetched) && Tail(fetched, s) && !Reaches([b], fetched, limit)
    ensures Tail(Merge([b], fetched, limit), s) <==> Precedes(b, fetched, s)
  {
    hide Merge, Reaches, Sorted;
    LoneBarStays(b, fetched, limit);
    var all := [b] + fetched;
    if Precedes(b, fetched, s) {
      assert all == s[|s| - |all|..];
    }
    if Tail(all, s) {
      assert s[|s| - |all|] == all[0];
    }
  }

  lemma RangeReaches(seen: seq<Bar>, s: seq<Bar>, have: seq<Bar>, start: int, hi: int, limit: nat)
    requires Sorted(s) && Later(seen, s) && Tail(have, seen) && |have| == 1 && start <= have[0].t && OpenBefore(s, hi)
    ensures Reaches(have, InRange(s, start, hi), limit)
  {
    var i := RangeIsTail(s, start, hi);
    SameTimes(seen, s, |seen| - 1);
  }

  lemma FullReaches(have: seq<Bar>, fetched: seq<Bar>, limit: nat)
    ensures |fetched| >= limit ==> Reaches(have, fetched, limit)
  {
  }

  lemma NoLoneBar(have: seq<Bar>, fetched: seq<Bar>, limit: nat)
    ensures |have| != 1 ==> Reaches(have, fetched, limit)
  {
  }

  ghost predicate OpenBefore(s: seq<Bar>, hi: int) {
    forall k :: 0 <= k < |s| ==> s[k].t < hi
  }

  class Cache {
    const history: nat
    var have: seq<Bar>
    ghost var seen: seq<Bar>  // the server's bars at the last refresh

    /** Each cached bar is the server's, and none is missing between the first and the last. */
    ghost predicate Faithful()
      reads this
    {
      Sorted(seen) && Tail(have, seen)
    }

    constructor (history: nat)
      ensures Faithful() && this.history == history && have == [] && seen == []
    {
      this.history, have, seen := history, [], [];
    }

    function Limit(): nat {
      history * 6 / 5
    }

    /** The newest bars in one request, at most count of them; None when refused. */
    method LastBars(server: Server, count: nat) returns (r: Option<seq<Bar>>)
      requires server.Valid()
      ensures r.Some? ==> Tail(r.value, server.bars) && |r.value| <= count
    {
      var refused: bool, n: nat := *, *;
      if refused || n > count || n > |server.bars| {
        return None;
      }
      r := Some(server.bars[|server.bars| - n..]);
    }

    /** start is where a first load begins; hi lies past every bar the server has. */
    method Refresh(server: Server, start: int, hi: int) returns (fetched: seq<Bar>, counted: bool)
      requires Faithful() && server.Valid() && Later(seen, server.bars) && OpenBefore(server.bars, hi)
      modifies this
      ensures seen == server.bars && have == Merge(old(have), fetched, Limit())
      ensures |old(have)| != 1 ==> Faithful()
      ensures |old(have)| == 1 ==>
                (Faithful() <==> Reaches(old(have), fetched, Limit()) || Precedes(old(have)[0], fetched, server.bars))
      ensures |old(have)| == 1 && counted && |fetched| >= Limit() ==> Faithful()
      ensures |old(have)| == 1 && !counted && start <= old(have)[0].t ==> Faithful()
    {
      hide Merge, Later, Sorted, InRange, Reaches, Precedes;
      fetched, counted := Fetch(server, start, hi);
      if |have| == 1 && !counted && start <= have[0].t {
        RangeReaches(seen, server.bars, have, start, hi, Limit());
      }
      NoLoneBar(have, fetched, Limit());
      if Reaches(have, fetched, Limit()) {
        MergeIsTail(seen, server.bars, have, fetched, Limit());
      } else {
        assert have == [have[0]];
        TailSorted(server.bars, |server.bars| - |fetched|);
        LoneBarKept(have[0], fetched, Limit(), server.bars);
      }
      FullReaches(have, fetched, Limit());
      have := Merged(have, fetched);
      seen := server.bars;
    }

    /** One count request at the start, ranges otherwise: from the second last cached bar on. */
    method Fetch(server: Server, start: int, hi: int) returns (fetched: seq<Bar>, counted: bool)
      requires Faithful() && server.Valid() && Later(seen, server.bars) && OpenBefore(server.bars, hi)
      ensures Tail(fetched, server.bars)
      ensures |have| >= 2 ==> fetched == server.bars[|seen| - 2..]
      ensures |have| < 2 && !counted ==> fetched == InRange(server.bars, start, hi)
    {
      if |have| < 2 {
        var news := LastBars(server, Limit());
        if news.Some? && |news.value| >= history {
          return news.value, true;
        }
        fetched := TrendBars(server, start, hi);
        var i := RangeIsTail(server.bars, start, hi);
        return fetched, false;
      }
      counted := false;
      fetched := TrendBars(server, have[|have| - 2].t, hi);
      RangeFrom(server.bars, |seen| - 2, hi);
    }

    method Merged(have: seq<Bar>, fetched: seq<Bar>) returns (r: seq<Bar>)
      ensures r == Merge(have, fetched, Limit())
    {
      var m := Put(map[], have);
      m := Put(m, fetched);
      r := LastOf(InOrder(m), Limit());
    }
  }
}
