/** Two runs in which the bar that defends the gap is not where one would look for it: a confirmation said five minutes
    after its bar, when the kill zone has opened, and late candles that hide a retest through the gap. */
module ZoneLate {
  import opened Trades
  import opened Primitives
  import opened Gaps
  import opened Feeds
  import opened StopTargets
  import opened ZoneTypes
  import opened ZoneScan
  import opened ZoneTiming
  import opened ZoneMachine
  import opened ZoneRuns

  // ---------------------------------------------------------------- what one event does

  /** The next bar of tf is bar i, and it contradicts nothing. */
  ghost predicate Next(z: ZoneState, m: Market, tf: TF, i: nat)
    reads z
  {
    && z.buy && z.Valid(m.feed) && m.Usable() && i < |m.feed.Of(tf)| && i == Past(m.feed.Of(tf), z.ctx.seen.At(tf))
    && !Contradicts(m, true, z.state, z.ctx, tf, i)
  }

  /** The clock after bar i of tf. */
  ghost predicate Ticked(z: ZoneState, clock: int, ordered: bool, t: int)
    reads z
  {
    z.clock == Later(t, clock) && (z.ordered <==> ordered && t >= clock)
  }

  /** A bar that the state does not look at. */
  method Idle(z: ZoneState, m: Market, tf: TF, i: nat)
    requires Next(z, m, tf, i) && tf != M15
    requires (z.state == RAID && z.ctx.q.raid.Some? && z.ctx.q.raid.value.tf != tf) || (z.state == WATCH && tf == M1)
    modifies z
    ensures z.Valid(m.feed) && z.state == old(z.state) && z.thesis == old(z.thesis) && z.sweepCount == old(z.sweepCount)
    ensures z.ctx == old(z.ctx).(seen := old(z.ctx).seen.Set(tf, m.feed.Of(tf)[i].t))
    ensures Ticked(z, old(z.clock), old(z.ordered), CloseAt(m.feed, tf, i))
  {
    hide ZoneState.Valid, ZoneState.Shows, DecisionHolds, NoiseCause, CloseAt, Past;
    var _ := z.OnBar(m, tf, i);
  }

  /** A bar that closes beyond the deepest pool it sweeps. */
  method Raids(z: ZoneState, m: Market, tf: TF, i: nat, p: Pool)
    requires Next(z, m, tf, i) && tf != M1 && z.state == WATCH && z.ctx.q == NO_SEQUENCE
    requires RaidsPool(m, true, z.ctx.swept, m.feed.Of(tf)[i], p) && m.feed.Of(tf)[i].c < p.level
    modifies z
    ensures z.Valid(m.feed) && z.state == RAID && z.thesis == old(z.thesis) && z.sweepCount <= old(z.sweepCount) + 1
    ensures var b, c := m.feed.Of(tf)[i], Marked(m, true, old(z.ctx), tf, m.feed.Of(tf)[i]);
            z.ctx == c.(anchorReached := true, swept := NowSwept(m, true, c.swept, b),
                        q := NO_SEQUENCE.(raid := Some(Raid(b.t, tf, p.level, b.l, CloseAt(m.feed, tf, i)))))
    ensures Ticked(z, old(z.clock), old(z.ordered), CloseAt(m.feed, tf, i))
  {
    hide ZoneState.Valid, DecisionHolds, NoiseCause, CloseAt, Past, RaidsPool, NowSwept;
    SweptSame(m, z.ctx, tf, m.feed.Of(tf)[i]);
    var _ := z.OnBar(m, tf, i);
  }

  lemma SweptSame(m: Market, c: Ctx, tf: TF, b: Bar)
    ensures Marked(m, true, c, tf, b).swept == c.swept && Marked(m, true, c, tf, b).q == c.q
  {
  }

  /** The bar after the raid's closes back inside. */
  method TurnsBack(z: ZoneState, m: Market, tf: TF, i: nat)
    requires Next(z, m, tf, i) && z.state == RAID && z.ctx.q.raid.Some? && z.ctx.q.raid.value.tf == tf
    requires i == AtOrAfter(m.feed.Of(tf), z.ctx.q.raid.value.t) + 1 && BackInside(m.feed, true, z.ctx.q.raid.value)
    modifies z
    ensures z.Valid(m.feed) && z.state == RAID && z.thesis == old(z.thesis) && z.sweepCount == old(z.sweepCount)
    ensures var c := Marked(m, true, old(z.ctx), tf, m.feed.Of(tf)[i]); z.ctx == c.(q := c.q.(type7 := true))
    ensures Ticked(z, old(z.clock), old(z.ordered), CloseAt(m.feed, tf, i))
  {
    hide ZoneState.Valid, ZoneState.Shows, DecisionHolds, NoiseCause, CloseAt, Past, BackInside, Marked;
    MarkedQ(m, true, z.ctx, tf, m.feed.Of(tf)[i]);
    var _ := z.OnBar(m, tf, i);
  }

  /** The bar after a displacement, when the break is there and bar k has settled the retest of its gap. */
  ghost predicate Settles(z: ZoneState, m: Market, tf: TF, i: nat, mss: int, g: EntryGap, k: nat)
    reads z
  {
    && z.state == RAID && z.ctx.q.raid.Some? && z.ctx.q.raid.value.tf == tf && m.feed.m5 != []
    && var r, bars := z.ctx.q.raid.value, m.feed.Of(tf);
       && AtOrAfter(bars, r.t) + 1 < i <= AtOrAfter(bars, r.t) + DISP_WINDOW + 1 && i <= |bars|
            && Drives(bars, true, i - 1)
       && ShiftSettles(m.feed, true, r, MssLevel(m.feed, true, r), z.ctx.retestFrom, CloseAt(m.feed, tf, i), mss, g, k)
  }

  /** Lost: the zone starts over, and the mark of the scan stays behind. */
  method Loses(z: ZoneState, m: Market, tf: TF, i: nat, mss: int, g: EntryGap, k: nat)
    requires Next(z, m, tf, i) && Settles(z, m, tf, i, mss, g, k) && GapLoses(m.feed, true, mss, z.ctx.retestFrom, g, k)
    requires z.sweepCount <= 1 && !Marked(m, true, z.ctx, tf, m.feed.Of(tf)[i]).anchorViolated
    modifies z
    ensures z.Valid(m.feed) && z.state == WATCH && z.thesis == PRESERVED && k < |m.feed.m1|
    ensures z.ctx == Marked(m, true, old(z.ctx), tf, m.feed.Of(tf)[i]).(retestFrom := m.feed.m1[k].t, q := NO_SEQUENCE)
    ensures Ticked(z, old(z.clock), old(z.ordered), CloseAt(m.feed, tf, i))
  {
    hide ZoneState.Valid, DecisionHolds, NoiseCause, CloseAt, Past, BackInside, Drives, MssLevel, ShiftSettles,
         GapLoses, Marked, Earned, AtOrAfter;
    ghost var r, c, was := z.ctx.q.raid.value, Marked(m, true, z.ctx, tf, m.feed.Of(tf)[i]), z.thesis;
    MarkedKeeps(m, true, z.ctx, tf, m.feed.Of(tf)[i]);
    var d := z.OnBar(m, tf, i);
    Owed(m, was, c, tf, i, mss, g, k, d, z.state, z.ctx);
  }

  /** What the event of the bar after the displacement owes. */
  lemma Owed(m: Market, was: Thesis, c: Ctx, tf: TF, i: nat, mss: int, g: EntryGap, k: nat, d: Option<Decision>,
             s1: ZState, c1: Ctx)
    requires m.feed.m5 != [] && i < |m.feed.Of(tf)| && c.q.raid.Some? && c.q.raid.value.tf == tf
    requires var r, bars := c.q.raid.value, m.feed.Of(tf);
             && AtOrAfter(bars, r.t) + 1 < i <= AtOrAfter(bars, r.t) + DISP_WINDOW + 1 && Drives(bars, true, i - 1)
             && ShiftSettles(m.feed, true, r, MssLevel(m.feed, true, r), c.retestFrom, CloseAt(m.feed, tf, i), mss, g,
                             k)
    requires Answers(m, true, was, RAID, c, tf, i, CloseAt(m.feed, tf, i), d, s1, c1)
    ensures ZoneMachine.Settled(m, true, was, c.q.raid.value, c, d, k, CloseAt(m.feed, tf, i), c1,
                                GapLoses(m.feed, true, mss, c.retestFrom, g, k))
  {
    hide BackInside, Drives, MssLevel, ShiftSettles, GapLoses, ZoneMachine.Settled, CloseAt, AtOrAfter;
    var r, t := c.q.raid.value, CloseAt(m.feed, tf, i);
    assert ShiftAnswers(m, true, was, r, MssLevel(m.feed, true, r), c, d, t, c1);
  }

  /** Defended, and worth a plan: the zone is confirmed. */
  method Wins(z: ZoneState, m: Market, tf: TF, i: nat, mss: int, g: EntryGap, k: nat) returns (d: Option<Decision>)
    requires Next(z, m, tf, i) && Settles(z, m, tf, i, mss, g, k)
              && !GapLoses(m.feed, true, mss, z.ctx.retestFrom, g, k)
    requires Grounds(m, true, z.thesis, z.ctx.q.raid.value, k, CloseAt(m.feed, tf, i)).Some?
    modifies z
    ensures z.Valid(m.feed) && z.state == CONFIRMED && IsPlan(d) && d.value.ts == CloseAt(m.feed, tf, i)
    ensures z.made.Some? && z.made.value.d == d.value && z.made.value.m == m && z.ctx.q.raid == old(z.ctx).q.raid
    ensures Ticked(z, old(z.clock), old(z.ordered), CloseAt(m.feed, tf, i))
  {
    hide ZoneState.Valid, DecisionHolds, NoiseCause, CloseAt, Past, BackInside, Drives, MssLevel, ShiftSettles,
         GapLoses, Marked, Grounds, Forgotten, AtOrAfter;
    ghost var c, was := Marked(m, true, z.ctx, tf, m.feed.Of(tf)[i]), z.thesis;
    MarkedKeeps(m, true, z.ctx, tf, m.feed.Of(tf)[i]);
    d := z.OnBar(m, tf, i);
    Owed(m, was, c, tf, i, mss, g, k, d, z.state, z.ctx);
  }

  // ---------------------------------------------------------------- the candles

  const FIRST := Raid(3900, M15, 100.0, 97.0, 4800)
  const SECOND := Raid(5700, M5, 104.0, 103.0, 6000)
  const POOLS := [Pool(100.0, false, 3900), Pool(104.0, false, 5700)]
  const GAP_FOUND := EntryGap(104.0, 106.5, 6060)
  const BREAK := 6060
  const OPENS := 6600  // the kill zone

  /** A quarter that sweeps 100 and closes beyond it, the displacement back inside, and one more. */
  function Quarters(): seq<Bar> {
    [Bar(3000, 106.0, 106.0, 99.0, 99.0), Bar(3900, 99.0, 99.0, 97.0, 98.0), Bar(4800, 98.0, 104.0, 98.0, 104.0),
     Bar(5700, 104.0, 112.0, 103.0, 110.0)]
  }

  /** The same on M5, where the last three sweep 104, turn back with a displacement, and go on. */
  function Fives(): seq<Bar> {
    [Bar(3600, 104.0, 105.0, 99.0, 99.0), Bar(3900, 99.0, 99.0, 98.0, 98.0), Bar(4200, 98.0, 99.0, 97.0, 97.0),
     Bar(4500, 97.0, 98.0, 97.0, 98.0), Bar(4800, 98.0, 100.0, 98.0, 100.0), Bar(5100, 100.0, 102.0, 100.0, 102.0),
     Bar(5400, 102.0, 104.0, 102.0, 104.0), Bar(5700, 104.0, 104.0, 103.0, 103.0),
     Bar(6000, 103.0, 110.0, 103.0, 109.0), Bar(6300, 109.0, 112.0, 106.0, 110.0)]
  }

  /** The break above 105 at 6060, its gap from 104 to 106.5, a bar down to `low`, and the defence at 6240. */
  function Minutes(low: real): seq<Bar> {
    [Bar(5940, 104.0, 104.0, 103.0, 103.0), Bar(6000, 103.0, 104.0, 103.0, 104.0),
     Bar(6060, 104.0, 108.0, 104.0, 107.0), Bar(6120, 107.0, 110.0, 106.5, 107.0),
     Bar(6180, 107.0, 107.0, low, 106.0), Bar(6240, 106.0, 109.0, 104.6, 109.0),
     Bar(6300, 109.0, 109.0, 108.0, 108.0), Bar(6360, 108.0, 109.0, 108.0, 108.0),
     Bar(6420, 108.0, 109.0, 108.0, 108.0), Bar(6480, 108.0, 112.0, 108.0, 108.0),
     Bar(6540, 110.0, 110.0, 109.0, 110.0)]
  }

  /** n of the M5 candles have come in. */
  function LateMarket(low: real, n: nat, m15: seq<Bar>): Market
    requires n <= 10
  {
    TenFives();
    Market(Feed(Minutes(low), Fives()[..n], m15, []), 6600, 95.0, 104.0, 90.0, None, false, false, true, "map", 100.0,
           POOLS, t => t >= OPENS, (x, t) => true, true, 110.0, 110.0, 0.1, 0.0, [], 0.0, [150.0], None)
  }

  lemma TenFives()
    ensures |Fives()| == 10
  {
  }

  lemma InOrder(low: real, n: nat, m15: seq<Bar>)
    requires 1 <= n <= 10 && (m15 == [] || m15 == Quarters())
    ensures LateMarket(low, n, m15).feed == Feed(Minutes(low), Fives()[..n], m15, [])
    ensures LateMarket(low, n, m15).Usable() && |Fives()[..n]| == n && |Minutes(low)| == 11 && |Quarters()| == 4
    ensures forall i :: 0 <= i < n ==> Fives()[..n][i] == Fives()[i]
    ensures forall i :: 0 <= i < 10 ==> Fives()[i].t == 3600 + 300 * i
    ensures forall i :: 0 <= i < 11 ==> Minutes(low)[i].t == 5940 + 60 * i
    ensures forall i :: 0 <= i < 4 ==> Quarters()[i].t == 3000 + 900 * i
  {
    FiveTimes();
    MinuteTimes(low);
  }

  lemma FiveTimes()
    ensures |Fives()| == 10 && forall i :: 0 <= i < 10 ==> Fives()[i].t == 3600 + 300 * i
  {
    var m5 := Fives();
    assert m5[4].t == 4800 && m5[5].t == 5100 && m5[6].t == 5400 && m5[7].t == 5700 && m5[8].t == 6000
      && m5[9].t == 6300;
  }

  lemma MinuteTimes(low: real)
    ensures |Minutes(low)| == 11 && forall i :: 0 <= i < 11 ==> Minutes(low)[i].t == 5940 + 60 * i
  {
    var m1 := Minutes(low);
    assert m1[5].t == 6240 && m1[6].t == 6300 && m1[7].t == 6360 && m1[8].t == 6420 && m1[9].t == 6480
      && m1[10].t == 6540;
  }

  lemma FiveAt(n: nat, i: nat)
    requires i < n <= 10
    ensures |Fives()| == 10 && AtOrAfter(Fives()[..n], 3600 + 300 * i) == i
              && Past(Fives()[..n], 3600 + 300 * i) == i + 1
  {
    FiveTimes();
    hide Fives;
    IndexOf(Fives()[..n], i);
  }

  lemma QuarterAt(i: nat)
    requires i < 4
    ensures AtOrAfter(Quarters(), 3000 + 900 * i) == i && Past(Quarters(), 3000 + 900 * i) == i + 1
  {
    InOrder(0.0, 1, []);
    hide Quarters;
    IndexOf(Quarters(), i);
  }

  lemma MinuteAt(low: real, i: nat)
    requires i < 11
    ensures AtOrAfter(Minutes(low), 5940 + 60 * i) == i && Past(Minutes(low), 5940 + 60 * i) == i + 1
  {
    MinuteTimes(low);
    hide Minutes;
    IndexOf(Minutes(low), i);
  }

  lemma FirstMinute(low: real)
    ensures AtOrAfter(Minutes(low), 5700) == 0 && Past(Minutes(low), 0) == 0
  {
    assert Minutes(low)[0].t == 5940;
  }

  // ---------------------------------------------------------------- what they show

  lemma FirstRaids(low: real)
    ensures RaidsPool(LateMarket(low, 7, Quarters()), true, [], Quarters()[1], POOLS[0])
    ensures NowSwept(LateMarket(low, 7, Quarters()), true, [], Quarters()[1]) == [100.0]
  {
    var m, b := LateMarket(low, 7, Quarters()), Quarters()[1];
    assert !Taken(m.feed.m5, 100.0, false, 3900, b.t);
    assert Sweeps(m, true, [], b, POOLS[0]) && !Sweeps(m, true, [], b, POOLS[1]);
    assert m.pools == POOLS && POOLS[..1] == [POOLS[0]] && POOLS[..2] == POOLS && POOLS[..0] == [];
    assert Swept(m, true, [], b, 0) == [];
    assert Swept(m, true, [], b, 1) == [POOLS[0]];
    assert Swept(m, true, [], b, 2) == [POOLS[0]];
    assert Levels([]) == [] && [POOLS[0]][1..] == [];
    assert Levels([POOLS[0]]) == [100.0];
    assert [] + [100.0] == [100.0];
  }

  lemma SecondRaids(low: real, m15: seq<Bar>, done: seq<real>)
    requires done == [] || done == [100.0]
    ensures |Fives()| == 10 && RaidsPool(LateMarket(low, 10, m15), true, done, Fives()[7], POOLS[1])
    ensures Fives()[7].c < POOLS[1].level && Reach(true, Fives()[7]) == 103.0 && Fives()[7].t == 5700
  {
    FiveTimes();
    var m, b := LateMarket(low, 10, m15), Fives()[7];
    assert b == Bar(5700, 104.0, 104.0, 103.0, 103.0);
    assert !Taken(m.feed.m5, 104.0, false, 5700, b.t);
    assert Sweeps(m, true, done, b, POOLS[1]) && !Sweeps(m, true, done, b, POOLS[0]);
    assert m.pools == POOLS;
  }

  /** The quarter after the sweep comes back inside and is a displacement. */
  lemma FirstTurns(low: real)
    ensures BackInside(LateMarket(low, 7, Quarters()).feed, true, FIRST) && Drives(Quarters(), true, 2)
  {
    hide AtOrAfter, Fives;
    QuarterAt(1);
    TwoRanges();
  }

  lemma TwoRanges()
    ensures Atr(Quarters()[..3], 14) == 4.0
  {
    var three := Quarters()[..3];
    assert TrueRanges(three, 1, 1) == [];
    assert TrueRanges(three, 1, 2) == [] + [2.0];
    assert TrueRanges(three, 1, 3) == [2.0] + [6.0];
    SumOf2(2.0, 6.0);
  }

  lemma SumOf2(a: real, b: real)
    ensures Sum([a] + [b]) == a + b
  {
    NoSum();
    SumAppend([], a);
    SumAppend([a], b);
    assert [] + [a] == [a];
  }

  /** Bar 8 is a displacement back inside the second pool. */
  lemma SecondTurns(low: real, m15: seq<Bar>)
    ensures |Fives()| == 10 && BackInside(LateMarket(low, 10, m15).feed, true, SECOND) && Drives(Fives()[..10], true, 8)
  {
    hide Fives, Atr, AtOrAfter;
    FiveAt(10, 7);
    NineRanges();
    LastThree();
    assert Fives()[..10][..9] == Fives()[..9];
  }

  lemma LastThree()
    ensures |Fives()| == 10 && Fives()[7] == Bar(5700, 104.0, 104.0, 103.0, 103.0)
    ensures Fives()[8] == Bar(6000, 103.0, 110.0, 103.0, 109.0) && Fives()[9] == Bar(6300, 109.0, 112.0, 106.0, 110.0)
  {
  }

  lemma NineRanges()
    ensures |Fives()| == 10 && Atr(Fives()[..9], 14) == 2.25
  {
    hide Fives, TrueRanges;
    RangesBegin();
    RangesEnd();
    FiveTimes();
    var nine := Fives()[..9];
    var four := TrueRanges(nine, 1, 5);
    SumAppend(four, 2.0);
    SumAppend(four + [2.0], 2.0);
    SumAppend(four + [2.0] + [2.0], 1.0);
    SumAppend(four + [2.0] + [2.0] + [1.0], 7.0);
  }

  lemma RangesBegin()
    ensures |Fives()| == 10 && Sum(TrueRanges(Fives()[..9], 1, 5)) == 6.0
  {
    FirstRanges();
    hide Fives, TrueRanges;
    NoSum();
    SumAppend([], 1.0);
    SumAppend([] + [1.0], 2.0);
    SumAppend([] + [1.0] + [2.0], 1.0);
    SumAppend([] + [1.0] + [2.0] + [1.0], 2.0);
  }

  lemma FirstRanges()
    ensures |Fives()| == 10 && TrueRanges(Fives()[..9], 1, 5) == [] + [1.0] + [2.0] + [1.0] + [2.0]
  {
    var nine := Fives()[..9];
    assert nine[0].c == 99.0 && nine[1].c == 98.0 && nine[2].c == 97.0 && nine[3].c == 98.0;
    assert TrueRanges(nine, 1, 1) == [];
    assert TrueRanges(nine, 1, 2) == TrueRanges(nine, 1, 1) + [1.0];
    assert TrueRanges(nine, 1, 3) == TrueRanges(nine, 1, 2) + [2.0];
    assert TrueRanges(nine, 1, 4) == TrueRanges(nine, 1, 3) + [1.0];
    assert TrueRanges(nine, 1, 5) == TrueRanges(nine, 1, 4) + [2.0];
  }

  lemma RangesEnd()
    ensures |Fives()| == 10
    ensures var nine := Fives()[..9]; TrueRanges(nine, 1, 9) == TrueRanges(nine, 1, 5) + [2.0] + [2.0] + [1.0] + [7.0]
  {
    var nine := Fives()[..9];
    assert nine[4].c == 100.0 && nine[5].c == 102.0 && nine[6].c == 104.0 && nine[7].c == 103.0;
    assert TrueRanges(nine, 1, 6) == TrueRanges(nine, 1, 5) + [2.0];
    assert TrueRanges(nine, 1, 7) == TrueRanges(nine, 1, 6) + [2.0];
    assert TrueRanges(nine, 1, 8) == TrueRanges(nine, 1, 7) + [1.0];
    assert TrueRanges(nine, 1, 9) == TrueRanges(nine, 1, 8) + [7.0];
  }

  /** Both raids look for a break of the same level. */
  lemma FirstLevel(low: real, m15: seq<Bar>)
    ensures MssLevel(LateMarket(low, 7, m15).feed, true, FIRST) == 105.0
  {
    hide Fives, LastSwing, BestOf, Past;
    FiveAt(7, 3);
    assert Fives()[..7][..4] == Fives()[..4];
    NoSwing(4, 3900);
    HighestIs(4);
  }

  lemma SecondLevel(low: real, m15: seq<Bar>)
    ensures MssLevel(LateMarket(low, 10, m15).feed, true, SECOND) == 105.0
  {
    hide Fives, LastSwing, BestOf, Past;
    FiveAt(10, 7);
    assert Fives()[..10][..8] == Fives()[..8];
    NoSwing(8, 5700);
    HighestIs(8);
  }

  lemma NoSwing(n: nat, t: int)
    requires n == 4 || n == 8
    ensures |Fives()| == 10 && LastSwing(true, Fives()[..n], n, t) == None
  {
    var seg := Fives()[..n];
    forall k | 0 <= k < n
      ensures !SwingHigh(seg, k)
    {
      FiveHighs();
    }
  }

  lemma FiveHighs()
    ensures |Fives()| == 10
    ensures Fives()[0].h == 105.0 && Fives()[1].h == Fives()[2].h == 99.0 && Fives()[3].h == 98.0
              && Fives()[4].h == 100.0
    ensures Fives()[5].h == 102.0 && Fives()[6].h == Fives()[7].h == 104.0
  {
  }

  lemma HighestIs(n: nat)
    requires n == 4 || n == 8
    ensures |Fives()| == 10 && BestOf(true, Fives()[..n]) == 105.0
  {
    FiveHighs();
    hide Fives;
    var seg := Fives()[..n];
    assert seg[0].h == 105.0;
    var x := BestOf(true, seg);
    assert !Over(true, Best(true, seg[0]), x);
  }

  lemma BreakIsThere(low: real, n: nat, m15: seq<Bar>, r: Raid)
    requires n <= 10 && (r == FIRST || r == SECOND)
    ensures Broke(LateMarket(low, n, m15).feed, true, r, 105.0, BREAK)
    ensures WindowDone(LateMarket(low, n, m15).feed, BREAK, 6600)
  {
    MinuteAt(low, 2);
    MinuteTimes(low);
    var m1 := Minutes(low);
    forall k | 0 <= k < 2
      ensures !Over(true, m1[k].c, 105.0)
    {
    }
  }

  lemma GapIsThere(low: real, n: nat, m15: seq<Bar>)
    requires n <= 10 && low <= 107.0
    ensures GapSeen(LateMarket(low, n, m15).feed, true, BREAK, GAP_FOUND)
  {
    hide Widest, Footprint, ClearOfBprs;
    MinuteAt(low, 2);
    MinuteTimes(low);
    GapIsWidest(low);
    BodyIsThere(low);
    NoRange(low);
  }

  lemma GapIsWidest(low: real)
    requires low <= 107.0
    ensures Widest(Minutes(low), true, 2, 2, GAP_FOUND)
  {
    var m1 := Minutes(low);
    assert !FvgAt(m1, 3, Buy) && !FvgAt(m1, 4, Buy);
  }

  lemma BodyIsThere(low: real)
    ensures |Minutes(low)| == 11 && Footprint(Minutes(low), 2, true)
  {
    var m1 := Minutes(low);
    var base := m1[0..2];
    assert base[1..] == [m1[1]] && [m1[1]][1..] == [];
    assert SortedBodies([]) == [];
    assert SortedBodies([m1[1]]) == [1.0];
    assert SortedBodies(base) == [1.0, 1.0];
    assert m1[2].Body() == 3.0;
  }

  /** No gap formed before this one. */
  lemma NoRange(low: real)
    ensures |Minutes(low)| == 11 && ClearOfBprs(Minutes(low), 2, GAP_FOUND)
  {
    var m1 := Minutes(low);
    var recent, three := m1[0..], m1[..3];
    assert recent == m1;
    FvgsGrow(three, m1, |m1|);
    assert !FvgAt(three, 0, Buy) && !FvgAt(three, 0, Sell) && !FvgAt(three, 1, Buy) && !FvgAt(three, 1, Sell);
    assert !FvgAt(three, 2, Buy) && !FvgAt(three, 2, Sell);
    assert Fvgs(three, 1) == [];
    assert Fvgs(three, 2) == [];
    assert Fvgs(three, 3) == [];
    MinuteTimes(low);
  }

  /** The retest of the gap, seen from a scan that starts right after it, or after the bar at 6180. */
  lemma RetestIs(low: real, retestFrom: int)
    requires (retestFrom == 0 && (low == 105.5 || low == 103.8)) || (retestFrom == 6180 && low == 103.8)
    ensures var m1, k := Minutes(low), if retestFrom == 0 && low == 103.8 then 4 else 5;
            var start := ScanStart(m1, GAP_FOUND, retestFrom);
            && start <= k < |m1| && Decides(m1, true, GAP_FOUND, 2, start, false, 6600, k)
            && (LosesAt(m1, true, GAP_FOUND, 2, start, false, k) <==> k == 4)
  {
    hide Minutes, BarWaits, BarLoses, Touches;
    MinuteTimes(low);
    MinuteAt(low, 3);
    MinuteAt(low, 4);
    MinuteIs(low);
    FourIs(Minutes(low)[4], low);
    FiveDefends(Minutes(low)[5]);
  }

  lemma MinuteIs(low: real)
    ensures |Minutes(low)| == 11
    ensures Minutes(low)[4] == Bar(6180, 107.0, 107.0, low, 106.0)
              && Minutes(low)[5] == Bar(6240, 106.0, 109.0, 104.6, 109.0)
  {
  }

  lemma FourIs(b: Bar, low: real)
    requires b == Bar(6180, 107.0, 107.0, low, 106.0)
    ensures low == 103.8 ==> BarLoses(true, b, GAP_FOUND, 2, false) && !BarWaits(true, b, GAP_FOUND, 2, false)
    ensures low == 105.5 ==> BarWaits(true, b, GAP_FOUND, 2, false) && !Touches(true, b, GAP_FOUND.Ce())
  {
  }

  lemma FiveDefends(b: Bar)
    requires b == Bar(6240, 106.0, 109.0, 104.6, 109.0)
    ensures !BarWaits(true, b, GAP_FOUND, 3, false) && !BarLoses(true, b, GAP_FOUND, 3, false)
  {
  }

  /** The break, its gap, and the bar that settles the retest: the one at 6180, unless it is skipped or harmless. */
  lemma SettledAt(low: real, n: nat, m15: seq<Bar>, r: Raid, retestFrom: int)
    requires n <= 10 && (r == FIRST || r == SECOND)
    requires (retestFrom == 0 && (low == 105.5 || low == 103.8)) || (retestFrom == 6180 && low == 103.8)
    ensures var f, k := LateMarket(low, n, m15).feed, if retestFrom == 0 && low == 103.8 then 4 else 5;
            && ShiftSettles(f, true, r, 105.0, retestFrom, 6600, BREAK, GAP_FOUND, k)
            && (GapLoses(f, true, BREAK, retestFrom, GAP_FOUND, k) <==> k == 4)
  {
    hide Broke, WindowDone, GapSeen, Decides, LosesAt, ScanStart, Minutes, Fives, AtOrAfter;
    BreakIsThere(low, n, m15, r);
    GapIsThere(low, n, m15);
    RetestIs(low, retestFrom);
    MinuteAt(low, 2);
    assert LateMarket(low, n, m15).feed.m1 == Minutes(low);
  }

  /** No quarter closes below a swing low. */
  lemma NoContradiction(i: nat)
    requires i < 4
    ensures |Quarters()| == 4 && !M15Contradiction(Quarters(), i, true, 3900)
  {
    hide Breaks, DisplacedInto, SwingLow;
    QuarterLows();
    var bars := Quarters()[..i + 1];
    forall k | k in Breaks(bars, i + 1)
      ensures k.side == Buy
    {
      BreaksExact(bars, i + 1, k);
      if k.side == Sell {
        assert SellBreak(bars, k.idx, k.swing);
        QuarterSwing(bars, k.swing);
      }
    }
  }

  lemma QuarterLows()
    ensures |Quarters()| == 4 && Quarters()[0].l <= 99.0 && Quarters()[1].l == 97.0
    ensures forall k :: 2 <= k < 4 ==> Quarters()[k].c >= 97.0
  {
  }

  lemma QuarterSwing(bars: seq<Bar>, s: nat)
    requires bars <= Quarters() && SwingLow(bars, s) && s + 2 < 5
    ensures 1 <= s
  {
  }

  lemma PlanIsThere(low: real, m15: seq<Bar>, thesis: Thesis)
    requires 103.0 <= low <= 107.0 && (m15 == [] || m15 == Quarters()) && (thesis == ACTIVE || thesis == PRESERVED)
    ensures Grounds(LateMarket(low, 10, m15), true, thesis, SECOND, 5, 6600).Some?
  {
    hide Fives, Minutes, AtOrAfter, Atr, FiduciarySl, LadderOf, WorstOf, BestOf;
    InOrder(low, 10, m15);
    FiveAt(10, 7);
    FirstMinute(low);
    LastThree();
    WorstIs(low);
    LadderIs(BestOf(true, Minutes(low)[0..6]));
  }

  lemma WorstIs(low: real)
    requires 103.0 <= low <= 107.0
    ensures |Minutes(low)| == 11 && WorstOf(true, Minutes(low)[0..6], 103.0) == 103.0
  {
    MinuteTimes(low);
    var bars := Minutes(low)[0..6];
    forall k | 0 <= k < |bars|
      ensures Reach(true, bars[k]) >= 103.0
    {
    }
  }

  /** The stop at the sweep, seven away, and the objective at 150 for a first target. */
  lemma LadderIs(best: real)
    ensures forall atr: real :: FiduciarySl(true, Bar(5700, 104.0, 104.0, 103.0, 103.0), 103.0, 110.0, 0.0, 0.1, 0.0,
                                            atr, [], 0.0, 100.0) == Setup(StopLoss(103.0, 103.0, false, 0.0, 7.0))
    ensures LadderOf(true, 110.0, 7.0, 0.0, 100.0, [150.0], 103.0, best, None).Setup?
  {
    assert [150.0][1..] == [];
    assert Ahead(true, 110.0, []) == [];
    assert Ahead(true, 110.0, [150.0]) == [150.0];
    assert FirstAt(true, 110.0, 7.0, [150.0], 3.0, 0.0) == Some(150.0);
  }

  /** Of the minutes after the raid only the one at 6240 defends anything, and only the gap of 6060 is one. */
  lemma OneDefender(low: real, n: nat, m15: seq<Bar>, q: Sequence, scanFrom: int, k: nat)
    requires n <= 10 && 103.0 <= low <= 107.0 && q.raid == Some(SECOND)
    requires Chain(LateMarket(low, n, m15).feed, true, q, scanFrom, k)
    ensures k == 5 && q.fvg == Some(GAP_FOUND)
  {
    hide RaidSeen, BackInside, Displaced, Footprint, ClearOfBprs, Untouched, Broke, Fives;
    var m1, g := Minutes(low), q.fvg.value;
    MinuteTimes(low);
    DefendersAre(low, k, g.Ce());
    var b := AtOrAfter(m1, g.t);
    GapsAre(low, b);
    assert FvgAt(m1, b, Buy) && m1[b].t == g.t;
  }

  lemma DefendersAre(low: real, k: nat, ce: real)
    requires k < |Minutes(low)| && Defended(true, Minutes(low)[k], ce)
    ensures k == 1 || k == 2 || k == 5
  {
    MinuteTimes(low);
  }

  lemma GapsAre(low: real, b: nat)
    requires 103.0 <= low <= 107.0 && FvgAt(Minutes(low), b, Buy)
    ensures |Minutes(low)| == 11 && (b == 2 || b == 5) && FvgZone(Minutes(low), 2, Buy).low == 104.0
    ensures FvgZone(Minutes(low), 2, Buy).high == 106.5
  {
    MinuteTimes(low);
  }

  // ---------------------------------------------------------------- the two runs

  /** The zone waits in RAID for a candle of another timeframe, and the next minute is minute i. */
  ghost predicate Waits(z: ZoneState, low: real, n: nat, m15: seq<Bar>, i: nat)
    requires n <= 10
    reads z
  {
    && z.buy && z.Valid(LateMarket(low, n, m15).feed) && z.state == RAID && z.ctx.q.raid.Some?
    && z.ctx.q.raid.value.tf != M1 && Past(Minutes(low), z.ctx.seen.m1) == i && z.clock <= 6000 + 60 * i
  }

  method OneMinute(z: ZoneState, low: real, n: nat, m15: seq<Bar>, i: nat)
    requires 1 <= n <= 10 && (m15 == [] || m15 == Quarters()) && i < 11 && Waits(z, low, n, m15, i)
    modifies z
    ensures Waits(z, low, n, m15, i + 1) && z.thesis == old(z.thesis) && z.sweepCount == old(z.sweepCount)
    ensures z.ctx == old(z.ctx).(seen := old(z.ctx).seen.(m1 := 5940 + 60 * i))
    ensures z.clock == 6000 + 60 * i && z.ordered == old(z.ordered)
  {
    hide ZoneState.Valid, Minutes, Fives, LateMarket, Past, Contradicts;
    InOrder(low, n, m15);
    MinuteAt(low, i);
    NotFifteen(LateMarket(low, n, m15), z.state, z.ctx, i);
    Idle(z, LateMarket(low, n, m15), M1, i);
  }

  lemma NotFifteen(m: Market, s: ZState, c: Ctx, i: nat)
    requires i < |m.feed.m1|
    ensures !Contradicts(m, true, s, c, M1, i)
  {
  }

  /** The minutes up to minute `to`, one by one. */
  method Minutely(z: ZoneState, low: real, n: nat, m15: seq<Bar>, from: nat, to: nat)
    requires 1 <= n <= 10 && (m15 == [] || m15 == Quarters()) && from < to <= 11 && Waits(z, low, n, m15, from)
    modifies z
    ensures Waits(z, low, n, m15, to) && z.thesis == old(z.thesis) && z.sweepCount == old(z.sweepCount)
    ensures z.ctx == old(z.ctx).(seen := old(z.ctx).seen.(m1 := 5880 + 60 * to))
    ensures z.clock == 5940 + 60 * to && z.ordered == old(z.ordered)
  {
    hide Waits;
    if from + 1 < to {
      Minutely(z, low, n, m15, from, to - 1);
    }
    OneMinute(z, low, n, m15, to - 1);
  }

  /** Where a run has come. */
  ghost predicate At(z: ZoneState, m: Market, s: ZState, c: Ctx, thesis: Thesis, clock: int)
    reads z
  {
    z.buy && z.Valid(m.feed) && z.state == s && z.ctx == c && z.thesis == thesis && z.clock == clock
  }

  /** The second raid: its bar, and the next one, which turns back. */
  method SecondRaid(z: ZoneState, low: real, m15: seq<Bar>, ghost c: Ctx, ghost clock: int)
    requires m15 == [] || m15 == Quarters()
    requires At(z, LateMarket(low, 10, m15), WATCH, c, z.thesis, clock) && c.q == NO_SEQUENCE && c.seen.m5 == 5400
    requires c.swept == [] || c.swept == [100.0]
    modifies z
    ensures z.ctx.q == NO_SEQUENCE.(raid := Some(SECOND)) && z.ctx.seen == c.seen.(m5 := 5700)
    ensures z.ctx.retestFrom == c.retestFrom && z.thesis == old(z.thesis)
    ensures At(z, LateMarket(low, 10, m15), RAID, z.ctx, z.thesis, Later(6000, clock))
    ensures z.ordered <==> old(z.ordered) && 6000 >= clock
  {
    hide ZoneState.Valid, Minutes, Fives, LateMarket, Past, RaidsPool;
    InOrder(low, 10, m15);
    FiveAt(10, 6);
    SecondRaids(low, m15, c.swept);
    Raids(z, LateMarket(low, 10, m15), M5, 7, POOLS[1]);
  }

  method SecondTurn(z: ZoneState, low: real, m15: seq<Bar>, ghost c: Ctx, ghost clock: int)
    requires m15 == [] || m15 == Quarters()
    requires At(z, LateMarket(low, 10, m15), RAID, c, z.thesis, clock) && c.seen.m5 == 5700
    requires c.q == NO_SEQUENCE.(raid := Some(SECOND))
    modifies z
    ensures z.ctx.q == NO_SEQUENCE.(raid := Some(SECOND), type7 := true) && z.ctx.seen == c.seen.(m5 := 6000)
    ensures z.ctx.retestFrom == c.retestFrom && z.thesis == old(z.thesis)
    ensures At(z, LateMarket(low, 10, m15), RAID, z.ctx, z.thesis, Later(6300, clock))
    ensures z.ordered <==> old(z.ordered) && 6300 >= clock
  {
    hide ZoneState.Valid, Minutes, Fives, LateMarket, Past, AtOrAfter, BackInside, Drives;
    InOrder(low, 10, m15);
    FiveAt(10, 7);
    SecondTurns(low, m15);
    TurnsBack(z, LateMarket(low, 10, m15), M5, 8);
  }

  /** The event of the bar after the displacement confirms the bar at 6240. */
  method SecondWins(z: ZoneState, low: real, m15: seq<Bar>, ghost c: Ctx, ghost clock: int)
    returns (d: Option<Decision>)
    requires m15 == [] || m15 == Quarters()
    requires At(z, LateMarket(low, 10, m15), RAID, c, z.thesis, clock) && c.seen.m5 == 6000
    requires c.q == NO_SEQUENCE.(raid := Some(SECOND), type7 := true)
    requires (low == 105.5 && c.retestFrom == 0) || (low == 103.8 && c.retestFrom == 6180)
    requires z.thesis == ACTIVE || z.thesis == PRESERVED
    modifies z
    ensures z.buy && z.Valid(LateMarket(low, 10, m15).feed) && z.state == CONFIRMED && IsPlan(d) && d.value.ts == 6600
    ensures z.made.Some? && z.made.value.d == d.value && z.made.value.m == LateMarket(low, 10, m15)
    ensures z.ctx.q.raid == Some(SECOND) && (z.ordered <==> old(z.ordered) && 6600 >= clock)
  {
    hide ZoneState.Valid, Minutes, Fives, LateMarket, Past, AtOrAfter, Drives, ShiftSettles, GapLoses, MssLevel,
         Grounds;
    InOrder(low, 10, m15);
    FiveAt(10, 7);
    FiveAt(10, 8);
    SecondTurns(low, m15);
    SecondLevel(low, m15);
    SettledAt(low, 10, m15, SECOND, c.retestFrom);
    PlanIsThere(low, m15, z.thesis);
    d := Wins(z, LateMarket(low, 10, m15), M5, 9, BREAK, GAP_FOUND, 5);
  }

  /** A minute between the gap and the defending bar trades through the gap. */
  ghost predicate Skipped(f: Feed, q: Sequence, k: nat, n: nat) {
    q.fvg.Some? && n < k < |f.m1| && f.m1[n].t > q.fvg.value.t + 60 && Through(true, f.m1[n], q.fvg.value)
  }

  /** What stands on record after either run. */
  lemma OnRecord(z: ZoneState, low: real, m15: seq<Bar>)
    requires z.buy && 103.0 <= low <= 107.0 && (m15 == [] || m15 == Quarters())
    requires z.Valid(LateMarket(low, 10, m15).feed) && z.state == CONFIRMED
    requires z.made.Some? && z.made.value.m == LateMarket(low, 10, m15) && z.ctx.q.raid == Some(SECOND)
    ensures z.made.value.k == 5 && CloseAt(LateMarket(low, 10, m15).feed, M1, 5) == 6300
    ensures low < 104.0 ==> Skipped(LateMarket(low, 10, m15).feed, z.ctx.q, 5, 4)
  {
    hide Grounds, Chain, SequenceHolds, ZoneState.Base, ZoneState.Timely, Fives, Minutes;
    OneDefender(low, 10, m15, z.ctx.q, z.scanFrom, z.made.value.k);
    InOrder(low, 10, m15);
    MinuteIs(low);
  }

  /** Bars in time order: the bar at 6240 defends, closes at 6300, and is confirmed at 6600, as the kill zone opens. */
  method ConfirmedLate() returns (z: ZoneState, d: Option<Decision>)
    ensures fresh(z) && z.state == CONFIRMED && z.ordered && IsPlan(d) && z.made.Some? && z.made.value.d == d.value
    ensures var m, c := z.made.value.m, CloseAt(z.made.value.m.feed, M1, z.made.value.k);
            m.killzone(d.value.ts) && !m.killzone(c) && m.now - c > CONFIRM_MAX_LAG_S
  {
    hide ZoneState.Valid, Minutes, Fives, Past, Skipped, ZoneState.Base;
    z := new ZoneState(true, 0, Seen(0, 5400, 0));
    InOrder(105.5, 10, []);
    FirstMinute(105.5);
    SecondRaid(z, 105.5, [], z.ctx, z.clock);
    Minutely(z, 105.5, 10, [], 0, 5);
    SecondTurn(z, 105.5, [], z.ctx, z.clock);
    Minutely(z, 105.5, 10, [], 5, 10);
    d := SecondWins(z, 105.5, [], z.ctx, z.clock);
    OnRecord(z, 105.5, []);
  }

  const SINCE := NO_SEQUENCE.(raid := Some(FIRST))

  /** A fresh zone sees the first raid, on M15, and the M5 candles up to its second bar. */
  method FirstRaid() returns (z: ZoneState)
    ensures fresh(z) && z.ordered && z.sweepCount <= 1
    ensures At(z, LateMarket(103.8, 7, Quarters()), RAID, Ctx(Seen(0, 5100, 3900), true, false, [100.0], 0, SINCE),
               ACTIVE, 5400)
  {
    hide ZoneState.Valid, Minutes, Fives, Past, RaidsPool, LateMarket, NowSwept, Quarters;
    z := new ZoneState(true, 0, Seen(0, 4200, 3000));
    InOrder(103.8, 7, Quarters());
    QuarterAt(0);
    FirstRaids(103.8);
    QuarterBars();
    MarketIs(103.8, 7, Quarters());
    Raids(z, LateMarket(103.8, 7, Quarters()), M15, 1, POOLS[0]);
    ThreeFives(z);
  }

  method ThreeFives(z: ZoneState)
    requires z.ordered && z.sweepCount <= 1
    requires At(z, LateMarket(103.8, 7, Quarters()), RAID, Ctx(Seen(0, 4200, 3900), true, false, [100.0], 0, SINCE),
                ACTIVE, 4800)
    modifies z
    ensures z.ordered && z.sweepCount <= 1
    ensures At(z, LateMarket(103.8, 7, Quarters()), RAID, Ctx(Seen(0, 5100, 3900), true, false, [100.0], 0, SINCE),
               ACTIVE, 5400)
  {
    hide ZoneState.Valid, Minutes, Fives, Past, LateMarket, Quarters;
    InOrder(103.8, 7, Quarters());
    var m := LateMarket(103.8, 7, Quarters());
    FiveAt(7, 2);
    Idle(z, m, M5, 3);
    FiveAt(7, 3);
    Idle(z, m, M5, 4);
    FiveAt(7, 4);
    Idle(z, m, M5, 5);
  }

  lemma QuarterBars()
    ensures |Quarters()| == 4 && Quarters()[1] == Bar(3900, 99.0, 99.0, 97.0, 98.0)
    ensures Quarters()[2] == Bar(4800, 98.0, 104.0, 98.0, 104.0)
              && Quarters()[3] == Bar(5700, 104.0, 112.0, 103.0, 110.0)
  {
  }

  lemma MarketIs(low: real, n: nat, m15: seq<Bar>)
    requires n <= 10
    ensures var m := LateMarket(low, n, m15); m.zoneLow == 95.0 && m.zoneHigh == 104.0
  {
  }

  /** The second quarter turns back, and the minutes go by. */
  method FirstTurn(z: ZoneState)
    requires z.ordered && z.sweepCount <= 1
    requires At(z, LateMarket(103.8, 7, Quarters()), RAID, Ctx(Seen(0, 5100, 3900), true, false, [100.0], 0, SINCE),
                ACTIVE, 5400)
    modifies z
    ensures z.ordered && z.sweepCount <= 1
    ensures At(z, LateMarket(103.8, 7, Quarters()), RAID,
               Ctx(Seen(6480, 5400, 4800), true, false, [100.0], 0, SINCE.(type7 := true)), ACTIVE, 6540)
  {
    hide ZoneState.Valid, Minutes, Fives, Past, LateMarket, Quarters, M15Contradiction, BackInside, Drives, AtOrAfter;
    InOrder(103.8, 7, Quarters());
    var m := LateMarket(103.8, 7, Quarters());
    QuarterAt(1);
    FirstTurns(103.8);
    QuarterBars();
    MarketIs(103.8, 7, Quarters());
    NoContradiction(2);
    TurnsBack(z, m, M15, 2);
    FiveAt(7, 5);
    Idle(z, m, M5, 6);
    FirstMinute(103.8);
    Minutely(z, 103.8, 7, Quarters(), 0, 10);
  }

  /** The whole first evaluation, in time order and to its last bar: the minute at 6180 trades through the gap, the zone
      is reset, and the mark of the scan stays at that minute. */
  method FirstSequence() returns (z: ZoneState)
    ensures fresh(z) && z.ordered && NewEvents(LateMarket(103.8, 7, Quarters()).feed, z.ctx.seen) == []
    ensures At(z, LateMarket(103.8, 7, Quarters()), WATCH,
               Ctx(Seen(6540, 5400, 5700), true, false, [100.0], 6180, NO_SEQUENCE), PRESERVED, 6600)
  {
    hide ZoneState.Valid, Minutes, Fives, Past, LateMarket, Quarters, M15Contradiction, BackInside, Drives, AtOrAfter,
         ShiftSettles, GapLoses, MssLevel, Events;
    z := FirstRaid();
    FirstTurn(z);
    InOrder(103.8, 7, Quarters());
    var m := LateMarket(103.8, 7, Quarters());
    QuarterAt(1);
    QuarterAt(2);
    FirstTurns(103.8);
    FirstLevel(103.8, Quarters());
    SettledAt(103.8, 7, Quarters(), FIRST, 0);
    QuarterBars();
    MarketIs(103.8, 7, Quarters());
    NoContradiction(3);
    Loses(z, m, M15, 3, BREAK, GAP_FOUND, 4);
    MinuteAt(103.8, 9);
    Idle(z, m, M1, 10);
    AllHandled();
  }

  lemma AllHandled()
    ensures NewEvents(LateMarket(103.8, 7, Quarters()).feed, Seen(6540, 5400, 5700)) == []
  {
    hide Minutes, Fives, Quarters, Past, LateMarket, NewEvents;
    InOrder(103.8, 7, Quarters());
    QuarterAt(3);
    FiveAt(7, 6);
    MinuteAt(103.8, 10);
    NoneLeft(LateMarket(103.8, 7, Quarters()).feed, Seen(6540, 5400, 5700));
  }

  lemma NoneLeft(f: Feed, seen: Seen)
    requires Past(f.m1, seen.m1) == |f.m1| && Past(f.m5, seen.m5) == |f.m5| && Past(f.m15, seen.m15) == |f.m15|
    ensures NewEvents(f, seen) == []
  {
    hide Past;
  }

  /** The M5 candles from 5700 on come in only now, together: the raid of the first of them closes at 6000, the break
      and the gap are those of before, the minute at 6180 is not looked at again, and the next one is confirmed. */
  method SkippedLate() returns (z: ZoneState, d: Option<Decision>)
    ensures fresh(z) && z.state == CONFIRMED && !z.ordered && IsPlan(d) && z.made.Some? && z.made.value.d == d.value
    ensures exists n :: Skipped(z.made.value.m.feed, z.ctx.q, z.made.value.k, n)
  {
    hide ZoneState.Valid, Minutes, Fives, Skipped, Quarters, NewEvents;
    z := FirstSequence();
    ghost var before, after := LateMarket(103.8, 7, Quarters()).feed, LateMarket(103.8, 10, Quarters()).feed;
    InOrder(103.8, 10, Quarters());
    assert Grown(before, after) by {
      TenFives();
      assert Fives()[..7] <= Fives()[..10];
    }
    ValidGrows(z, before, after);
    SecondRaid(z, 103.8, Quarters(), z.ctx, z.clock);
    SecondTurn(z, 103.8, Quarters(), z.ctx, z.clock);
    d := SecondWins(z, 103.8, Quarters(), z.ctx, z.clock);
    OnRecord(z, 103.8, Quarters());
  }
}
