/** What the executor computes from a market: sweeps, levels, scores, and the order of new bars. */
module ZoneScan {
  import opened Trades
  import opened Primitives
  import opened Gaps
  import opened Feeds
  import opened StopTargets
  import opened ZoneTypes

  const FULL := Scores(25, 25, 25, 25)

  // ---------------------------------------------------------------- pure helpers

  function ZoneDist(level: real, lo: real, hi: real): real {
    if lo <= level <= hi then 0.0 else Min(Abs(level - lo), Abs(level - hi))
  }

  /** Some M5 candle that opens from `since` on and before `until` reaches the level. */
  predicate Taken(m5: seq<Bar>, level: real, high: bool, since: int, until: int) {
    exists k :: 0 <= k < |m5| && since <= m5[k].t < until && if high then m5[k].h >= level else m5[k].l <= level
  }

  predicate AlreadySwept(done: seq<real>, level: real) {
    exists k :: 0 <= k < |done| && Abs(level - done[k]) < EPS
  }

  /** The pools bar b sweeps for the first time, near the zone. */
  predicate Sweeps(m: Market, buy: bool, done: seq<real>, b: Bar, p: Pool) {
    && p.high != buy && p.availT <= b.t
    && ZoneDist(p.level, m.zoneLow, m.zoneHigh) <= 0.1 * m.sessionAtr
    && !AlreadySwept(done, p.level)
    && Under(buy, Reach(buy, b), p.level)
    && !Taken(m.feed.m5, p.level, p.high, p.availT, b.t)
  }

  function Swept(m: Market, buy: bool, done: seq<real>, b: Bar, n: nat): (r: seq<Pool>)
    requires n <= |m.pools|
    ensures forall p :: p in r <==> p in m.pools[..n] && Sweeps(m, buy, done, b, p)
  {
    if n == 0 then []
    else
      assert m.pools[..n] == m.pools[..n - 1] + [m.pools[n - 1]];
      Swept(m, buy, done, b, n - 1) + if Sweeps(m, buy, done, b, m.pools[n - 1]) then [m.pools[n - 1]] else []
  }

  /** Price stays away from the zone. */
  predicate Away(m: Market, buy: bool, b: Bar) {
    if buy then b.l >= m.zoneHigh + 0.1 * m.sessionAtr else b.h <= m.zoneLow - 0.1 * m.sessionAtr
  }

  /** The early return misses nothing: a bar away from the zone sweeps no pool near it. */
  lemma AwaySweepsNone(m: Market, buy: bool, done: seq<real>, b: Bar, p: Pool)
    requires m.zoneLow <= m.zoneHigh && Away(m, buy, b)
    ensures !Sweeps(m, buy, done, b, p)
  {
  }

  /** The lowest level for a buy, the highest for a sell. */
  function Deepest(buy: bool, ps: seq<Pool>): (r: Pool)
    requires ps != []
    ensures r in ps && forall p :: p in ps ==> !Under(buy, p.level, r.level)
  {
    if |ps| == 1 then ps[0]
    else
      var r := Deepest(buy, ps[1..]);
      assert ps == [ps[0]] + ps[1..];
      if Under(buy, r.level, ps[0].level) then r else ps[0]
  }

  /** p is swept by bar b, and no swept pool is deeper. */
  ghost predicate RaidsPool(m: Market, buy: bool, done: seq<real>, b: Bar, p: Pool) {
    && p in m.pools && Sweeps(m, buy, done, b, p)
    && forall q :: q in m.pools && Sweeps(m, buy, done, b, q) ==> !Under(buy, q.level, p.level)
  }

  lemma DeepestRaids(m: Market, buy: bool, done: seq<real>, b: Bar, swept: seq<Pool>, p: Pool)
    requires swept == Swept(m, buy, done, b, |m.pools|) && swept != [] && p == Deepest(buy, swept)
    ensures RaidsPool(m, buy, done, b, p)
  {
    assert m.pools[..|m.pools|] == m.pools;
  }

  lemma AwayMisses(m: Market, buy: bool, done: seq<real>, b: Bar)
    requires m.zoneLow <= m.zoneHigh
    ensures Away(m, buy, b) ==> forall p :: p in m.pools ==> !Sweeps(m, buy, done, b, p)
  {
    forall p | p in m.pools && Away(m, buy, b)
      ensures !Sweeps(m, buy, done, b, p)
    {
      AwaySweepsNone(m, buy, done, b, p);
    }
  }

  function Levels(ps: seq<Pool>): seq<real> {
    if ps == [] then [] else [ps[0].level] + Levels(ps[1..])
  }

  function LastFifty(xs: seq<real>): seq<real> {
    if |xs| > 50 then xs[|xs| - 50..] else xs
  }

  predicate Swing(buy: bool, seg: seq<Bar>, k: int) {
    if buy then SwingHigh(seg, k) else SwingLow(seg, k)
  }

  /** The last swing of seg (high for a buy) among the first n bars opening before t. */
  function LastSwing(buy: bool, seg: seq<Bar>, n: nat, t: int): (r: Option<nat>)
    requires n <= |seg|
    ensures r.Some? ==> r.value < n && Swing(buy, seg, r.value) && seg[r.value].t < t
    ensures forall k :: (if r.Some? then r.value < k else 0 <= k) && k < n && Swing(buy, seg, k) ==> seg[k].t >= t
  {
    if n == 0 then None
    else if Swing(buy, seg, n - 1) && seg[n - 1].t < t then Some(n - 1)
    else LastSwing(buy, seg, n - 1, t)
  }

  function Best(buy: bool, b: Bar): real {
    if buy then b.h else b.l
  }

  /** The best price of the bars in the trade's direction. */
  function BestOf(buy: bool, bars: seq<Bar>): (r: real)
    requires bars != []
    ensures exists k :: 0 <= k < |bars| && r == Best(buy, bars[k])
    ensures forall k :: 0 <= k < |bars| ==> !Over(buy, Best(buy, bars[k]), r)
  {
    if |bars| == 1 then Best(buy, bars[0])
    else
      var rest := BestOf(buy, bars[1..]);
      assert forall k :: 1 <= k < |bars| ==> bars[k] == bars[1..][k - 1];
      if Over(buy, Best(buy, bars[0]), rest) then Best(buy, bars[0]) else rest
  }

  /** The worst price of the bars against the trade, starting from x. */
  function WorstOf(buy: bool, bars: seq<Bar>, x: real): (r: real)
    ensures !Under(buy, x, r) && forall k :: 0 <= k < |bars| ==> !Under(buy, Reach(buy, bars[k]), r)
    ensures r == x || exists k :: 0 <= k < |bars| && r == Reach(buy, bars[k])
  {
    if bars == [] then x
    else
      var rest := WorstOf(buy, bars[1..], x);
      assert forall k :: 1 <= k < |bars| ==> bars[k] == bars[1..][k - 1];
      if Under(buy, Reach(buy, bars[0]), rest) then Reach(buy, bars[0]) else rest
  }

  function MssLevel(f: Feed, buy: bool, r: Raid): real
    requires f.m5 != []
  {
    var seg := f.m5[..Past(f.m5, r.closeT - Seconds(M5))];
    var k := LastSwing(buy, seg, |seg|, r.t);
    if k.Some? then Best(buy, seg[k.value])
    else
      var pool := if seg == [] then f.m5 else seg;
      BestOf(buy, if |pool| > 12 then pool[|pool| - 12..] else pool)
  }

  function Width(m1: seq<Bar>, k: nat, side: Side): real
    requires FvgAt(m1, k, side)
  {
    FvgZone(m1, k, side).high - FvgZone(m1, k, side).low
  }

  /** The widest gap among the n bars from b, the latest of the widest. */
  function WidestOf(m1: seq<Bar>, side: Side, b: nat, n: nat): (r: Option<nat>)
    ensures r.None? ==> forall k :: b <= k < b + n ==> !FvgAt(m1, k, side)
    ensures r.Some? ==> b <= r.value < b + n && FvgAt(m1, r.value, side)
    ensures r.Some? ==> forall k :: b <= k < b + n && FvgAt(m1, k, side) ==>
              Width(m1, k, side) < Width(m1, r.value, side)
              || (Width(m1, k, side) == Width(m1, r.value, side) && k <= r.value)
  {
    if n == 0 then None
    else
      var r, k := WidestOf(m1, side, b, n - 1), b + n - 1;
      if FvgAt(m1, k, side) && (r.None? || Width(m1, k, side) >= Width(m1, r.value, side)) then Some(k) else r
  }

  function GapOf(m1: seq<Bar>, k: nat, buy: bool): EntryGap
    requires FvgAt(m1, k, SideOf(buy))
  {
    var z := FvgZone(m1, k, SideOf(buy));
    EntryGap(z.low, z.high, m1[k].t)
  }

  predicate InsideBpr(g: EntryGap, bprs: seq<Zone>) {
    exists p :: p in bprs && p.formedAt < g.t && Inside(g, p)
  }

  /** The list of ranges answers for all the pairs. */
  lemma ClearByList(m1: seq<Bar>, b: nat, g: EntryGap, bprs: seq<Zone>)
    requires b <= |m1|
    requires var recent := m1[Older(b, 60)..]; var zones := Fvgs(recent, |recent|);
             bprs == BprsUpTo(recent, zones, |zones|)
    ensures ClearOfBprs(m1, b, g) <==> !InsideBpr(g, bprs)
  {
    hide IsBpr;
    var recent := m1[Older(b, 60)..];
    var zones := Fvgs(recent, |recent|);
    forall i, j | 0 <= i < j < |zones| && IsBpr(recent, zones[i], zones[j]) && zones[j].formedAt < g.t
      ensures Inside(g, Overlap(zones[i], zones[j])) ==> InsideBpr(g, bprs)
    {
      var z := Overlap(zones[i], zones[j]);
      BprsExact(recent, zones, |zones|, z);
      assert PairsWith(recent, zones, i, |zones|, z);
    }
    if InsideBpr(g, bprs) {
      var p :| p in bprs && p.formedAt < g.t && Inside(g, p);
      BprsExact(recent, zones, |zones|, p);
      var i :| 0 <= i < |zones| && PairsWith(recent, zones, i, |zones|, p);
      var j :| i < j < |zones| && IsBpr(recent, zones[i], zones[j]) && p == Overlap(zones[i], zones[j]);
    }
  }

  /** An M15 break against the bias with displacement, after the raid began. */
  predicate M15Contradiction(m15: seq<Bar>, i: nat, buy: bool, raidT: int)
    requires i < |m15|
  {
    var bars, breaks := m15[..i + 1], Breaks(m15[..i + 1], i + 1);
    exists n :: 0 <= n < |breaks| && breaks[n].idx < |bars| && bars[breaks[n].idx].t > raidT
                && breaks[n].side != SideOf(buy) && DisplacedInto(bars, breaks[n].idx)
  }

  /** A displacement among the break bar and the two before it, its own gap already closed. */
  predicate DisplacedInto(bars: seq<Bar>, k: nat)
    requires k < |bars|
  {
    exists j: nat :: k - 2 <= j <= k && j < |bars| - 1 && DisplacedAt(bars, j)
  }

  predicate DisplacedAt(bars: seq<Bar>, j: nat) {
    j < |bars| && IsDisplacement(bars, j, Atr(bars[..j + 1], 14))
  }

  function D1Break(m: Market, buy: bool, firstSeen: int, b: Bar): bool {
    b.t + 86400 > firstSeen &&
    (Under(buy, b.c, m.root) || (m.structural.Some? && Under(buy, b.c, m.structural.value)))
  }

  predicate ThesisBroken(m: Market, buy: bool, firstSeen: int) {
    exists k :: 0 <= k < |m.feed.d1| && D1Break(m, buy, firstSeen, m.feed.d1[k])
  }

  function P1(m: Market, thesis: Thesis): int {
    if m.biasAgrees && (thesis == ACTIVE || thesis == PRESERVED) then 25 else 0
  }

  function P2(m: Market, extreme: Option<real>, at: int): int {
    var n := (if m.killzone(at) then 1 else 0) + (if extreme.Some? && m.judas(extreme.value, at) then 1 else 0)
             + (if m.drawOnLiquidity then 1 else 0);
    if n == 3 then 25 else if n == 2 then 17 else if n == 1 then 8 else 0
  }

  /** Bar i is a displacement with the trade. */
  predicate Drives(bars: seq<Bar>, buy: bool, i: nat) {
    DisplacedAt(bars, i) && WithTrade(buy, bars[i])
  }

  lemma DisplacedHere(f: Feed, buy: bool, r: Raid, k: nat)
    requires var bars := f.Of(r.tf); var ri := AtOrAfter(bars, r.t);
             && Sorted(bars) && ri + 1 <= k <= ri + DISP_WINDOW && k + 1 < |bars|
             && Drives(bars, buy, k)
    ensures Displaced(f, buy, r, f.Of(r.tf)[k].t)
  {
    hide IsDisplacement, Atr, Sorted, WithTrade;
    IndexOf(f.Of(r.tf), k);
  }

  // ---------------------------------------------------------------- why a bar is noise

  /** The second bar does not close back inside, the window passes, or the shift that followed is lost. */
  ghost predicate RaidLost(f: Feed, buy: bool, r: Raid, i: nat, t: int)
    requires f.m5 != []
  {
    var bars, ri := f.Of(r.tf), AtOrAfter(f.Of(r.tf), r.t);
    || (i == ri + 1 && !BackInside(f, buy, r))
    || (i > ri + DISP_WINDOW && (i - 1 > ri + DISP_WINDOW || !Drives(bars, buy, i - 1)))
    || (ri + 1 < i <= ri + DISP_WINDOW + 1 && Drives(bars, buy, i - 1) && ShiftLost(f, buy, r, MssLevel(f, buy, r), t))
  }

  /** What lets a bar end a sequence as noise, state by state; an M15 contradiction does in any. */
  ghost predicate NoiseCause(m: Market, buy: bool, s: ZState, c: Ctx, tf: TF, i: nat, t: int)
    requires m.feed.m5 != [] && i < |m.feed.Of(tf)|
  {
    var f, q := m.feed, c.q;
    || (tf == M15 && q.raid.Some? && M15Contradiction(f.m15, i, buy, q.raid.value.t))
    || (match s
        case WATCH => exists p :: RaidsPool(m, buy, c.swept, f.Of(tf)[i], p) && !Under(buy, f.Of(tf)[i].c, p.level)
        case RAID => q.raid.Some? && RaidLost(f, buy, q.raid.value, i, t)
        case SHIFT => q.raid.Some? && q.mssLevel.Some? && ShiftLost(f, buy, q.raid.value, q.mssLevel.value, t)
        case GAP => q.mss.Some? && GapLost(f, buy, q.mss.value, t)
        case RETURN => q.mss.Some? && q.fvg.Some? && exists k :: RetestLost(f, buy, q.mss.value, q.fvg.value, k)
        case _ => false)
  }

  // ---------------------------------------------------------------- scores and plan

  /** Full marks for bias and key level, and the bar is not older than two minutes. */
  predicate Scored(m: Market, thesis: Thesis, r: Raid, t: int) {
    P1(m, thesis) == 25 && P2(m, Some(r.extreme), t) == 25 && m.now - t <= CONFIRM_MAX_LAG_S
  }

  /** Stop and ladder at the live quote, for the M1 bars from the raid to bar k. */
  function PlanOf(m: Market, buy: bool, r: Raid, k: nat): Option<Plan>
    requires m.tick > 0.0 && AtOrAfter(m.feed.Of(r.tf), r.t) < |m.feed.Of(r.tf)|
    requires AtOrAfter(m.feed.m1, r.t) <= k < |m.feed.m1|
  {
    var raidBar := m.feed.Of(r.tf)[AtOrAfter(m.feed.Of(r.tf), r.t)];
    var entry, spread := if buy then m.ask else m.bid, m.ask - m.bid;
    var sequence := m.feed.m1[AtOrAfter(m.feed.m1, r.t)..k + 1];
    var extreme := WorstOf(buy, sequence, r.extreme);
    var sl := FiduciarySl(buy, raidBar, extreme, entry, spread, m.tick, m.safetyMin, Atr(m.feed.m5, 14), m.traps,
                          m.trapTol, m.sessionAtr);
    if sl.Refused? then None
    else
      var lad := LadderOf(buy, entry, sl.value.risk, spread, m.sessionAtr, m.objectives, extreme,
                          BestOf(buy, sequence), m.finalObjective);
      if lad.Refused? then None else Some(Plan(entry, sl.value, lad.value))
  }

  /** What a confirmed plan promises. */
  ghost predicate PlanHolds(m: Market, buy: bool, p: Plan) {
    && p.entry == (if buy then m.ask else m.bid)
    && (if buy then p.stop.value < p.entry < p.ladder.tp1 <= p.ladder.ServerTp()
        else p.stop.value > p.entry > p.ladder.tp1 >= p.ladder.ServerTp())
    && 4.0 * (m.ask - m.bid) <= p.stop.risk && 7.5 * p.stop.risk <= m.sessionAtr
    && LadderHolds(buy, p.entry, p.stop.risk, m.ask - m.bid, m.sessionAtr, p.ladder)
  }

  /** The plan a defended retest at bar k is worth: full scores, in time, and a stop and ladder that hold. */
  ghost function Grounds(m: Market, buy: bool, thesis: Thesis, r: Raid, k: nat, t: int): Option<Plan>
  {
    if AtOrAfter(m.feed.Of(r.tf), r.t) < |m.feed.Of(r.tf)| && AtOrAfter(m.feed.m1, r.t) <= k < |m.feed.m1|
       && m.tick > 0.0 && Scored(m, thesis, r, t)
    then PlanOf(m, buy, r, k) else None
  }

  /** A plan, the market it was made from and the bar that defended the gap. */
  datatype Made = Made(d: Decision, m: Market, k: nat)

  /** The plan is the one the raid and the defending bar of its own chain are worth. */
  ghost predicate MadeHolds(w: Made, buy: bool, thesis: Thesis, q: Sequence, scanFrom: int) {
    && Chain(w.m.feed, buy, q, scanFrom, w.k) && w.m.feed.m1[w.k].t + 60 <= w.d.ts
    && w.d.out == CONFIRM && w.d.plan.Some?
    && w.d.plan == Grounds(w.m, buy, thesis, q.raid.value, w.k, w.d.ts)
  }

  ghost predicate DecisionHolds(m: Market, buy: bool, d: Decision) {
    d.out == CONFIRM ==>
      && d.scores == FULL && d.plan.Some? && PlanHolds(m, buy, d.plan.value)
      && m.killzone(d.ts) && m.drawOnLiquidity && m.now - d.ts <= CONFIRM_MAX_LAG_S
  }

  // ---------------------------------------------------------------- which bar settles a retest

  /** Where the scan of a gap starts, given the last bar an earlier scan looked at. */
  function ScanStart(m1: seq<Bar>, g: EntryGap, retestFrom: int): (r: nat)
    ensures r <= |m1|
  {
    Past(m1, if g.t + 60 > retestFrom then g.t + 60 else retestFrom)
  }

  /** Bar j finds an undecided touch: the one the scan began with, or the bar before it. */
  predicate Touched(m1: seq<Bar>, buy: bool, g: EntryGap, start: nat, pending: bool, j: nat)
    requires start <= j < |m1|
  {
    if j == start then pending else Touches(buy, m1[j - 1], g.Ce())
  }

  predicate WaitsAt(m1: seq<Bar>, buy: bool, g: EntryGap, b: nat, start: nat, pending: bool, j: nat)
    requires start <= j < |m1|
  {
    BarWaits(buy, m1[j], g, j - b, Touched(m1, buy, g, start, pending, j))
  }

  predicate LosesAt(m1: seq<Bar>, buy: bool, g: EntryGap, b: nat, start: nat, pending: bool, j: nat)
    requires start <= j < |m1|
  {
    BarLoses(buy, m1[j], g, j - b, Touched(m1, buy, g, start, pending, j))
  }

  /** Bar k, closed by t, is the first from start that does not leave the retest open. */
  ghost predicate Decides(m1: seq<Bar>, buy: bool, g: EntryGap, b: nat, start: nat, pending: bool, t: int, k: nat) {
    && start <= k < |m1| && m1[k].t + 60 <= t && !WaitsAt(m1, buy, g, b, start, pending, k)
    && forall j :: start <= j < k ==> WaitsAt(m1, buy, g, b, start, pending, j)
  }

  /** By t the gap is there and bar k has settled its retest. */
  ghost predicate GapSettles(f: Feed, buy: bool, mss: int, retestFrom: int, t: int, g: EntryGap, k: nat) {
    && WindowDone(f, mss, t) && GapSeen(f, buy, mss, g)
    && Decides(f.m1, buy, g, AtOrAfter(f.m1, mss), ScanStart(f.m1, g, retestFrom), false, t, k)
  }

  /** And it lost it. */
  ghost predicate GapLoses(f: Feed, buy: bool, mss: int, retestFrom: int, g: EntryGap, k: nat) {
    var start := ScanStart(f.m1, g, retestFrom);
    start <= k < |f.m1| && LosesAt(f.m1, buy, g, AtOrAfter(f.m1, mss), start, false, k)
  }

  /** By t the level is broken, and the retest of that break's gap settled. */
  ghost predicate ShiftSettles(f: Feed, buy: bool, r: Raid, level: real, retestFrom: int, t: int, mss: int, g: EntryGap,
                               k: nat) {
    Broke(f, buy, r, level, mss) && GapSettles(f, buy, mss, retestFrom, t, g, k)
  }

  lemma WidestIsOne(m1: seq<Bar>, buy: bool, b: nat, m: nat, n: nat, g: EntryGap, h: EntryGap)
    requires Widest(m1, buy, b, m, g) && Widest(m1, buy, b, n, h)
    ensures m == n && g.low == h.low && g.high == h.high
  {
  }

  lemma GapIsOne(f: Feed, buy: bool, mss: int, w: nat, g: EntryGap)
    requires f.Valid() && w < |f.m1| && f.m1[w].t == g.t && Widest(f.m1, buy, AtOrAfter(f.m1, mss), w, g)
    ensures forall h :: GapSeen(f, buy, mss, h) ==> h == g
  {
    hide Footprint, ClearOfBprs, Widest;
    forall h | GapSeen(f, buy, mss, h)
      ensures h == g
    {
      WidestIsOne(f.m1, buy, AtOrAfter(f.m1, mss), AtOrAfter(f.m1, h.t), w, h, g);
    }
  }

  lemma BreakIsOne(f: Feed, buy: bool, r: Raid, level: real, a: int, b: int)
    requires f.Valid() && Broke(f, buy, r, level, a) && Broke(f, buy, r, level, b)
    ensures a == b
  {
  }

  // ---------------------------------------------------------------- the events of an evaluation

  datatype Event = Event(tf: TF, i: nat)

  /** The first unprocessed bar of each timeframe. */
  datatype Cursor = Cursor(m15: nat, m5: nat, m1: nat) {
    function At(tf: TF): nat {
      match tf
      case M1 => m1
      case M5 => m5
      case M15 => m15
    }

    function Advance(tf: TF): Cursor {
      match tf
      case M1 => this.(m1 := m1 + 1)
      case M5 => this.(m5 := m5 + 1)
      case M15 => this.(m15 := m15 + 1)
    }
  }

  function Left(f: Feed, c: Cursor, tf: TF): nat {
    if c.At(tf) < |f.Of(tf)| then |f.Of(tf)| - c.At(tf) else 0
  }

  function CloseAt(f: Feed, tf: TF, i: nat): int {
    if i < |f.Of(tf)| then f.Of(tf)[i].t + Seconds(tf) else 0
  }

  /** tf has a bar left, and it closes no later than the next one of each other timeframe. */
  predicate Earliest(f: Feed, c: Cursor, tf: TF, than: TF) {
    Left(f, c, than) == 0 || CloseAt(f, tf, c.At(tf)) <= CloseAt(f, than, c.At(than))
  }

  /** M15 before M5 before M1 at a tie. */
  function NextTf(f: Feed, c: Cursor): Option<TF> {
    if Left(f, c, M15) > 0 && Earliest(f, c, M15, M5) && Earliest(f, c, M15, M1) then Some(M15)
    else if Left(f, c, M5) > 0 && Earliest(f, c, M5, M1) then Some(M5)
    else if Left(f, c, M1) > 0 then Some(M1)
    else None
  }

  /** The bars the zone has not seen, as their closes come. */
  function Events(f: Feed, c: Cursor): seq<Event>
    decreases Left(f, c, M15) + Left(f, c, M5) + Left(f, c, M1)
  {
    var tf := NextTf(f, c);
    if tf.None? then [] else [Event(tf.value, c.At(tf.value))] + Events(f, c.Advance(tf.value))
  }

  function CursorOf(f: Feed, seen: Seen): Cursor {
    Cursor(Past(f.m15, seen.m15), Past(f.m5, seen.m5), Past(f.m1, seen.m1))
  }

  function NewEvents(f: Feed, seen: Seen): seq<Event> {
    Events(f, CursorOf(f, seen))
  }

  predicate Unprocessed(f: Feed, c: Cursor, e: Event) {
    c.At(e.tf) <= e.i < |f.Of(e.tf)|
  }

  lemma NextIsEarliest(f: Feed, c: Cursor, e: Event)
    requires f.Valid() && Unprocessed(f, c, e)
    ensures var tf := NextTf(f, c);
            tf.Some? && Left(f, c, tf.value) > 0 && CloseAt(f, tf.value, c.At(tf.value)) <= CloseAt(f, e.tf, e.i)
  {
    var bars := f.Of(e.tf);
    assert c.At(e.tf) < e.i ==> bars[c.At(e.tf)].t < bars[e.i].t;
  }

  /** Exactly the new bars, whatever the timeframe. */
  lemma {:induction false} EventsComplete(f: Feed, c: Cursor, e: Event)
    requires f.Valid()
    ensures e in Events(f, c) <==> Unprocessed(f, c, e)
    decreases Left(f, c, M15) + Left(f, c, M5) + Left(f, c, M1)
  {
    hide NextTf, Unprocessed;
    var tf := NextTf(f, c);
    if tf.Some? {
      NextHasLeft(f, c);
      EventsComplete(f, c.Advance(tf.value), e);
      NextIsOne(f, c, tf.value, e);
    } else if Unprocessed(f, c, e) {
      NextIsEarliest(f, c, e);
    }
  }

  lemma NextHasLeft(f: Feed, c: Cursor)
    requires NextTf(f, c).Some?
    ensures Left(f, c, NextTf(f, c).value) > 0
  {
  }

  lemma NextIsOne(f: Feed, c: Cursor, tf: TF, e: Event)
    requires Left(f, c, tf) > 0
    ensures Unprocessed(f, c, e) <==> e == Event(tf, c.At(tf)) || Unprocessed(f, c.Advance(tf), e)
  {
  }

  /** In close-time order, none twice. */
  lemma {:induction false} EventsOrdered(f: Feed, c: Cursor, a: nat, b: nat)
    requires f.Valid() && a < b < |Events(f, c)|
    ensures var es := Events(f, c);
            es[a] != es[b] && CloseAt(f, es[a].tf, es[a].i) <= CloseAt(f, es[b].tf, es[b].i)
    decreases b
  {
    hide NextTf;
    var es := Events(f, c);
    var next := c.Advance(NextTf(f, c).value);
    assert es[b] == Events(f, next)[b - 1];
    if a > 0 {
      assert es[a] == Events(f, next)[a - 1];
      EventsOrdered(f, next, a - 1, b - 1);
    } else {
      EventsComplete(f, next, es[b]);
      NextIsEarliest(f, c, es[b]);
    }
  }

  // ---------------------------------------------------------------- one event at a time

  /** The bars processed so far: none twice, none after the last one seen of its timeframe. */
  ghost predicate Processed(handled: seq<(TF, int)>, seen: Seen) {
    && (forall n :: 0 <= n < |handled| ==> handled[n].1 <= seen.At(handled[n].0))
    && (forall m, n :: 0 <= m < n < |handled| ==> handled[m] != handled[n])
  }

  lemma ProcessedStep(handled: seq<(TF, int)>, seen: Seen, tf: TF, t: int)
    requires Processed(handled, seen) && seen.At(tf) < t
    ensures Processed(handled + [(tf, t)], seen.Set(tf, t))
  {
  }

  /** Taking the first event leaves the others. */
  lemma EventStep(f: Feed, seen: Seen)
    requires f.Valid() && NewEvents(f, seen) != []
    ensures var e := NewEvents(f, seen)[0];
            && e.i == Past(f.Of(e.tf), seen.At(e.tf)) && e.i < |f.Of(e.tf)|
            && NewEvents(f, seen.Set(e.tf, f.Of(e.tf)[e.i].t)) == NewEvents(f, seen)[1..]
            && NextTf(f, CursorOf(f, seen)) == Some(e.tf)
            && CursorOf(f, seen.Set(e.tf, f.Of(e.tf)[e.i].t)) == CursorOf(f, seen).Advance(e.tf)
  {
    var c := CursorOf(f, seen);
    var tf := NextTf(f, c).value;
    IndexOf(f.Of(tf), c.At(tf));
    assert CursorOf(f, seen.Set(tf, f.Of(tf)[c.At(tf)].t)) == c.Advance(tf);
  }

  lemma EventFirst(f: Feed, c: Cursor)
    requires Events(f, c) != []
    ensures Events(f, c)[0].i == c.At(Events(f, c)[0].tf)
  {
  }

  /** No bar waiting to be processed closes before t. */
  ghost predicate Due(f: Feed, seen: Seen, t: int) {
    forall e :: Unprocessed(f, CursorOf(f, seen), e) ==> t <= CloseAt(f, e.tf, e.i)
  }

  lemma DueStep(f: Feed, seen: Seen, t: int)
    requires f.Valid() && NewEvents(f, seen) != [] && Due(f, seen, t)
    ensures var e := NewEvents(f, seen)[0];
            && e.i < |f.Of(e.tf)| && t <= CloseAt(f, e.tf, e.i)
            && Due(f, seen.Set(e.tf, f.Of(e.tf)[e.i].t), CloseAt(f, e.tf, e.i))
  {
    hide NextTf, Events, CursorOf;
    EventStep(f, seen);
    var c, e := CursorOf(f, seen), NewEvents(f, seen)[0];
    assert c.At(e.tf) == e.i by {
      EventFirst(f, c);
    }
    assert Unprocessed(f, c, e);
    var next := seen.Set(e.tf, f.Of(e.tf)[e.i].t);
    forall x | Unprocessed(f, CursorOf(f, next), x)
      ensures CloseAt(f, e.tf, e.i) <= CloseAt(f, x.tf, x.i)
    {
      assert Unprocessed(f, c, x);
      NextIsEarliest(f, c, x);
    }
  }

  /** Every bar at hand has closed. */
  ghost predicate AllClosed(m: Market) {
    forall tf, i :: 0 <= i < |m.feed.Of(tf)| ==> CloseAt(m.feed, tf, i) <= m.now
  }

  /** Bars that arrive after an evaluation close after it: none comes late. */
  ghost predicate Prompt(m: Market, next: Market) {
    forall tf, i :: |m.feed.Of(tf)| <= i < |next.feed.Of(tf)| ==> CloseAt(next.feed, tf, i) > m.now
  }

  lemma PromptStaysDue(m: Market, next: Market, seen: Seen, t: int)
    requires Grown(m.feed, next.feed) && Prompt(m, next) && Due(m.feed, seen, t) && t <= m.now
    ensures Due(next.feed, seen, t)
  {
    forall e | Unprocessed(next.feed, CursorOf(next.feed, seen), e)
      ensures t <= CloseAt(next.feed, e.tf, e.i)
    {
      var bars, more := m.feed.Of(e.tf), next.feed.Of(e.tf);
      if e.i < |bars| {
        PastGrows(bars, more, seen.At(e.tf));
        assert Unprocessed(m.feed, CursorOf(m.feed, seen), e);
        assert more[e.i] == bars[e.i];
      }
    }
  }

  lemma PastGrows(bars: seq<Bar>, more: seq<Bar>, t: int)
    requires bars <= more
    ensures Past(bars, t) <= Past(more, t)
  {
    var p := Past(more, t);
    assert p < |bars| ==> more[p] == bars[p];
  }
}
