/** The executor's per-zone record, its inputs and its decisions. */
module ZoneTypes {
  import opened Trades
  import opened Primitives
  import opened Gaps
  import opened Feeds
  import opened StopTargets

  datatype ZState = WATCH | RAID | SHIFT | GAP | RETURN | CONFIRMED | MONITOR | DEAD

  datatype Raid = Raid(t: int, tf: TF, level: real, extreme: real, closeT: int)

  datatype EntryGap = EntryGap(low: real, high: real, t: int) {
    function Ce(): real {
      (low + high) / 2.0
    }
  }

  predicate OnSequence(s: ZState) {
    s == RAID || s == SHIFT || s == GAP || s == RETURN
  }

  predicate Awake(s: ZState) {
    s == WATCH || OnSequence(s)
  }

  /** The keys of ctx that a reset forgets. */
  datatype Sequence = Sequence(
    raid: Option<Raid>,
    type7: bool,
    disp: Option<int>,        // open time of the displacement bar
    mssLevel: Option<real>,
    mss: Option<int>,         // open time of the M1 break bar
    wickBreak: bool,
    fvg: Option<EntryGap>,
    pending: bool)

  const NO_SEQUENCE := Sequence(None, false, None, None, None, false, None, false)

  datatype Seen = Seen(m1: int, m5: int, m15: int) {
    function At(tf: TF): int {
      match tf
      case M1 => m1
      case M5 => m5
      case M15 => m15
    }

    function Set(tf: TF, t: int): Seen {
      match tf
      case M1 => this.(m1 := t)
      case M5 => this.(m5 := t)
      case M15 => this.(m15 := t)
    }
  }

  datatype Ctx = Ctx(
    seen: Seen,
    anchorReached: bool,
    anchorViolated: bool,
    swept: seq<real>,
    retestFrom: int,          // survives a reset
    q: Sequence)

  datatype Thesis = ACTIVE | PRESERVED | STALE | INVALID

  datatype Output = PROGRESS | WAIT | CONFIRM | RESET | MONITORED | NOSETUP | INVALIDATED

  datatype Plan = Plan(entry: real, stop: StopLoss, ladder: Ladder)

  datatype Scores = Scores(p1: int, p2: int, p3: int, p4: int)

  datatype Decision = Decision(out: Output, scores: Scores, plan: Option<Plan>, ts: int)

  datatype Pool = Pool(level: real, high: bool, availT: int)

  /** One evaluation: the map's zone, the closed bars, the quote, and what the calendar says. */
  datatype Market = Market(
    feed: Feed,
    now: int,
    zoneLow: real,
    zoneHigh: real,
    root: real,               // price of the thesis root
    structural: Option<real>, // the D1 dealing range's far side
    opposing: bool,           // an opposing zone of LPS 80 or more is on the map
    stale: bool,              // three session boundaries since first_seen
    biasAgrees: bool,
    structHash: string,
    sessionAtr: real,
    pools: seq<Pool>,
    killzone: int -> bool,
    judas: (real, int) -> bool,
    drawOnLiquidity: bool,
    bid: real,
    ask: real,
    tick: real,
    safetyMin: real,
    traps: seq<real>,
    trapTol: real,
    objectives: seq<real>,
    finalObjective: Option<real>) {

    ghost predicate Usable() {
      feed.Valid() && feed.m5 != [] && tick > 0.0 && zoneLow <= zoneHigh
    }
  }

  const EPS := 0.000000001
  const DISP_WINDOW := 3
  const MSS_WINDOW_BARS := 5
  const FOOTPRINT_BARS := 3
  const RETEST_BARS := 15
  const CONFIRM_MAX_LAG_S := 120

  // ---------------------------------------------------------------- one bar against the zone

  /** Strictly on the far side of a level, seen in the trade's direction: below for a buy. */
  predicate Under(buy: bool, x: real, level: real) {
    if buy then x < level else x > level
  }

  predicate Over(buy: bool, x: real, level: real) {
    if buy then x > level else x < level
  }

  /** The bar's extreme against the trade. */
  function Reach(buy: bool, b: Bar): real {
    if buy then b.l else b.h
  }

  predicate WithTrade(buy: bool, b: Bar) {
    if buy then b.Bull() else b.Bear()
  }

  predicate Through(buy: bool, b: Bar, g: EntryGap) {
    if buy then b.l < g.low else b.h > g.high
  }

  predicate Touches(buy: bool, b: Bar, ce: real) {
    if buy then b.l <= ce else b.h >= ce
  }

  predicate Defended(buy: bool, b: Bar, ce: real) {
    && b.Range() > 0.0 && b.Body() >= 0.60 * b.Range()
    && (if buy then b.Bot() - b.l else b.h - b.Top()) <= 0.35 * b.Range()
    && WithTrade(buy, b) && Over(buy, b.c, ce)
  }

  function SideOf(buy: bool): Side {
    if buy then Buy else Sell
  }

  // ---------------------------------------------------------------- the witnesses of a sequence

  /** The raid bar closed beyond the pool. */
  ghost predicate RaidSeen(f: Feed, buy: bool, r: Raid) {
    var bars, i := f.Of(r.tf), AtOrAfter(f.Of(r.tf), r.t);
    && r.tf != M1 && r.closeT == r.t + Seconds(r.tf)
    && i < |bars| && bars[i].t == r.t
    && Under(buy, bars[i].c, r.level) && r.extreme == Reach(buy, bars[i])
  }

  /** The next bar closed back inside, in the trade's direction. */
  ghost predicate BackInside(f: Feed, buy: bool, r: Raid) {
    var bars, i := f.Of(r.tf), AtOrAfter(f.Of(r.tf), r.t);
    i + 1 < |bars| && Over(buy, bars[i + 1].c, r.level) && WithTrade(buy, bars[i + 1])
  }

  /** A displacement in the trade's direction within three bars of the raid. */
  ghost predicate Displaced(f: Feed, buy: bool, r: Raid, t: int) {
    var bars, i, m := f.Of(r.tf), AtOrAfter(f.Of(r.tf), r.t), AtOrAfter(f.Of(r.tf), t);
    && i + 1 <= m <= i + DISP_WINDOW && m + 1 < |bars| && bars[m].t == t
    && IsDisplacement(bars, m, Atr(bars[..m + 1], 14)) && WithTrade(buy, bars[m])
  }

  /** None of the first n M1 bars closed beyond the level since the raid's close. */
  ghost predicate NoneOver(m1: seq<Bar>, buy: bool, r: Raid, level: real, n: nat)
    requires n <= |m1|
  {
    forall k :: 0 <= k < n && m1[k].t >= r.closeT ==> !Over(buy, m1[k].c, level)
  }

  /** No M1 bar that closed by t broke the level. */
  ghost predicate NoneOverBy(f: Feed, buy: bool, r: Raid, level: real, t: int) {
    forall k :: 0 <= k < |f.m1| && r.closeT <= f.m1[k].t <= t - 60 ==> !Over(buy, f.m1[k].c, level)
  }

  /** And the window for it is still open. */
  ghost predicate NotBroken(f: Feed, buy: bool, r: Raid, level: real, t: int) {
    t < r.closeT + MSS_WINDOW_BARS * Seconds(r.tf) && NoneOverBy(f, buy, r, level, t)
  }

  /** The first M1 body close beyond the MSS level among the bars opening at the raid's close or later. */
  ghost predicate Broke(f: Feed, buy: bool, r: Raid, level: real, t: int) {
    var b := AtOrAfter(f.m1, t);
    && b < |f.m1| && f.m1[b].t == t && t >= r.closeT
    && Over(buy, f.m1[b].c, level) && NoneOver(f.m1, buy, r, level, b)
  }

  function Older(b: nat, n: nat): nat {
    if b > n then b - n else 0
  }

  /** One of the three bars from the break has a body of 1.5 times the median of the 20 before it, with the trade. */
  predicate Footprint(m1: seq<Bar>, b: nat, buy: bool)
    requires b + FOOTPRINT_BARS <= |m1|
  {
    var median := MedianBody(m1[Older(b, 20)..b]);
    exists k :: b <= k < b + FOOTPRINT_BARS && m1[k].Body() >= 1.5 * median && WithTrade(buy, m1[k])
  }

  predicate Inside(g: EntryGap, z: Zone) {
    z.low <= g.low && g.high <= z.high
  }

  /** No standing balanced price range formed before the gap contains it. */
  ghost predicate ClearOfBprs(m1: seq<Bar>, b: nat, g: EntryGap)
    requires b <= |m1|
  {
    var recent := m1[Older(b, 60)..];
    var zones := Fvgs(recent, |recent|);
    forall i, j :: 0 <= i < j < |zones| && IsBpr(recent, zones[i], zones[j]) && zones[j].formedAt < g.t ==>
      !Inside(g, Overlap(zones[i], zones[j]))
  }

  /** The widest M1 gap of the three-bar footprint that starts at the break bar, the latest of the widest. */
  ghost predicate Widest(m1: seq<Bar>, buy: bool, b: nat, m: nat, g: EntryGap) {
    && b <= m < b + FOOTPRINT_BARS < |m1| && FvgAt(m1, m, SideOf(buy))
    && g.low == FvgZone(m1, m, SideOf(buy)).low && g.high == FvgZone(m1, m, SideOf(buy)).high
    && (forall k :: b <= k < b + FOOTPRINT_BARS && FvgAt(m1, k, SideOf(buy)) ==>
          var z := FvgZone(m1, k, SideOf(buy));
          z.high - z.low < g.high - g.low || (z.high - z.low == g.high - g.low && k <= m))
  }

  ghost predicate GapSeen(f: Feed, buy: bool, mss: int, g: EntryGap) {
    var b, m := AtOrAfter(f.m1, mss), AtOrAfter(f.m1, g.t);
    && b <= m < b + FOOTPRINT_BARS < |f.m1| && f.m1[m].t == g.t
    && Widest(f.m1, buy, b, m, g) && Footprint(f.m1, b, buy) && ClearOfBprs(f.m1, b, g)
  }

  /** No M1 bar opening in (lo, hi] traded through the gap. */
  ghost predicate Untouched(f: Feed, buy: bool, g: EntryGap, lo: int, hi: int) {
    forall k :: 0 <= k < |f.m1| && lo < f.m1[k].t <= hi ==> !Through(buy, f.m1[k], g)
  }

  /** A bar that touched the gap's middle without deciding anything. */
  ghost predicate Undecided(f: Feed, buy: bool, g: EntryGap, k: int) {
    && 0 <= k < |f.m1| && f.m1[k].t > g.t + 60
    && Touches(buy, f.m1[k], g.Ce()) && !Defended(buy, f.m1[k], g.Ce())
  }

  /** The touch bar of an undecided retest is the last bar scanned, at most 15 bars after the break. */
  ghost predicate RetestPending(f: Feed, buy: bool, g: EntryGap, mss: int, scanFrom: int, retestFrom: int) {
    var k := AtOrAfter(f.m1, retestFrom);
    && k < |f.m1| && f.m1[k].t == retestFrom && retestFrom > scanFrom
    && Undecided(f, buy, g, k) && k - AtOrAfter(f.m1, mss) <= RETEST_BARS
  }

  /** The whole chain behind a confirmation at M1 bar k. */
  ghost predicate Chain(f: Feed, buy: bool, q: Sequence, scanFrom: int, k: nat) {
    && q.raid.Some? && q.disp.Some? && q.mssLevel.Some? && q.mss.Some? && q.fvg.Some?
    && RaidSeen(f, buy, q.raid.value)
    && BackInside(f, buy, q.raid.value)
    && Displaced(f, buy, q.raid.value, q.disp.value)
    && Broke(f, buy, q.raid.value, q.mssLevel.value, q.mss.value)
    && GapSeen(f, buy, q.mss.value, q.fvg.value)
    && k < |f.m1| && f.m1[k].t > scanFrom >= q.fvg.value.t + 60
    && k - AtOrAfter(f.m1, q.mss.value) <= RETEST_BARS + 1
    && Defended(buy, f.m1[k], q.fvg.value.Ce())
    && Untouched(f, buy, q.fvg.value, scanFrom, f.m1[k].t)
  }

  // ---------------------------------------------------------------- what makes a setup noise

  predicate IsNoise(d: Option<Decision>) {
    d.Some? && (d.value.out == RESET || d.value.out == MONITORED)
  }

  /** The bar ends the retest: through the gap, not defending an undecided touch, too late, or closing beyond. */
  predicate BarLoses(buy: bool, b: Bar, g: EntryGap, age: int, pending: bool) {
    || Through(buy, b, g)
    || (if pending then !Defended(buy, b, g.Ce())
        else if Touches(buy, b, g.Ce()) then age > RETEST_BARS || Under(buy, b.c, g.Ce())
        else age >= RETEST_BARS)
  }

  /** The bar leaves the retest open. */
  predicate BarWaits(buy: bool, b: Bar, g: EntryGap, age: int, pending: bool) {
    && !Through(buy, b, g) && !pending
    && (if Touches(buy, b, g.Ce()) then age <= RETEST_BARS && !Under(buy, b.c, g.Ce()) && !Defended(buy, b, g.Ce())
        else age < RETEST_BARS)
  }

  ghost predicate RetestLost(f: Feed, buy: bool, mss: int, g: EntryGap, k: int) {
    && 0 <= k < |f.m1| && f.m1[k].t > g.t + 60
    && var age := k - AtOrAfter(f.m1, mss);
       BarLoses(buy, f.m1[k], g, age, false) || (Undecided(f, buy, g, k - 1) && BarLoses(buy, f.m1[k], g, age, true))
  }

  /** The footprint window has closed by t. */
  predicate WindowDone(f: Feed, mss: int, t: int) {
    var b := AtOrAfter(f.m1, mss);
    b + FOOTPRINT_BARS < |f.m1| && f.m1[b + FOOTPRINT_BARS].t + 60 <= t
  }

  ghost predicate NoGap(f: Feed, buy: bool, mss: int) {
    var b := AtOrAfter(f.m1, mss);
    forall k :: b <= k < b + FOOTPRINT_BARS ==> !FvgAt(f.m1, k, SideOf(buy))
  }

  /** The widest gap lies inside an older balanced price range. */
  ghost predicate BadAnchor(f: Feed, buy: bool, mss: int) {
    var b := AtOrAfter(f.m1, mss);
    b <= |f.m1| && exists m: nat, g :: Widest(f.m1, buy, b, m, g) && !ClearOfBprs(f.m1, b, g)
  }

  ghost predicate GapLost(f: Feed, buy: bool, mss: int, t: int) {
    && WindowDone(f, mss, t)
    && (NoGap(f, buy, mss) || !Footprint(f.m1, AtOrAfter(f.m1, mss), buy) || BadAnchor(f, buy, mss)
        || exists g, k :: GapSeen(f, buy, mss, g) && RetestLost(f, buy, mss, g, k))
  }

  ghost predicate ShiftLost(f: Feed, buy: bool, r: Raid, level: real, t: int) {
    || (t >= r.closeT + MSS_WINDOW_BARS * Seconds(r.tf) && NoneOverBy(f, buy, r, level, t))
    || exists mss :: Broke(f, buy, r, level, mss) && GapLost(f, buy, mss, t)
  }

  // ---------------------------------------------------------------- how far the scans have come

  /** Every M1 bar opening at u or before was looked at: none broke the level, none completed the footprint, none is
      left to the retest. */
  ghost predicate UpTo(f: Feed, buy: bool, s: ZState, c: Ctx, scanFrom: int, u: int) {
    match s
    case SHIFT => c.q.raid.Some? && c.q.mssLevel.Some? && NoneOverBy(f, buy, c.q.raid.value, c.q.mssLevel.value, u + 60)
    case GAP => c.q.mss.Some? && NotDone(f, c.q.mss.value, u)
    case RETURN => AllScanned(f, scanFrom, c.retestFrom, u)
    case _ => true
  }

  ghost predicate NotDone(f: Feed, mss: int, u: int) {
    forall k :: 0 <= k < |f.m1| && f.m1[k].t <= u ==> k < AtOrAfter(f.m1, mss) + FOOTPRINT_BARS
  }

  ghost predicate AllScanned(f: Feed, scanFrom: int, retestFrom: int, u: int) {
    forall k :: 0 <= k < |f.m1| && f.m1[k].t <= u ==> f.m1[k].t <= scanFrom || f.m1[k].t <= retestFrom
  }

  lemma WindowOpen(f: Feed, mss: int, t: int)
    requires f.Valid() && !WindowDone(f, mss, t)
    ensures NotDone(f, mss, t - 60)
  {
    var n := AtOrAfter(f.m1, mss) + FOOTPRINT_BARS;
    forall k | n <= k < |f.m1|
      ensures f.m1[k].t > t - 60
    {
      assert f.m1[n].t <= f.m1[k].t;
    }
  }

  lemma UpToEarlier(f: Feed, buy: bool, s: ZState, c: Ctx, scanFrom: int, u: int, v: int)
    requires v <= u && UpTo(f, buy, s, c, scanFrom, u)
    ensures UpTo(f, buy, s, c, scanFrom, v)
  {
  }

  /** Bars that arrive open after u. */
  lemma UpToStays(f: Feed, g: Feed, buy: bool, s: ZState, c: Ctx, scanFrom: int, u: int)
    requires Grown(f, g) && SequenceHolds(f, buy, s, c, scanFrom) && UpTo(f, buy, s, c, scanFrom, u)
    requires forall k :: |f.m1| <= k < |g.m1| ==> g.m1[k].t > u
    ensures UpTo(g, buy, s, c, scanFrom, u)
  {
    hide RaidSeen, BackInside, Displaced, GapSeen, Chain, Over;
    if s == GAP {
      SamePlace(f.m1, g.m1, c.q.mss.value);
    }
  }

  /** The bar after the displacement has closed by t. */
  ghost predicate ShiftOpen(f: Feed, tf: TF, disp: int, t: int) {
    var j := AtOrAfter(f.Of(tf), disp) + 1;
    j < |f.Of(tf)| && f.Of(tf)[j].t + Seconds(tf) <= t
  }

  /** What opened the state has closed by t. */
  ghost predicate Opened(f: Feed, s: ZState, q: Sequence, t: int) {
    && (s == SHIFT || s == GAP || s == RETURN ==>
          q.raid.Some? && q.disp.Some? && ShiftOpen(f, q.raid.value.tf, q.disp.value, t))
    && (s == RETURN ==> q.mss.Some? && WindowDone(f, q.mss.value, t))
  }

  lemma OpenedStays(f: Feed, g: Feed, s: ZState, q: Sequence, t: int)
    requires Grown(f, g) && Opened(f, s, q, t)
    ensures Opened(g, s, q, t)
  {
    if s == SHIFT || s == GAP || s == RETURN {
      SamePlace(f.Of(q.raid.value.tf), g.Of(q.raid.value.tf), q.disp.value);
    }
    if s == RETURN {
      SamePlace(f.m1, g.m1, q.mss.value);
    }
  }

  /** A scan that started in s with context c has come to t and left the zone in s1. */
  ghost predicate Onward(f: Feed, buy: bool, s: ZState, c: Ctx, s1: ZState, c1: Ctx, scanFrom: int, t: int) {
    && UpTo(f, buy, s1, c1, scanFrom, t - 60)
    && c1.q.raid == c.q.raid && c1.q.disp == c.q.disp && c1.q.mssLevel == c.q.mssLevel
    && (s1 == RETURN ==> c1.q.mss.Some? && (WindowDone(f, c1.q.mss.value, t) || (s == RETURN && c1.q.mss == c.q.mss)))
  }

  /** A scan that started in s with context c confirmed bar k at t. */
  ghost predicate Landed(f: Feed, s: ZState, c: Ctx, scanFrom: int, q: Sequence, t: int, k: nat) {
    && q.raid == c.q.raid && q.disp == c.q.disp && q.mssLevel == c.q.mssLevel && q.mss.Some?
    && (s != SHIFT ==> q.mss == c.q.mss)
    && (if s == RETURN then k < |f.m1| && scanFrom < f.m1[k].t && c.retestFrom < f.m1[k].t
        else WindowDone(f, q.mss.value, t))
  }

  // ---------------------------------------------------------------- the witnesses survive as bars arrive

  lemma RaidStays(f: Feed, g: Feed, buy: bool, r: Raid)
    requires Grown(f, g) && RaidSeen(f, buy, r)
    ensures RaidSeen(g, buy, r)
    ensures BackInside(f, buy, r) ==> BackInside(g, buy, r)
  {
    SamePlace(f.Of(r.tf), g.Of(r.tf), r.t);
  }

  lemma DisplacedStays(f: Feed, g: Feed, buy: bool, r: Raid, t: int)
    requires Grown(f, g) && RaidSeen(f, buy, r) && Displaced(f, buy, r, t)
    ensures Displaced(g, buy, r, t)
  {
    hide IsDisplacement, Atr;
    var bars, more := f.Of(r.tf), g.Of(r.tf);
    SamePlace(bars, more, r.t);
    SamePlace(bars, more, t);
    var m := AtOrAfter(bars, t);
    assert bars[..m + 1] == more[..m + 1];
    DisplacementStays(bars, more, m, Atr(bars[..m + 1], 14));
  }

  lemma DisplacementStays(bars: seq<Bar>, more: seq<Bar>, m: nat, atr: real)
    requires bars <= more && m + 1 < |bars|
    ensures IsDisplacement(more, m, atr) == IsDisplacement(bars, m, atr)
  {
  }

  lemma BrokeStays(f: Feed, g: Feed, buy: bool, r: Raid, level: real, t: int)
    requires Grown(f, g) && Broke(f, buy, r, level, t)
    ensures Broke(g, buy, r, level, t)
  {
    SamePlace(f.m1, g.m1, t);
  }

  lemma GapStays(f: Feed, g: Feed, buy: bool, mss: int, gap: EntryGap)
    requires Grown(f, g) && g.Valid() && GapSeen(f, buy, mss, gap)
    ensures GapSeen(g, buy, mss, gap)
  {
    hide ClearOfBprs, Widest, Footprint;
    SamePlace(f.m1, g.m1, mss);
    SamePlace(f.m1, g.m1, gap.t);
    var b, m := AtOrAfter(f.m1, mss), AtOrAfter(f.m1, gap.t);
    WidestStays(f.m1, g.m1, buy, b, m, gap);
    FootprintStays(f.m1, g.m1, b, buy);
    ClearStays(f.m1, g.m1, b, gap, m);
  }

  lemma WidestStays(bars: seq<Bar>, more: seq<Bar>, buy: bool, b: nat, m: nat, g: EntryGap)
    requires bars <= more && Widest(bars, buy, b, m, g)
    ensures Widest(more, buy, b, m, g)
  {
    forall k | b <= k < b + FOOTPRINT_BARS && FvgAt(more, k, SideOf(buy))
      ensures FvgAt(bars, k, SideOf(buy)) && FvgZone(bars, k, SideOf(buy)) == FvgZone(more, k, SideOf(buy))
    {
    }
  }

  lemma FootprintStays(bars: seq<Bar>, more: seq<Bar>, b: nat, buy: bool)
    requires bars <= more && b + FOOTPRINT_BARS <= |bars| && Footprint(bars, b, buy)
    ensures Footprint(more, b, buy)
  {
    hide MedianBody;
    assert bars[Older(b, 20)..b] == more[Older(b, 20)..b];
    var k :| b <= k < b + FOOTPRINT_BARS && bars[k].Body() >= 1.5 * MedianBody(bars[Older(b, 20)..b])
             && WithTrade(buy, bars[k]);
    assert more[k] == bars[k];
  }

  /** Later bars add no balanced price range older than the gap. */
  lemma ClearStays(bars: seq<Bar>, more: seq<Bar>, b: nat, g: EntryGap, m: nat)
    requires bars <= more && Sorted(more) && b <= m && m + 1 < |bars| && bars[m].t == g.t
    requires ClearOfBprs(bars, b, g)
    ensures ClearOfBprs(more, b, g)
  {
    hide IsBpr;
    var lo := Older(b, 60);
    var recent, now := bars[lo..], more[lo..];
    var was, zones := Fvgs(recent, |recent|), Fvgs(now, |now|);
    FvgsGrow(recent, now, |now|);
    forall j | |was| <= j < |zones|
      ensures zones[j].formedAt > g.t
    {
      assert zones[j].formedAt == more[lo + zones[j].idx].t;
    }
    forall i, j | 0 <= i < j < |zones| && IsBpr(now, zones[i], zones[j]) && zones[j].formedAt < g.t
      ensures !Inside(g, Overlap(zones[i], zones[j]))
    {
      assert zones[i] == was[i] && zones[j] == was[j];
      BprStood(recent, now, zones[i], zones[j]);
    }
  }

  /** Bars that arrive are later than every bar at hand, so what was scanned stays scanned. */
  lemma UntouchedStays(f: Feed, g: Feed, buy: bool, gap: EntryGap, lo: int, k: nat)
    requires Grown(f, g) && g.Valid() && k < |f.m1| && Untouched(f, buy, gap, lo, f.m1[k].t)
    ensures Untouched(g, buy, gap, lo, g.m1[k].t)
  {
    forall j | 0 <= j < |g.m1| && lo < g.m1[j].t <= g.m1[k].t
      ensures !Through(buy, g.m1[j], gap)
    {
      assert j <= k ==> g.m1[j] == f.m1[j];
    }
  }

  lemma ChainStays(f: Feed, g: Feed, buy: bool, q: Sequence, scanFrom: int, k: nat)
    requires Grown(f, g) && g.Valid() && Chain(f, buy, q, scanFrom, k)
    ensures Chain(g, buy, q, scanFrom, k)
  {
    RaidStays(f, g, buy, q.raid.value);
    DisplacedStays(f, g, buy, q.raid.value, q.disp.value);
    BrokeStays(f, g, buy, q.raid.value, q.mssLevel.value, q.mss.value);
    GapStays(f, g, buy, q.mss.value, q.fvg.value);
    SamePlace(f.m1, g.m1, q.mss.value);
    UntouchedStays(f, g, buy, q.fvg.value, scanFrom, k);
  }

  // ---------------------------------------------------------------- what each state implies

  /** How far the retest scan has come: every bar from scanFrom on was looked at and none traded through the gap. */
  ghost predicate Scanned(f: Feed, buy: bool, g: EntryGap, scanFrom: int, retestFrom: int) {
    var k := AtOrAfter(f.m1, retestFrom);
    && scanFrom >= g.t + 60 && (scanFrom == g.t + 60 || scanFrom <= retestFrom)
    && (retestFrom <= scanFrom || (k < |f.m1| && f.m1[k].t == retestFrom))
    && Untouched(f, buy, g, scanFrom, retestFrom)
  }

  ghost predicate RaidHolds(f: Feed, buy: bool, c: Ctx) {
    && c.q.raid.Some? && RaidSeen(f, buy, c.q.raid.value)
    && c.seen.At(c.q.raid.value.tf) >= c.q.raid.value.t
    && (c.seen.At(c.q.raid.value.tf) > c.q.raid.value.t ==> BackInside(f, buy, c.q.raid.value))
  }

  ghost predicate ShiftHolds(f: Feed, buy: bool, q: Sequence) {
    && q.raid.Some? && q.disp.Some? && q.mssLevel.Some?
    && RaidSeen(f, buy, q.raid.value) && BackInside(f, buy, q.raid.value)
    && Displaced(f, buy, q.raid.value, q.disp.value)
  }

  ghost predicate GapHolds(f: Feed, buy: bool, q: Sequence) {
    ShiftHolds(f, buy, q) && q.mss.Some? && Broke(f, buy, q.raid.value, q.mssLevel.value, q.mss.value)
  }

  ghost predicate ReturnHolds(f: Feed, buy: bool, c: Ctx, scanFrom: int) {
    && GapHolds(f, buy, c.q) && c.q.fvg.Some? && GapSeen(f, buy, c.q.mss.value, c.q.fvg.value)
    && Scanned(f, buy, c.q.fvg.value, scanFrom, c.retestFrom)
    && (c.q.pending ==> RetestPending(f, buy, c.q.fvg.value, c.q.mss.value, scanFrom, c.retestFrom))
  }

  ghost predicate Confirmed(f: Feed, buy: bool, q: Sequence, scanFrom: int) {
    exists k :: 0 <= k < |f.m1| && Chain(f, buy, q, scanFrom, k)
  }

  /** Each state implies that every field its handler reads is set, and what those fields witness. */
  ghost predicate SequenceHolds(f: Feed, buy: bool, s: ZState, c: Ctx, scanFrom: int) {
    match s
    case RAID => RaidHolds(f, buy, c) && !c.q.pending
    case SHIFT => ShiftHolds(f, buy, c.q) && !c.q.pending
    case GAP => GapHolds(f, buy, c.q) && !c.q.pending
    case RETURN => ReturnHolds(f, buy, c, scanFrom)
    case CONFIRMED => Confirmed(f, buy, c.q, scanFrom)
    case _ => c.q == NO_SEQUENCE
  }

  lemma SequenceStays(f: Feed, g: Feed, buy: bool, s: ZState, c: Ctx, scanFrom: int)
    requires Grown(f, g) && g.Valid() && SequenceHolds(f, buy, s, c, scanFrom)
    ensures SequenceHolds(g, buy, s, c, scanFrom)
  {
    hide RaidSeen, BackInside, Displaced, Broke, GapSeen, Chain, Untouched;
    if OnSequence(s) {
      RaidStays(f, g, buy, c.q.raid.value);
    }
    if s in {SHIFT, GAP, RETURN} {
      DisplacedStays(f, g, buy, c.q.raid.value, c.q.disp.value);
    }
    if s in {GAP, RETURN} {
      BrokeStays(f, g, buy, c.q.raid.value, c.q.mssLevel.value, c.q.mss.value);
    }
    if s == RETURN {
      GapStays(f, g, buy, c.q.mss.value, c.q.fvg.value);
      ScannedStays(f, g, buy, c.q.mss.value, c.q.fvg.value, c.q.pending, scanFrom, c.retestFrom);
    }
    if s == CONFIRMED {
      var k :| 0 <= k < |f.m1| && Chain(f, buy, c.q, scanFrom, k);
      ChainStays(f, g, buy, c.q, scanFrom, k);
    }
  }

  lemma ScannedStays(f: Feed, g: Feed, buy: bool, mss: int, gap: EntryGap, pending: bool, scanFrom: int,
                     retestFrom: int)
    requires Grown(f, g) && g.Valid() && GapSeen(f, buy, mss, gap)
    requires Scanned(f, buy, gap, scanFrom, retestFrom)
    requires pending ==> RetestPending(f, buy, gap, mss, scanFrom, retestFrom)
    ensures Scanned(g, buy, gap, scanFrom, retestFrom)
    ensures pending ==> RetestPending(g, buy, gap, mss, scanFrom, retestFrom)
  {
    SamePlace(f.m1, g.m1, mss);
    if retestFrom > scanFrom {
      SamePlace(f.m1, g.m1, retestFrom);
      UntouchedStays(f, g, buy, gap, scanFrom, AtOrAfter(f.m1, retestFrom));
    }
  }

  lemma ChainRaid(f: Feed, buy: bool, q: Sequence, scanFrom: int, k: nat)
    requires f.Valid() && Chain(f, buy, q, scanFrom, k)
    ensures q.raid.Some? && RaidSeen(f, buy, q.raid.value) && AtOrAfter(f.m1, q.raid.value.t) <= k
  {
    var b, m := AtOrAfter(f.m1, q.mss.value), AtOrAfter(f.m1, q.fvg.value.t);
    assert f.m1[b].t <= f.m1[m].t;
  }

  lemma LaterIsAfter(bars: seq<Bar>, i: nat, j: nat)
    requires Sorted(bars) && i < |bars| && j < |bars| && bars[i].t < bars[j].t
    ensures i < j
  {
  }

  /** In time: raid bar, displacement, the raid's close, the break, its gap, and the defending bar. */
  lemma ChainInOrder(f: Feed, buy: bool, q: Sequence, scanFrom: int, k: nat)
    requires f.Valid() && Chain(f, buy, q, scanFrom, k)
    ensures q.raid.Some? && q.disp.Some? && q.mss.Some? && q.fvg.Some?
    ensures q.raid.value.t < q.disp.value && q.raid.value.closeT <= q.mss.value <= q.fvg.value.t
    ensures q.fvg.value.t + 60 < f.m1[k].t && AtOrAfter(f.m1, q.mss.value) < k
    ensures !Through(buy, f.m1[k], q.fvg.value)
  {
    hide IsDisplacement, Atr, Footprint, ClearOfBprs, Widest, Defended;
    var r := q.raid.value;
    var bars := f.Of(r.tf);
    var i, d := AtOrAfter(bars, r.t), AtOrAfter(bars, q.disp.value);
    assert bars[i].t < bars[d].t;
    AfterBreak(f, buy, r, q.mssLevel.value, q.mss.value, q.fvg.value);
    var b := AtOrAfter(f.m1, q.mss.value);
    LaterIsAfter(f.m1, b, k);
  }

  // ---------------------------------------------------------------- one step of each scan

  /** The next bar was looked at and did not trade through. */
  lemma ScanStep(f: Feed, buy: bool, g: EntryGap, scanFrom: int, retestFrom: int, k: nat)
    requires f.Valid() && Scanned(f, buy, g, scanFrom, retestFrom)
    requires k < |f.m1| && scanFrom < f.m1[k].t && retestFrom < f.m1[k].t
    requires forall j :: 0 <= j < k ==> f.m1[j].t <= scanFrom || f.m1[j].t <= retestFrom
    requires !Through(buy, f.m1[k], g)
    ensures Scanned(f, buy, g, scanFrom, f.m1[k].t)
  {
    IndexOf(f.m1, k);
  }

  lemma InReturn(f: Feed, buy: bool, c: Ctx, scanFrom: int)
    requires SequenceHolds(f, buy, RETURN, c, scanFrom)
    ensures c.q.raid.Some? && c.q.mss.Some? && c.q.fvg.Some?
    ensures scanFrom >= c.q.fvg.value.t + 60
    ensures Scanned(f, buy, c.q.fvg.value, scanFrom, c.retestFrom)
    ensures c.q.pending ==> RetestPending(f, buy, c.q.fvg.value, c.q.mss.value, scanFrom, c.retestFrom)
    ensures ReturnHolds(f, buy, c.(q := c.q.(pending := false)), scanFrom)
  {
    hide RaidSeen, BackInside, Displaced, Broke, GapSeen;
  }

  /** The scan has moved on to bar k: an earlier touch, if any, is no longer pending. */
  lemma ReturnGoesOn(f: Feed, buy: bool, c: Ctx, scanFrom: int, k: nat)
    requires f.Valid() && SequenceHolds(f, buy, RETURN, c, scanFrom)
    requires k < |f.m1| && scanFrom < f.m1[k].t && c.retestFrom < f.m1[k].t
    requires forall j :: 0 <= j < k ==> f.m1[j].t <= scanFrom || f.m1[j].t <= c.retestFrom
    requires c.q.fvg.Some? && !Through(buy, f.m1[k], c.q.fvg.value)
    ensures SequenceHolds(f, buy, RETURN, c.(retestFrom := f.m1[k].t, q := c.q.(pending := false)), scanFrom)
  {
    hide RaidSeen, BackInside, Displaced, Broke, GapSeen, Scanned, Through;
    ScanStep(f, buy, c.q.fvg.value, scanFrom, c.retestFrom, k);
  }

  lemma ReturnTouched(f: Feed, buy: bool, c: Ctx, scanFrom: int, k: nat)
    requires f.Valid() && SequenceHolds(f, buy, RETURN, c, scanFrom) && k < |f.m1|
              && c.retestFrom == f.m1[k].t > scanFrom
    requires c.q.mss.Some? && k - AtOrAfter(f.m1, c.q.mss.value) <= RETEST_BARS
    requires c.q.fvg.Some? && Undecided(f, buy, c.q.fvg.value, k)
    ensures SequenceHolds(f, buy, RETURN, c.(q := c.q.(pending := true)), scanFrom)
  {
    hide RaidSeen, BackInside, Displaced, Broke, GapSeen, Scanned, Undecided;
    PendingAt(f, buy, c.q.fvg.value, c.q.mss.value, scanFrom, k);
  }

  /** The bar after an undecided touch is the very next one, at most 16 bars after the break. */
  lemma AfterPending(f: Feed, buy: bool, g: EntryGap, mss: int, scanFrom: int, retestFrom: int, k: nat)
    requires f.Valid() && RetestPending(f, buy, g, mss, scanFrom, retestFrom)
    requires k < |f.m1| && retestFrom < f.m1[k].t
    requires forall j :: 0 <= j < k ==> f.m1[j].t <= scanFrom || f.m1[j].t <= retestFrom
    ensures k - AtOrAfter(f.m1, mss) <= RETEST_BARS + 1 && Undecided(f, buy, g, k - 1)
  {
    hide Undecided;
    var p := AtOrAfter(f.m1, retestFrom);
    if p + 1 < |f.m1| {
      assert f.m1[p].t < f.m1[p + 1].t;
    }
  }

  lemma ChainAt(f: Feed, buy: bool, c: Ctx, scanFrom: int, k: nat)
    requires f.Valid() && ReturnHolds(f, buy, c.(q := c.q.(pending := false)), scanFrom)
    requires k < |f.m1| && c.retestFrom == f.m1[k].t > scanFrom
    requires k - AtOrAfter(f.m1, c.q.mss.value) <= RETEST_BARS + 1
    requires Defended(buy, f.m1[k], c.q.fvg.value.Ce())
    ensures Chain(f, buy, c.q, scanFrom, k)
  {
  }

  lemma PendingAt(f: Feed, buy: bool, g: EntryGap, mss: int, scanFrom: int, k: nat)
    requires f.Valid() && k < |f.m1| && f.m1[k].t > scanFrom && k - AtOrAfter(f.m1, mss) <= RETEST_BARS
    requires Undecided(f, buy, g, k)
    ensures RetestPending(f, buy, g, mss, scanFrom, f.m1[k].t)
  {
    IndexOf(f.m1, k);
  }

  lemma NoneOverAt(f: Feed, buy: bool, r: Raid, level: real, n: nat, t: int)
    requires f.Valid() && n <= |f.m1| && NoneOver(f.m1, buy, r, level, n) && (n < |f.m1| ==> f.m1[n].t + 60 > t)
    ensures NoneOverBy(f, buy, r, level, t)
  {
  }

  /** A bar that closes beyond the level opens a raid. */
  lemma RaidAt(f: Feed, buy: bool, c: Ctx, scanFrom: int, tf: TF, i: nat, level: real, r: Raid, d: Ctx)
    requires f.Valid() && SequenceHolds(f, buy, WATCH, c, scanFrom) && tf != M1 && i < |f.Of(tf)|
    requires var b := f.Of(tf)[i];
             && r == Raid(b.t, tf, level, Reach(buy, b), b.t + Seconds(tf))
             && c.seen.At(tf) == b.t && Under(buy, b.c, level)
    requires d.seen == c.seen && d.q == c.q.(raid := Some(r))
    ensures SequenceHolds(f, buy, RAID, d, scanFrom)
  {
    IndexOf(f.Of(tf), i);
  }

  /** The bars seen so far end just before bar i, which comes after the raid bar. */
  lemma RaidPast(f: Feed, buy: bool, c: Ctx, i: nat)
    requires f.Valid() && RaidHolds(f, buy, c)
    requires var tf := c.q.raid.value.tf; i == Past(f.Of(tf), c.seen.At(tf)) && i < |f.Of(tf)|
    ensures var r := c.q.raid.value;
            && AtOrAfter(f.Of(r.tf), r.t) < i
            && (i > AtOrAfter(f.Of(r.tf), r.t) + 1 ==> BackInside(f, buy, r))
  {
    var r := c.q.raid.value;
    var bars, ri := f.Of(r.tf), AtOrAfter(f.Of(r.tf), r.t);
    assert ri + 1 < i ==> bars[ri].t < bars[ri + 1].t;
  }

  /** Seeing a bar changes the anchor flags, on M15 only. */
  function Marked(m: Market, buy: bool, c: Ctx, tf: TF, b: Bar): Ctx {
    var d := c.(seen := c.seen.Set(tf, b.t));
    if tf != M15 then d
    else d.(anchorReached := c.anchorReached || (if buy then b.l <= m.zoneHigh else b.h >= m.zoneLow),
            anchorViolated := c.anchorViolated || (if buy then b.c < m.zoneLow else b.c > m.zoneHigh))
  }

  lemma SequenceSeen(m: Market, buy: bool, s: ZState, c: Ctx, scanFrom: int, tf: TF, b: Bar)
    requires SequenceHolds(m.feed, buy, s, c, scanFrom)
    requires s == RAID ==> c.q.raid.value.tf != tf
    ensures SequenceHolds(m.feed, buy, s, Marked(m, buy, c, tf, b), scanFrom)
  {
    hide RaidSeen, BackInside, ShiftHolds, GapHolds, GapSeen, Scanned, RetestPending, Confirmed;
  }

  /** The raid's own next bar has been seen. */
  ghost predicate RaidDue(f: Feed, buy: bool, c: Ctx, tf: TF, i: nat) {
    && c.q.raid.Some? && c.q.raid.value.tf == tf && !c.q.pending && RaidSeen(f, buy, c.q.raid.value)
    && AtOrAfter(f.Of(tf), c.q.raid.value.t) < i < |f.Of(tf)| && c.seen.At(tf) == f.Of(tf)[i].t
    && (i > AtOrAfter(f.Of(tf), c.q.raid.value.t) + 1 ==> BackInside(f, buy, c.q.raid.value))
  }

  /** What the handlers may rely on once bar i of tf has been seen. */
  ghost predicate BarDue(f: Feed, buy: bool, s: ZState, c: Ctx, scanFrom: int, tf: TF, i: nat) {
    && (OnSequence(s) ==> c.q.raid.Some?)
    && if s == RAID && c.q.raid.value.tf == tf then RaidDue(f, buy, c, tf, i)
       else SequenceHolds(f, buy, s, c, scanFrom)
  }

  lemma DueHas(f: Feed, buy: bool, s: ZState, c: Ctx, scanFrom: int, tf: TF, i: nat)
    requires BarDue(f, buy, s, c, scanFrom, tf, i) && OnSequence(s)
    ensures c.q.raid.Some?
    ensures s == SHIFT ==> c.q.mssLevel.Some?
    ensures s == GAP ==> c.q.mss.Some?
    ensures s == RETURN ==> c.q.mss.Some? && c.q.fvg.Some?
  {
  }

  lemma DueRaid(f: Feed, buy: bool, c: Ctx, scanFrom: int, tf: TF, i: nat)
    requires BarDue(f, buy, RAID, c, scanFrom, tf, i) && c.q.raid.Some? && c.q.raid.value.tf == tf
    ensures RaidSeen(f, buy, c.q.raid.value) && !c.q.pending
    ensures AtOrAfter(f.Of(tf), c.q.raid.value.t) < i < |f.Of(tf)| && c.seen.At(tf) == f.Of(tf)[i].t
    ensures i > AtOrAfter(f.Of(tf), c.q.raid.value.t) + 1 ==> BackInside(f, buy, c.q.raid.value)
  {
    hide RaidSeen, BackInside;
  }

  lemma SeenIsDue(m: Market, buy: bool, s: ZState, c: Ctx, scanFrom: int, tf: TF, i: nat)
    requires m.feed.Valid() && SequenceHolds(m.feed, buy, s, c, scanFrom)
    requires i == Past(m.feed.Of(tf), c.seen.At(tf)) && i < |m.feed.Of(tf)|
    ensures BarDue(m.feed, buy, s, Marked(m, buy, c, tf, m.feed.Of(tf)[i]), scanFrom, tf, i)
  {
    hide SequenceHolds, RaidHolds, RaidDue, RaidSeen, Marked, Past, Sorted;
    MarkedQ(m, buy, c, tf, m.feed.Of(tf)[i]);
    if OnSequence(s) {
      InSequence(m.feed, buy, s, c, scanFrom);
    }
    if s == RAID && c.q.raid.value.tf == tf {
      RaidIsDue(m, buy, c, tf, i);
    } else {
      SequenceSeen(m, buy, s, c, scanFrom, tf, m.feed.Of(tf)[i]);
    }
  }

  lemma MarkedQ(m: Market, buy: bool, c: Ctx, tf: TF, b: Bar)
    ensures Marked(m, buy, c, tf, b).q == c.q && Marked(m, buy, c, tf, b).seen == c.seen.Set(tf, b.t)
  {
  }

  lemma RaidIsDue(m: Market, buy: bool, c: Ctx, tf: TF, i: nat)
    requires m.feed.Valid() && RaidHolds(m.feed, buy, c) && !c.q.pending && c.q.raid.value.tf == tf
    requires i == Past(m.feed.Of(tf), c.seen.At(tf)) && i < |m.feed.Of(tf)|
    ensures RaidDue(m.feed, buy, Marked(m, buy, c, tf, m.feed.Of(tf)[i]), tf, i)
  {
    hide RaidSeen, BackInside, Past, Sorted;
    RaidPast(m.feed, buy, c, i);
  }

  lemma WickNoted(f: Feed, buy: bool, c: Ctx, scanFrom: int, wick: bool)
    requires SequenceHolds(f, buy, SHIFT, c, scanFrom)
    ensures SequenceHolds(f, buy, SHIFT, c.(q := c.q.(wickBreak := wick)), scanFrom)
  {
  }

  lemma InShift(f: Feed, buy: bool, c: Ctx, scanFrom: int)
    requires SequenceHolds(f, buy, SHIFT, c, scanFrom)
    ensures c.q.raid.Some? && c.q.mssLevel.Some?
  {
  }

  lemma InGap(f: Feed, buy: bool, c: Ctx, scanFrom: int)
    requires SequenceHolds(f, buy, GAP, c, scanFrom)
    ensures c.q.raid.Some? && c.q.mssLevel.Some? && c.q.mss.Some? && !c.q.pending
    ensures Broke(f, buy, c.q.raid.value, c.q.mssLevel.value, c.q.mss.value)
  {
    hide RaidSeen, BackInside, Displaced, Broke;
  }

  /** The gap is found: the scan starts after the bar that confirmed it, or where an earlier scan had come. */
  lemma ReturnOpens(f: Feed, buy: bool, c: Ctx, scanFrom: int, g: EntryGap)
    requires SequenceHolds(f, buy, GAP, c, scanFrom) && c.q.mss.Some? && GapSeen(f, buy, c.q.mss.value, g)
    ensures var from := if g.t + 60 > c.retestFrom then g.t + 60 else c.retestFrom;
            SequenceHolds(f, buy, RETURN, c.(q := c.q.(fvg := Some(g))), from)
  {
    hide RaidSeen, BackInside, Displaced, Broke, GapSeen;
  }

  lemma InSequence(f: Feed, buy: bool, s: ZState, c: Ctx, scanFrom: int)
    requires SequenceHolds(f, buy, s, c, scanFrom) && OnSequence(s)
    ensures c.q.raid.Some? && (s == RAID ==> RaidHolds(f, buy, c) && RaidSeen(f, buy, c.q.raid.value) && !c.q.pending)
  {
  }

  lemma RaidGoesOn(f: Feed, buy: bool, c: Ctx, scanFrom: int, i: nat)
    requires f.Valid() && !c.q.pending && c.q.raid.Some? && RaidSeen(f, buy, c.q.raid.value)
    requires var r := c.q.raid.value;
             && AtOrAfter(f.Of(r.tf), r.t) < i < |f.Of(r.tf)| && c.seen.At(r.tf) == f.Of(r.tf)[i].t
             && BackInside(f, buy, r)
    ensures SequenceHolds(f, buy, RAID, c, scanFrom)
  {
    var bars := f.Of(c.q.raid.value.tf);
    assert bars[AtOrAfter(bars, c.q.raid.value.t)].t < bars[i].t;
  }

  lemma BrokeAt(f: Feed, buy: bool, r: Raid, level: real, k: nat)
    requires f.Valid() && AtOrAfter(f.m1, r.closeT) <= k < |f.m1| && NoneOver(f.m1, buy, r, level, k)
    requires Over(buy, f.m1[k].c, level)
    ensures Broke(f, buy, r, level, f.m1[k].t)
  {
    IndexOf(f.m1, k);
    var a := AtOrAfter(f.m1, r.closeT);
    assert f.m1[a].t <= f.m1[k].t;
  }

  lemma GapFound(f: Feed, buy: bool, mss: int, m: nat, g: EntryGap)
    requires f.Valid() && AtOrAfter(f.m1, mss) <= m < AtOrAfter(f.m1, mss) + FOOTPRINT_BARS < |f.m1| && f.m1[m].t == g.t
    requires Widest(f.m1, buy, AtOrAfter(f.m1, mss), m, g) && Footprint(f.m1, AtOrAfter(f.m1, mss), buy)
    requires ClearOfBprs(f.m1, AtOrAfter(f.m1, mss), g)
    ensures GapSeen(f, buy, mss, g)
  {
    IndexOf(f.m1, m);
  }

  /** The gap opens no earlier than the raid's close. */
  lemma AfterBreak(f: Feed, buy: bool, r: Raid, level: real, mss: int, g: EntryGap)
    requires f.Valid() && Broke(f, buy, r, level, mss) && GapSeen(f, buy, mss, g)
    ensures r.closeT <= mss <= g.t
  {
    hide Widest, Footprint, ClearOfBprs;
    var b, k := AtOrAfter(f.m1, mss), AtOrAfter(f.m1, g.t);
    assert b < k ==> f.m1[b].t < f.m1[k].t;
  }

  /** The scan resumes at the first bar after both marks. */
  lemma MarkOf(f: Feed, buy: bool, g: EntryGap, scanFrom: int, retestFrom: int)
    requires f.Valid() && Scanned(f, buy, g, scanFrom, retestFrom)
    ensures var k := Past(f.m1, if g.t + 60 > retestFrom then g.t + 60 else retestFrom);
            && (forall j :: 0 <= j < k ==> f.m1[j].t <= scanFrom || f.m1[j].t <= retestFrom)
            && (k < |f.m1| ==> scanFrom < f.m1[k].t && retestFrom < f.m1[k].t)
  {
  }

  lemma NextBar(bars: seq<Bar>, k: nat)
    requires Sorted(bars) && k < |bars|
    ensures forall j :: 0 <= j <= k ==> bars[j].t <= bars[k].t
    ensures k + 1 < |bars| ==> bars[k].t < bars[k + 1].t
  {
  }
}
