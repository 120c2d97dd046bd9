/** When the executor says a confirmation, and how far that is from the bar that earned it. */
module ZoneTiming {
  import opened Trades
  import opened Primitives
  import opened Gaps
  import opened Feeds
  import opened StopTargets
  import opened ZoneTypes
  import opened ZoneScan

  function Later(a: int, b: int): int {
    if a > b then a else b
  }

  /** The close of the bar after the displacement: the event that opens the shift. */
  function ShiftClose(f: Feed, q: Sequence): int
    requires q.raid.Some? && q.disp.Some?
  {
    CloseAt(f, q.raid.value.tf, AtOrAfter(f.Of(q.raid.value.tf), q.disp.value) + 1)
  }

  /** The close of the fourth bar from the break: the event that completes the footprint. */
  function WindowClose(f: Feed, q: Sequence): int
    requires q.mss.Some?
  {
    CloseAt(f, M1, AtOrAfter(f.m1, q.mss.value) + FOOTPRINT_BARS)
  }

  /** The latest of the close of the defending bar and of the two bars its gap had to wait for. */
  function ConfirmTime(f: Feed, q: Sequence, k: nat): int
    requires q.raid.Some? && q.disp.Some? && q.mss.Some?
  {
    Later(CloseAt(f, M1, k), Later(ShiftClose(f, q), WindowClose(f, q)))
  }

  /** The event of bar i at t took the zone from state s on, without ending the sequence. */
  ghost predicate Moved(f: Feed, buy: bool, s: ZState, c: Ctx, from: int, s1: ZState, c1: Ctx, scanFrom: int, tf: TF,
                        i: nat, t: int) {
    || (s1 != SHIFT && s1 != GAP && s1 != RETURN)
    || (tf != M1 && s1 == s && c1 == c && scanFrom == from)
    || (tf == M1 && (s == SHIFT || s == GAP || s == RETURN) && Onward(f, buy, s, c, s1, c1, scanFrom, t))
    || (s == RAID && 1 <= i < |f.Of(tf)| && c.q.raid.Some? && c.q.raid.value.tf == tf
        && Onward(f, buy, SHIFT, Shifted(c, f.Of(tf)[i - 1].t, c1.q.mssLevel), s1, c1, scanFrom, t))
  }

  function Shifted(c: Ctx, disp: int, level: Option<real>): Ctx {
    c.(q := c.q.(disp := Some(disp), mssLevel := level))
  }

  /** The event of bar i at t confirmed bar k. */
  ghost predicate Ripe(f: Feed, s: ZState, c: Ctx, from: int, q: Sequence, tf: TF, i: nat, t: int, k: nat) {
    if s == RAID then
      && 1 <= i < |f.Of(tf)| && c.q.raid.Some? && c.q.raid.value.tf == tf
      && Landed(f, SHIFT, Shifted(c, f.Of(tf)[i - 1].t, q.mssLevel), from, q, t, k)
    else
      tf == M1 && (s == SHIFT || s == GAP || s == RETURN) && Landed(f, s, c, from, q, t, k)
  }

  /** Bars in time order: after the event the scans have come to the last M1 bar seen. */
  lemma StaysCurrent(f: Feed, buy: bool, s: ZState, c: Ctx, from: int, s1: ZState, c1: Ctx, scanFrom: int, tf: TF,
                     i: nat, prior: int, t: int, u: int)
    requires f.Valid() && i < |f.Of(tf)| && t == CloseAt(f, tf, i)
    requires Moved(f, buy, s, c, from, s1, c1, scanFrom, tf, i, t)
    requires UpTo(f, buy, s, c, from, u) && Opened(f, s, c.q, prior) && prior <= t
    requires c1.seen.m1 + 60 <= t && (tf != M1 ==> c1.seen.m1 <= u)
    ensures UpTo(f, buy, s1, c1, scanFrom, c1.seen.m1) && Opened(f, s1, c1.q, t)
  {
    hide UpTo, Opened, Onward, WindowDone;
    if tf != M1 && s1 == s && c1 == c && scanFrom == from {
      UpToEarlier(f, buy, s, c, from, u, c1.seen.m1);
      OpenedLater(f, s, c.q, prior, t);
    } else if s1 == SHIFT || s1 == GAP || s1 == RETURN {
      if s == RAID {
        RaidOpens(f, tf, i, c, c1.q.mssLevel);
        OnwardCurrent(f, buy, SHIFT, Shifted(c, f.Of(tf)[i - 1].t, c1.q.mssLevel), s1, c1, scanFrom, t, t);
      } else {
        OnwardCurrent(f, buy, s, c, s1, c1, scanFrom, prior, t);
      }
      UpToEarlier(f, buy, s1, c1, scanFrom, t - 60, c1.seen.m1);
    } else {
      NothingToScan(f, buy, s1, c1, scanFrom, c1.seen.m1, t);
    }
  }

  lemma OpenedLater(f: Feed, s: ZState, q: Sequence, prior: int, t: int)
    requires Opened(f, s, q, prior) && prior <= t
    ensures Opened(f, s, q, t)
  {
  }

  lemma OnwardCurrent(f: Feed, buy: bool, s: ZState, c: Ctx, s1: ZState, c1: Ctx, scanFrom: int, prior: int, t: int)
    requires Onward(f, buy, s, c, s1, c1, scanFrom, t) && Opened(f, s, c.q, prior) && prior <= t
    requires s == SHIFT || s == GAP || s == RETURN
    ensures UpTo(f, buy, s1, c1, scanFrom, t - 60) && Opened(f, s1, c1.q, t)
  {
    hide UpTo;
  }

  /** The bar after the displacement has just closed. */
  lemma RaidOpens(f: Feed, tf: TF, i: nat, c: Ctx, level: Option<real>)
    requires f.Valid() && 1 <= i < |f.Of(tf)| && c.q.raid.Some? && c.q.raid.value.tf == tf
    ensures Opened(f, SHIFT, Shifted(c, f.Of(tf)[i - 1].t, level).q, CloseAt(f, tf, i))
  {
    IndexOf(f.Of(tf), i - 1);
  }

  lemma NothingToScan(f: Feed, buy: bool, s: ZState, c: Ctx, scanFrom: int, u: int, t: int)
    requires s != SHIFT && s != GAP && s != RETURN
    ensures UpTo(f, buy, s, c, scanFrom, u) && Opened(f, s, c.q, t)
  {
  }

  /** Bars in time order: a confirmation is said at the latest of the three closes, never later. */
  lemma ConfirmedWhen(f: Feed, buy: bool, s: ZState, c: Ctx, from: int, q: Sequence, scanFrom: int, tf: TF, i: nat,
                      prior: int, t: int, u: int, k: nat)
    requires f.Valid() && i < |f.Of(tf)| && t == CloseAt(f, tf, i) && (tf == M1 ==> i == Past(f.m1, u))
    requires Ripe(f, s, c, from, q, tf, i, t, k)
    requires UpTo(f, buy, s, c, from, u) && Opened(f, s, c.q, prior) && prior <= t
    requires Chain(f, buy, q, scanFrom, k) && CloseAt(f, M1, k) <= t
    ensures t == ConfirmTime(f, q, k)
  {
    hide UpTo, Opened, Chain, Landed;
    ChainHas(f, buy, q, scanFrom, k);
    match s {
      case RAID => RaidOnTime(f, c, from, q, tf, i, t, k);
      case SHIFT => ShiftTooEarly(f, buy, c, from, q, scanFrom, i, t, u, k);
      case GAP => GapOnTime(f, buy, c, from, q, i, prior, t, u, k);
      case RETURN => ReturnOnTime(f, buy, c, from, q, i, prior, t, u, k);
    }
  }

  lemma ChainHas(f: Feed, buy: bool, q: Sequence, scanFrom: int, k: nat)
    requires Chain(f, buy, q, scanFrom, k)
    ensures q.raid.Some? && q.disp.Some? && q.mss.Some? && k < |f.m1|
  {
  }

  /** The event closes no earlier than the window and the shift, and is one of the three. */
  lemma TimeIs(f: Feed, q: Sequence, t: int, k: nat)
    requires q.raid.Some? && q.disp.Some? && q.mss.Some? && CloseAt(f, M1, k) <= t
    requires ShiftOpen(f, q.raid.value.tf, q.disp.value, t) && WindowDone(f, q.mss.value, t)
    requires t == CloseAt(f, M1, k) || t == ShiftClose(f, q) || t == WindowClose(f, q)
    ensures t == ConfirmTime(f, q, k)
  {
  }

  /** From RAID the event is the close of the bar after the displacement. */
  lemma RaidOnTime(f: Feed, c: Ctx, from: int, q: Sequence, tf: TF, i: nat, t: int, k: nat)
    requires f.Valid() && i < |f.Of(tf)| && t == CloseAt(f, tf, i) && CloseAt(f, M1, k) <= t
    requires q.raid.Some? && q.disp.Some? && q.mss.Some?
    requires Ripe(f, RAID, c, from, q, tf, i, t, k)
    ensures t == ConfirmTime(f, q, k)
  {
    hide WindowDone, ConfirmTime, Sorted;
    IndexOf(f.Of(tf), i - 1);
    TimeIs(f, q, t, k);
  }

  /** From SHIFT the break was seen before. */
  lemma BrokeBefore(f: Feed, buy: bool, q: Sequence, scanFrom: int, i: nat, k: nat, u: int)
    requires f.Valid() && i < |f.m1| && i == Past(f.m1, u) && Chain(f, buy, q, scanFrom, k) && f.m1[k].t <= f.m1[i].t
    ensures q.raid.Some? && q.mssLevel.Some? && q.mss.Some?
    ensures var b := AtOrAfter(f.m1, q.mss.value);
            b < |f.m1| && q.raid.value.closeT <= f.m1[b].t <= u && Over(buy, f.m1[b].c, q.mssLevel.value)
  {
    hide RaidSeen, BackInside, Displaced, GapSeen, Defended, Untouched, Over;
    ChainInOrder(f, buy, q, scanFrom, k);
    SameOrBefore(f.m1, k, i);
  }

  /** From SHIFT a break is the event's own bar, too early for a retest. */
  lemma ShiftTooEarly(f: Feed, buy: bool, c: Ctx, from: int, q: Sequence, scanFrom: int, i: nat, t: int, u: int, k: nat)
    requires f.Valid() && i < |f.m1| && i == Past(f.m1, u) && Chain(f, buy, q, scanFrom, k) && f.m1[k].t <= f.m1[i].t
    requires Landed(f, SHIFT, c, from, q, t, k)
    ensures !UpTo(f, buy, SHIFT, c, from, u)
  {
    hide Chain, Over, WindowDone;
    BrokeBefore(f, buy, q, scanFrom, i, k, u);
  }

  /** From GAP the event is the close of the fourth bar from the break. */
  lemma GapOnTime(f: Feed, buy: bool, c: Ctx, from: int, q: Sequence, i: nat, prior: int, t: int, u: int, k: nat)
    requires f.Valid() && i < |f.m1| && t == CloseAt(f, M1, i) && i == Past(f.m1, u)
    requires Landed(f, GAP, c, from, q, t, k) && UpTo(f, buy, GAP, c, from, u) && Opened(f, GAP, c.q, prior)
              && prior <= t
    requires CloseAt(f, M1, k) <= t && q.raid.Some? && q.disp.Some? && q.mss.Some?
    ensures t == ConfirmTime(f, q, k)
  {
    hide ConfirmTime, Sorted, NotDone;
    FootprintDone(f, q.mss.value, i, u);
    TimeIs(f, q, t, k);
  }

  lemma FootprintDone(f: Feed, mss: int, i: nat, u: int)
    requires f.Valid() && i < |f.m1| && i == Past(f.m1, u) && NotDone(f, mss, u) && WindowDone(f, mss, f.m1[i].t + 60)
    ensures i == AtOrAfter(f.m1, mss) + FOOTPRINT_BARS
  {
    SameOrBefore(f.m1, AtOrAfter(f.m1, mss) + FOOTPRINT_BARS, i);
    assert f.m1[i - 1].t <= u;
  }

  /** From RETURN the event is the close of the defending bar itself. */
  lemma ReturnOnTime(f: Feed, buy: bool, c: Ctx, from: int, q: Sequence, i: nat, prior: int, t: int, u: int, k: nat)
    requires f.Valid() && i < |f.m1| && t == CloseAt(f, M1, i) && i == Past(f.m1, u)
    requires Landed(f, RETURN, c, from, q, t, k) && UpTo(f, buy, RETURN, c, from, u) && Opened(f, RETURN, c.q, prior)
    requires prior <= t && CloseAt(f, M1, k) <= t && q.raid.Some? && q.disp.Some? && q.mss.Some?
    ensures t == ConfirmTime(f, q, k) && k == i
  {
    SameOrBefore(f.m1, k, i);
    TimeIs(f, q, t, k);
  }

  lemma SameOrBefore(bars: seq<Bar>, i: nat, j: nat)
    requires Sorted(bars) && i < |bars| && j < |bars| && bars[i].t <= bars[j].t
    ensures i <= j
  {
  }

  // ---------------------------------------------------------------- the lag behind the defending bar

  /** Bars i to j follow each other without a hole. */
  ghost predicate Contiguous(f: Feed, tf: TF, i: nat, j: nat) {
    j < |f.Of(tf)| && forall n :: i <= n < j ==> f.Of(tf)[n + 1].t == f.Of(tf)[n].t + Seconds(tf)
  }

  lemma {:induction false} Spaced(f: Feed, tf: TF, i: nat, j: nat)
    requires i <= j && Contiguous(f, tf, i, j)
    ensures f.Of(tf)[j].t == f.Of(tf)[i].t + (j - i) * Seconds(tf)
    decreases j - i
  {
    if i < j {
      Spaced(f, tf, i, j - 1);
    }
  }

  /** The bar that defends is the last one the confirmation had to wait for. */
  predicate DefendsLast(f: Feed, q: Sequence, k: nat)
    requires q.raid.Some? && q.disp.Some? && q.mss.Some?
  {
    CloseAt(f, M1, k) >= ShiftClose(f, q) && k >= AtOrAfter(f.m1, q.mss.value) + FOOTPRINT_BARS
  }

  /** A confirmation is said at the close of its defending bar exactly when that bar closes no earlier than the bar
      after the displacement and is no earlier than the fourth bar from the break. */
  lemma AtItsClose(f: Feed, buy: bool, q: Sequence, scanFrom: int, k: nat)
    requires f.Valid() && Chain(f, buy, q, scanFrom, k)
    ensures q.raid.Some? && q.disp.Some? && q.mss.Some?
    ensures ConfirmTime(f, q, k) >= CloseAt(f, M1, k)
    ensures ConfirmTime(f, q, k) == CloseAt(f, M1, k) <==> DefendsLast(f, q, k)
  {
    hide RaidSeen, BackInside, Displaced, Broke, Widest, Footprint, ClearOfBprs, Defended, Untouched;
    ChainHas(f, buy, q, scanFrom, k);
    InWindow(f, buy, q, scanFrom, k);
    var n := AtOrAfter(f.m1, q.mss.value) + FOOTPRINT_BARS;
    if k < n {
      assert f.m1[k].t < f.m1[n].t;
    } else {
      assert f.m1[n].t <= f.m1[k].t;
    }
  }

  lemma InWindow(f: Feed, buy: bool, q: Sequence, scanFrom: int, k: nat)
    requires f.Valid() && Chain(f, buy, q, scanFrom, k)
    ensures q.mss.Some? && AtOrAfter(f.m1, q.mss.value) + FOOTPRINT_BARS < |f.m1|
  {
  }

  /** Where candles follow each other without a hole the lag stays below four bars of the raid's timeframe less two
      minutes. */
  lemma LagIsBounded(f: Feed, buy: bool, q: Sequence, scanFrom: int, k: nat)
    requires f.Valid() && Chain(f, buy, q, scanFrom, k)
    requires var r := q.raid.value;
             Contiguous(f, r.tf, AtOrAfter(f.Of(r.tf), r.t), AtOrAfter(f.Of(r.tf), q.disp.value) + 1)
    requires Contiguous(f, M1, AtOrAfter(f.m1, q.mss.value), AtOrAfter(f.m1, q.mss.value) + FOOTPRINT_BARS)
    ensures ConfirmTime(f, q, k) - CloseAt(f, M1, k) < (DISP_WINDOW + 1) * Seconds(q.raid.value.tf) - 120
  {
    hide Chain, Contiguous, ShiftClose, WindowClose, CloseAt;
    ChainHas(f, buy, q, scanFrom, k);
    var r := q.raid.value;
    ShiftSpan(f, buy, q, scanFrom, k);
    ShiftLag(f, buy, q, scanFrom, k, AtOrAfter(f.Of(r.tf), q.disp.value) + 1 - AtOrAfter(f.Of(r.tf), r.t));
    WindowLag(f, buy, q, scanFrom, k);
  }

  lemma ShiftSpan(f: Feed, buy: bool, q: Sequence, scanFrom: int, k: nat)
    requires f.Valid() && Chain(f, buy, q, scanFrom, k)
    requires var r := q.raid.value;
             Contiguous(f, r.tf, AtOrAfter(f.Of(r.tf), r.t), AtOrAfter(f.Of(r.tf), q.disp.value) + 1)
    ensures var r := q.raid.value;
            var n := AtOrAfter(f.Of(r.tf), q.disp.value) + 1 - AtOrAfter(f.Of(r.tf), r.t);
            n <= DISP_WINDOW + 1 && ShiftClose(f, q) == r.closeT + n * Seconds(r.tf)
  {
    hide IsDisplacement, Atr, BackInside, Broke, GapSeen, Defended, Untouched, Contiguous, WithTrade, Sorted;
    var r := q.raid.value;
    var ri, di := AtOrAfter(f.Of(r.tf), r.t), AtOrAfter(f.Of(r.tf), q.disp.value);
    Spaced(f, r.tf, ri, di + 1);
  }

  lemma WindowLag(f: Feed, buy: bool, q: Sequence, scanFrom: int, k: nat)
    requires f.Valid() && Chain(f, buy, q, scanFrom, k)
    requires Contiguous(f, M1, AtOrAfter(f.m1, q.mss.value), AtOrAfter(f.m1, q.mss.value) + FOOTPRINT_BARS)
    ensures WindowClose(f, q) - CloseAt(f, M1, k) < 120
  {
    hide RaidSeen, BackInside, Displaced, GapSeen, Defended, Untouched, NoneOver, Over;
    ChainInOrder(f, buy, q, scanFrom, k);
    var b := AtOrAfter(f.m1, q.mss.value);
    Spaced(f, M1, b, b + FOOTPRINT_BARS);
  }

  lemma ShiftLag(f: Feed, buy: bool, q: Sequence, scanFrom: int, k: nat, n: int)
    requires f.Valid() && Chain(f, buy, q, scanFrom, k) && n <= DISP_WINDOW + 1
    requires ShiftClose(f, q) == q.raid.value.closeT + n * Seconds(q.raid.value.tf)
    ensures ShiftClose(f, q) - CloseAt(f, M1, k) < (DISP_WINDOW + 1) * Seconds(q.raid.value.tf) - 120
  {
    hide Displaced, Broke, GapSeen, Defended, Untouched;
    ChainInOrder(f, buy, q, scanFrom, k);
    var s := Seconds(q.raid.value.tf);
    assert n * s <= (DISP_WINDOW + 1) * s;
  }

  /** The kill zone is open at the close of the defending bar, for every calendar under which the setup would be
      confirmed, exactly when that close is the moment it is checked at. */
  lemma OpenForAll(m: Market, buy: bool, thesis: Thesis, r: Raid, k: nat, t: int)
    requires Grounds(m, buy, thesis, r, k, t).Some?
    ensures (forall open: int -> bool :: Grounds(m.(killzone := open), buy, thesis, r, k, t).Some? ==>
               open(CloseAt(m.feed, M1, k))) <==> t == CloseAt(m.feed, M1, k)
  {
    hide FiduciarySl, LadderOf, WorstOf, BestOf, Atr, CloseAt;
    var only := (x: int) => x == t;
    assert Grounds(m.(killzone := only), buy, thesis, r, k, t).Some?;
  }

  /** And the defending bar is no older than the limit, at every moment the setup would be confirmed, exactly then. */
  lemma FreshForAll(m: Market, buy: bool, thesis: Thesis, r: Raid, k: nat, t: int)
    requires Grounds(m, buy, thesis, r, k, t).Some? && CloseAt(m.feed, M1, k) <= t
    ensures (forall now: int :: Grounds(m.(now := now), buy, thesis, r, k, t).Some? ==>
               now - CloseAt(m.feed, M1, k) <= CONFIRM_MAX_LAG_S) <==> t == CloseAt(m.feed, M1, k)
  {
    hide FiduciarySl, LadderOf, WorstOf, BestOf, Atr, CloseAt;
    assert Grounds(m.(now := t + CONFIRM_MAX_LAG_S), buy, thesis, r, k, t).Some?;
  }

  /** So a plan said on time whose bar defends last had the kill zone open at that bar's close, at most two minutes
      ago. */
  lemma OpenAtItsClose(w: Made, buy: bool, thesis: Thesis, q: Sequence, scanFrom: int)
    requires MadeHolds(w, buy, thesis, q, scanFrom) && w.m.feed.Valid()
    requires w.d.ts == ConfirmTime(w.m.feed, q, w.k) && DefendsLast(w.m.feed, q, w.k)
    ensures var c := CloseAt(w.m.feed, M1, w.k);
            w.d.ts == c && w.m.killzone(c) && w.m.now - c <= CONFIRM_MAX_LAG_S
  {
    hide Chain, PlanOf;
    AtItsClose(w.m.feed, buy, q, scanFrom, w.k);
  }
}
