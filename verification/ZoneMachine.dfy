/** The executor's zone state machine: WATCH, RAID, SHIFT, GAP, RETURN, CONFIRMED, and MONITOR, DEAD. */
module ZoneMachine {
  import opened Trades
  import opened Primitives
  import opened Gaps
  import opened Feeds
  import opened StopTargets
  import opened ZoneTypes
  import opened ZoneScan
  import opened ZoneTiming

  // ---------------------------------------------------------------- the zone

  function CountOut(out: seq<Decision>, o: Output): nat {
    if out == [] then 0 else CountOut(out[..|out| - 1], o) + if out[|out| - 1].out == o then 1 else 0
  }

  ghost predicate AllHold(m: Market, buy: bool, out: seq<Decision>) {
    forall d :: d in out ==> DecisionHolds(m, buy, d)
  }

  /** The zone is over: a plan was made, or its thesis broke. */
  predicate Final(out: seq<Decision>) {
    exists d :: d in out && (d.out == CONFIRM || d.out == INVALIDATED)
  }

  /** Decisions after which the zone starts over or rests. */
  predicate Clears(o: Output) {
    o == RESET || o == NOSETUP || o == MONITORED || o == INVALIDATED
  }

  function CountClears(out: seq<Decision>): nat {
    if out == [] then 0 else CountClears(out[..|out| - 1]) + if Clears(out[|out| - 1].out) then 1 else 0
  }

  /** Every plan said is the one on record. */
  ghost predicate PlansAre(out: seq<Decision>, m: Market, made: Option<Made>) {
    forall d :: d in out && d.out == CONFIRM ==> made.Some? && made.value.d == d && made.value.m == m
  }

  lemma NothingYet(m: Market, buy: bool)
    ensures AllHold(m, buy, []) && !Final([]) && (forall o :: CountOut([], o) == 0) && CountClears([]) == 0
  {
  }

  lemma NoPlans(out: seq<Decision>, m: Market, made: Option<Made>)
    requires !Final(out)
    ensures PlansAre(out, m, made)
  {
  }

  lemma PlansKept(out: seq<Decision>, m: Market, before: Option<Made>, after: Option<Made>)
    requires PlansAre(out, m, before) && (before.Some? ==> after == before)
    ensures PlansAre(out, m, after)
  {
  }

  lemma PlansGrow(out: seq<Decision>, d: Decision, m: Market, made: Option<Made>)
    requires PlansAre(out, m, made) && (d.out == CONFIRM ==> made.Some? && made.value.d == d && made.value.m == m)
    ensures PlansAre(out + [d], m, made)
  {
  }

  lemma OutGrows(m: Market, buy: bool, out: seq<Decision>, d: Decision)
    requires AllHold(m, buy, out) && DecisionHolds(m, buy, d)
    ensures AllHold(m, buy, out + [d])
    ensures Final(out + [d]) <==> Final(out) || d.out == CONFIRM || d.out == INVALIDATED
    ensures forall o :: CountOut(out + [d], o) == CountOut(out, o) + if d.out == o then 1 else 0
    ensures CountClears(out + [d]) == CountClears(out) + if Clears(d.out) then 1 else 0
  {
    hide DecisionHolds;
    assert (out + [d])[..|out|] == out;
    assert d in out + [d];
    assert Final(out) ==> exists e :: e in out + [d] && (e.out == CONFIRM || e.out == INVALIDATED);
  }

  /** A clearing that is no RESET, said alone. */
  lemma SaidAlone(m: Market, buy: bool, d: Decision, made: Option<Made>)
    requires d.out == MONITORED || d.out == INVALIDATED
    ensures AllHold(m, buy, [d]) && (Final([d]) <==> d.out == INVALIDATED) && PlansAre([d], m, made)
    ensures CountOut([d], RESET) == CountOut([d], CONFIRM) == 0 && CountClears([d]) == 1
  {
    hide AllHold, Final, CountOut, CountClears, PlansAre, PlanHolds;
    NothingYet(m, buy);
    OutGrows(m, buy, [], d);
    NoPlans([], m, made);
    PlansGrow([], d, m, made);
    assert [] + [d] == [d];
  }

  /** Marking the bar as seen changes nothing a cause speaks of. */
  lemma CauseSeen(m: Market, buy: bool, s: ZState, c: Ctx, tf: TF, i: nat)
    requires m.feed.m5 != [] && i < |m.feed.Of(tf)|
    ensures var d := Marked(m, buy, c, tf, m.feed.Of(tf)[i]);
            && (forall t :: NoiseCause(m, buy, s, d, tf, i, t) ==> NoiseCause(m, buy, s, c, tf, i, t))
            && Contradicts(m, buy, s, d, tf, i) == Contradicts(m, buy, s, c, tf, i)
  {
    hide M15Contradiction, RaidsPool, RaidLost, ShiftLost, GapLost, RetestLost, Under;
  }

  datatype Tally = Tally(seen: Seen, sweeps: nat, resets: nat, marks: nat, thesis: Thesis)

  predicate IsPlan(d: Option<Decision>) {
    d.Some? && d.value.out == CONFIRM
  }

  /** The raid bar was processed after every clearing so far. */
  ghost predicate RaidAfter(handled: seq<(TF, int)>, marks: seq<nat>, raidAt: nat, raid: Option<Raid>) {
    && (forall j :: 0 <= j < |marks| ==> marks[j] <= |handled|)
    && (raid.Some? ==> raidAt < |handled| && handled[raidAt] == (raid.value.tf, raid.value.t)
                       && forall j :: 0 <= j < |marks| ==> marks[j] <= raidAt)
  }

  lemma Cleared(handled: seq<(TF, int)>, marks: seq<nat>, raidAt: nat, raid: Option<Raid>)
    requires RaidAfter(handled, marks, raidAt, raid)
    ensures RaidAfter(handled, marks + [|handled|], raidAt, None)
  {
  }

  lemma RaidIsLast(handled: seq<(TF, int)>, marks: seq<nat>, raidAt: nat, r: Raid)
    requires RaidAfter(handled, marks, raidAt, None) && handled != [] && handled[|handled| - 1] == (r.tf, r.t)
    requires forall j :: 0 <= j < |marks| ==> marks[j] < |handled|
    ensures RaidAfter(handled, marks, |handled| - 1, Some(r))
  {
  }

  lemma OneMoreHandled(handled: seq<(TF, int)>, marks: seq<nat>, raidAt: nat, raid: Option<Raid>, e: (TF, int))
    requires RaidAfter(handled, marks, raidAt, raid)
    ensures RaidAfter(handled + [e], marks, raidAt, raid)
    ensures forall j :: 0 <= j < |marks| ==> marks[j] < |handled + [e]|
  {
  }

  // ---------------------------------------------------------------- what an event must lead to

  /** A defended retest at bar k was neither missed nor called noise: it got the plan it is worth, if any. */
  ghost predicate Earned(m: Market, buy: bool, thesis: Thesis, r: Raid, d: Option<Decision>, k: nat, t: int) {
    d.Some? && !IsNoise(d) && d.value.plan == Grounds(m, buy, thesis, r, k, t)
  }

  /** A lost one is noise: the sequence is forgotten and the mark is at bar k. */
  ghost predicate Forgotten(m: Market, c: Ctx, d: Option<Decision>, k: nat, c1: Ctx) {
    IsNoise(d) && k < |m.feed.m1| && c1 == c.(retestFrom := m.feed.m1[k].t, q := NO_SEQUENCE)
  }

  /** What bar k, which settles the retest, must have led to. */
  ghost predicate Settled(m: Market, buy: bool, thesis: Thesis, r: Raid, c: Ctx, d: Option<Decision>, k: nat, t: int,
                          c1: Ctx, loses: bool) {
    if loses then Forgotten(m, c, d, k, c1) else Earned(m, buy, thesis, r, d, k, t)
  }

  ghost predicate ReturnAnswers(m: Market, buy: bool, thesis: Thesis, c: Ctx, d: Option<Decision>, t: int, c1: Ctx) {
    c.q.raid.Some? && c.q.mss.Some? && c.q.fvg.Some? ==>
      var m1, g := m.feed.m1, c.q.fvg.value;
      var b, start := AtOrAfter(m1, c.q.mss.value), ScanStart(m1, g, c.retestFrom);
      forall k :: Decides(m1, buy, g, b, start, c.q.pending, t, k) ==>
        Settled(m, buy, thesis, c.q.raid.value, c, d, k, t, c1, LosesAt(m1, buy, g, b, start, c.q.pending, k))
  }

  ghost predicate GapAnswers(m: Market, buy: bool, thesis: Thesis, r: Raid, mss: int, c: Ctx, d: Option<Decision>,
                             t: int, c1: Ctx) {
    forall g, k :: GapSettles(m.feed, buy, mss, c.retestFrom, t, g, k) ==>
      Settled(m, buy, thesis, r, c, d, k, t, c1, GapLoses(m.feed, buy, mss, c.retestFrom, g, k))
  }

  ghost predicate ShiftAnswers(m: Market, buy: bool, thesis: Thesis, r: Raid, level: real, c: Ctx, d: Option<Decision>,
                               t: int, c1: Ctx) {
    forall mss, g, k :: ShiftSettles(m.feed, buy, r, level, c.retestFrom, t, mss, g, k) ==>
      Settled(m, buy, thesis, r, c, d, k, t, c1, GapLoses(m.feed, buy, mss, c.retestFrom, g, k))
  }

  /** The bar after the raid closed back inside: the raid goes on. The bar before this one drove: the shift opens. */
  ghost predicate RaidAnswers(m: Market, buy: bool, thesis: Thesis, c: Ctx, i: nat, d: Option<Decision>, t: int,
                              s1: ZState, c1: Ctx)
    requires m.feed.m5 != []
  {
    c.q.raid.Some? ==>
      var r := c.q.raid.value;
      var bars, ri := m.feed.Of(r.tf), AtOrAfter(m.feed.Of(r.tf), r.t);
      && (i == ri + 1 && BackInside(m.feed, buy, r) ==> d.None? && s1 == RAID && c1 == c.(q := c.q.(type7 := true)))
      && (ri + 1 < i <= ri + DISP_WINDOW + 1 && Drives(bars, buy, i - 1) ==>
            ShiftAnswers(m, buy, thesis, r, MssLevel(m.feed, buy, r), c, d, t, c1))
  }

  /** A body close beyond the deepest pool swept opens the raid of that bar, and every pool swept is remembered. */
  ghost predicate WatchAnswers(m: Market, buy: bool, c: Ctx, tf: TF, b: Bar, t: int, s1: ZState, c1: Ctx) {
    forall p :: RaidsPool(m, buy, c.swept, b, p) && Under(buy, b.c, p.level) ==>
      && s1 == RAID && c1.q == c.q.(raid := Some(Raid(b.t, tf, p.level, Reach(buy, b), t)))
      && c1 == c.(anchorReached := true, swept := NowSwept(m, buy, c.swept, b), q := c1.q)
  }

  function NowSwept(m: Market, buy: bool, done: seq<real>, b: Bar): seq<real> {
    LastFifty(done + Levels(Swept(m, buy, done, b, |m.pools|)))
  }

  /** An M15 bar contradicts the raid of a sequence. */
  predicate Contradicts(m: Market, buy: bool, s: ZState, c: Ctx, tf: TF, i: nat)
    requires i < |m.feed.Of(tf)|
  {
    tf == M15 && OnSequence(s) && c.q.raid.Some? && M15Contradiction(m.feed.m15, i, buy, c.q.raid.value.t)
  }

  /** What the event of bar i of tf at t makes of a zone in state s with context c. */
  ghost predicate Answers(m: Market, buy: bool, thesis: Thesis, s: ZState, c: Ctx, tf: TF, i: nat, t: int,
                          d: Option<Decision>, s1: ZState, c1: Ctx)
    requires m.feed.m5 != [] && i < |m.feed.Of(tf)|
  {
    match s
    case WATCH => if tf == M1 then d.None? && s1 == s && c1 == c
                  else WatchAnswers(m, buy, c, tf, m.feed.Of(tf)[i], t, s1, c1)
    case RAID => if c.q.raid.Some? && tf == c.q.raid.value.tf then RaidAnswers(m, buy, thesis, c, i, d, t, s1, c1)
                 else d.None? && s1 == s && c1 == c
    case SHIFT => c.q.raid.Some? && c.q.mssLevel.Some? ==>
                    if tf == M1 then ShiftAnswers(m, buy, thesis, c.q.raid.value, c.q.mssLevel.value, c, d, t, c1)
                    else d.None? && s1 == s && c1 == c
    case GAP => c.q.raid.Some? && c.q.mss.Some? ==>
                  if tf == M1 then GapAnswers(m, buy, thesis, c.q.raid.value, c.q.mss.value, c, d, t, c1)
                  else d.None? && s1 == s && c1 == c
    case RETURN => if tf == M1 then ReturnAnswers(m, buy, thesis, c, d, t, c1) else d.None? && s1 == s && c1 == c
    case _ => true
  }

  /** The gap is no anchor: nothing is owed. */
  lemma NotAnAnchor(m: Market, buy: bool, thesis: Thesis, r: Raid, mss: int, c: Ctx, t: int)
    requires forall g :: !GapSeen(m.feed, buy, mss, g)
    ensures forall d, c1 :: GapAnswers(m, buy, thesis, r, mss, c, d, t, c1)
  {
    hide Settled, GapLoses;
  }

  lemma WindowIsDone(f: Feed, mss: int, t: int)
    requires var b := AtOrAfter(f.m1, mss) + FOOTPRINT_BARS; b < |f.m1| && f.m1[b].t + 60 <= t
    ensures WindowDone(f, mss, t)
  {
  }

  lemma RaidIsThere(f: Feed, buy: bool, r: Raid)
    requires RaidSeen(f, buy, r)
    ensures AtOrAfter(f.Of(r.tf), r.t) < |f.Of(r.tf)|
  {
  }

  lemma WidestIs(m1: seq<Bar>, buy: bool, b: nat, w: nat)
    requires b <= w < b + FOOTPRINT_BARS < |m1| && FvgAt(m1, w, SideOf(buy))
    requires forall k :: b <= k < b + FOOTPRINT_BARS && FvgAt(m1, k, SideOf(buy)) ==>
               Width(m1, k, SideOf(buy)) < Width(m1, w, SideOf(buy))
               || (Width(m1, k, SideOf(buy)) == Width(m1, w, SideOf(buy)) && k <= w)
    ensures Widest(m1, buy, b, w, GapOf(m1, w, buy))
  {
    hide FvgAt;
  }

  lemma WindowOwesNothing(m: Market, buy: bool, thesis: Thesis, r: Raid, mss: int, c: Ctx, t: int)
    requires !WindowDone(m.feed, mss, t)
    ensures forall d, c1 :: GapAnswers(m, buy, thesis, r, mss, c, d, t, c1)
  {
    hide Settled, GapLoses;
  }

  /** What is owed depends on the mark, not on the sequence so far. */
  lemma SameDebt(m: Market, buy: bool, thesis: Thesis, r: Raid, a: Ctx, c: Ctx, d: Option<Decision>, k: nat, t: int,
                 c1: Ctx, loses: bool)
    requires a == c.(q := a.q)
    ensures Settled(m, buy, thesis, r, a, d, k, t, c1, loses) == Settled(m, buy, thesis, r, c, d, k, t, c1, loses)
  {
  }

  lemma GapDebt(m: Market, buy: bool, thesis: Thesis, r: Raid, mss: int, a: Ctx, c: Ctx, d: Option<Decision>, t: int,
                c1: Ctx)
    requires a == c.(q := a.q) && GapAnswers(m, buy, thesis, r, mss, a, d, t, c1)
    ensures GapAnswers(m, buy, thesis, r, mss, c, d, t, c1)
  {
    hide Settled, GapLoses, GapSettles;
    forall g, k | GapSettles(m.feed, buy, mss, c.retestFrom, t, g, k)
      ensures Settled(m, buy, thesis, r, c, d, k, t, c1, GapLoses(m.feed, buy, mss, c.retestFrom, g, k))
    {
      SameDebt(m, buy, thesis, r, a, c, d, k, t, c1, GapLoses(m.feed, buy, mss, c.retestFrom, g, k));
    }
  }

  lemma ShiftDebt(m: Market, buy: bool, thesis: Thesis, r: Raid, level: real, a: Ctx, c: Ctx, d: Option<Decision>,
                  t: int, c1: Ctx)
    requires a == c.(q := a.q) && ShiftAnswers(m, buy, thesis, r, level, a, d, t, c1)
    ensures ShiftAnswers(m, buy, thesis, r, level, c, d, t, c1)
  {
    hide Settled, GapLoses, ShiftSettles;
    forall mss, g, k | ShiftSettles(m.feed, buy, r, level, c.retestFrom, t, mss, g, k)
      ensures Settled(m, buy, thesis, r, c, d, k, t, c1, GapLoses(m.feed, buy, mss, c.retestFrom, g, k))
    {
      SameDebt(m, buy, thesis, r, a, c, d, k, t, c1, GapLoses(m.feed, buy, mss, c.retestFrom, g, k));
    }
  }

  /** The scan of the one gap answers for the window. */
  lemma GapAnswered(m: Market, buy: bool, thesis: Thesis, r: Raid, mss: int, c: Ctx, g: EntryGap, d: Option<Decision>,
                    t: int, c1: Ctx)
    requires ReturnAnswers(m, buy, thesis, c, d, t, c1)
    requires c.q.raid == Some(r) && c.q.mss == Some(mss) && c.q.fvg == Some(g) && !c.q.pending
    requires forall h :: GapSeen(m.feed, buy, mss, h) ==> h == g
    ensures GapAnswers(m, buy, thesis, r, mss, c, d, t, c1)
  {
    hide GapSeen, LosesAt, Settled, WaitsAt, ScanStart, WindowDone;
    var m1, b, start := m.feed.m1, AtOrAfter(m.feed.m1, mss), ScanStart(m.feed.m1, g, c.retestFrom);
    forall h, k | GapSettles(m.feed, buy, mss, c.retestFrom, t, h, k)
      ensures Settled(m, buy, thesis, r, c, d, k, t, c1, GapLoses(m.feed, buy, mss, c.retestFrom, h, k))
    {
      assert Decides(m1, buy, g, b, start, false, t, k);
    }
  }

  /** The window of the first break answers for the shift. */
  lemma ShiftAnswered(m: Market, buy: bool, thesis: Thesis, r: Raid, level: real, c: Ctx, mss: int, d: Option<Decision>,
                      t: int, c1: Ctx)
    requires m.feed.Valid() && Broke(m.feed, buy, r, level, mss) && GapAnswers(m, buy, thesis, r, mss, c, d, t, c1)
    ensures ShiftAnswers(m, buy, thesis, r, level, c, d, t, c1)
  {
    hide GapSettles, GapLoses, Settled, Broke;
    forall a | Broke(m.feed, buy, r, level, a)
      ensures a == mss
    {
      BreakIsOne(m.feed, buy, r, level, a, mss);
    }
  }

  /** Nothing has broken the level by t, so no gap of a break is complete. */
  lemma NoBreakYet(m: Market, buy: bool, thesis: Thesis, r: Raid, level: real, c: Ctx, t: int)
    requires m.feed.Valid() && NoneOverBy(m.feed, buy, r, level, t)
    ensures forall d, c1 :: ShiftAnswers(m, buy, thesis, r, level, c, d, t, c1)
  {
    hide GapSeen, Decides, LosesAt, Over, Settled, GapLoses;
    forall mss | Broke(m.feed, buy, r, level, mss)
      ensures !WindowDone(m.feed, mss, t)
    {
      var b := AtOrAfter(m.feed.m1, mss);
      assert b + FOOTPRINT_BARS < |m.feed.m1| ==> m.feed.m1[b].t < m.feed.m1[b + FOOTPRINT_BARS].t;
    }
  }

  /** The bar neither follows the raid bar inside nor follows a displacement: nothing is owed. */
  lemma RaidOwesNothing(m: Market, buy: bool, thesis: Thesis, c: Ctx, i: nat, t: int)
    requires m.feed.m5 != [] && c.q.raid.Some?
    requires var r := c.q.raid.value; var ri := AtOrAfter(m.feed.Of(r.tf), r.t);
             && !(i == ri + 1 && BackInside(m.feed, buy, r))
             && !(ri + 1 < i <= ri + DISP_WINDOW + 1 && Drives(m.feed.Of(r.tf), buy, i - 1))
    ensures forall d, s1, c1 :: RaidAnswers(m, buy, thesis, c, i, d, t, s1, c1)
  {
    hide BackInside, Drives, ShiftAnswers;
  }

  lemma RaidAnswered(m: Market, buy: bool, thesis: Thesis, c: Ctx, i: nat, d: Option<Decision>, t: int, s1: ZState,
                     c1: Ctx)
    requires m.feed.m5 != [] && c.q.raid.Some?
    requires var r := c.q.raid.value; var ri := AtOrAfter(m.feed.Of(r.tf), r.t);
             && i > ri + 1 && ShiftAnswers(m, buy, thesis, r, MssLevel(m.feed, buy, r), c, d, t, c1)
    ensures RaidAnswers(m, buy, thesis, c, i, d, t, s1, c1)
  {
    hide BackInside, Drives, ShiftAnswers, MssLevel;
  }

  lemma RaidGoesOnInside(m: Market, buy: bool, thesis: Thesis, c: Ctx, i: nat, t: int)
    requires m.feed.m5 != [] && c.q.raid.Some?
    requires i == AtOrAfter(m.feed.Of(c.q.raid.value.tf), c.q.raid.value.t) + 1
    ensures RaidAnswers(m, buy, thesis, c, i, None, t, RAID, c.(q := c.q.(type7 := true)))
  {
    hide BackInside, Drives, ShiftAnswers, MssLevel;
  }

  lemma MarkedUpTo(m: Market, buy: bool, c: Ctx, tf: TF, b: Bar, s: ZState, scanFrom: int, u: int)
    requires UpTo(m.feed, buy, s, c, scanFrom, u)
    ensures UpTo(m.feed, buy, s, Marked(m, buy, c, tf, b), scanFrom, u) && Marked(m, buy, c, tf, b).q == c.q
  {
    hide NoneOverBy, NotDone, AllScanned;
  }

  lemma StartIs(m1: seq<Bar>, g: EntryGap, retestFrom: int)
    ensures ScanStart(m1, g, retestFrom) == Past(m1, if g.t + 60 > retestFrom then g.t + 60 else retestFrom)
  {
  }

  lemma MarkedKeeps(m: Market, buy: bool, c: Ctx, tf: TF, b: Bar)
    ensures var d := Marked(m, buy, c, tf, b);
            d.seen == c.seen.Set(tf, b.t) && d.q == c.q && d.retestFrom == c.retestFrom
  {
  }

  /** The next bar of a timeframe opens after the last one seen, and an M1 bar closes with its event. */
  lemma Unseen(f: Feed, seen: Seen, tf: TF, i: nat)
    requires i == Past(f.Of(tf), seen.At(tf)) && i < |f.Of(tf)|
    ensures seen.At(tf) < f.Of(tf)[i].t
    ensures seen.Set(tf, f.Of(tf)[i].t).m1 + 60 <= Later(CloseAt(f, tf, i), seen.m1 + 60)
  {
  }

  lemma ChainBar(f: Feed, buy: bool, q: Sequence, scanFrom: int, k: nat)
    requires Chain(f, buy, q, scanFrom, k)
    ensures k < |f.m1|
  {
  }

  /** A scan begun with context c has come to bar k with context `now`: no bar settled the retest. */
  ghost predicate SoFar(f: Feed, buy: bool, c: Ctx, from: int, k: nat, now: Ctx) {
    && c.q.raid.Some? && c.q.mss.Some? && c.q.fvg.Some?
    && now == c.(retestFrom := now.retestFrom, q := c.q.(pending := now.q.pending))
    && var m1, g := f.m1, c.q.fvg.value;
       var b, start := AtOrAfter(m1, c.q.mss.value), ScanStart(m1, g, c.retestFrom);
       && start <= k <= |m1|
       && now.q.pending == (if k == start then c.q.pending else Touches(buy, m1[k - 1], g.Ce()))
       && (forall j :: start <= j < k ==> WaitsAt(m1, buy, g, b, start, c.q.pending, j))
       && (forall j :: 0 <= j < k ==> m1[j].t <= from || m1[j].t <= now.retestFrom)
       && (k < |m1| ==> from < m1[k].t && now.retestFrom < m1[k].t && c.retestFrom < m1[k].t)
  }

  lemma SoFarMeans(f: Feed, buy: bool, c: Ctx, from: int, k: nat, now: Ctx)
    requires SoFar(f, buy, c, from, k, now)
    ensures now.q.raid.Some? && now.q.mss.Some? && now.q.fvg.Some?
    ensures forall j :: 0 <= j < k && j < |f.m1| ==> f.m1[j].t <= from || f.m1[j].t <= now.retestFrom
    ensures k < |f.m1| ==> from < f.m1[k].t && now.retestFrom < f.m1[k].t
  {
    hide WaitsAt, ScanStart, AtOrAfter, Touches;
  }

  /** What a bar that trades through, or finds an undecided touch, does to the retest. */
  lemma BarSettles(buy: bool, b: Bar, g: EntryGap, age: int, pending: bool)
    ensures Through(buy, b, g) ==> BarLoses(buy, b, g, age, pending) && BarLoses(buy, b, g, age, false)
    ensures Through(buy, b, g) || pending ==> !BarWaits(buy, b, g, age, pending)
    ensures pending && !Through(buy, b, g) ==> (BarLoses(buy, b, g, age, pending) <==> !Defended(buy, b, g.Ce()))
  {
  }

  lemma LosesNotWaits(buy: bool, b: Bar, g: EntryGap, age: int, pending: bool)
    requires BarLoses(buy, b, g, age, pending)
    ensures !BarWaits(buy, b, g, age, pending)
  {
    hide Defended;
  }

  lemma WaitsNotLoses(buy: bool, b: Bar, g: EntryGap, age: int, pending: bool)
    requires BarWaits(buy, b, g, age, pending)
    ensures !BarLoses(buy, b, g, age, pending)
  {
    hide Defended;
  }

  /** A bar the scan comes to, and that loses the retest, is the cause of its noise. */
  lemma LosesMeans(f: Feed, buy: bool, c: Ctx, scanFrom: int, k: nat)
    requires f.Valid() && SequenceHolds(f, buy, RETURN, c, scanFrom) && k < |f.m1|
    requires c.q.mss.Some? && c.q.fvg.Some? && scanFrom < f.m1[k].t && c.retestFrom < f.m1[k].t
    requires forall j :: 0 <= j < k ==> f.m1[j].t <= scanFrom || f.m1[j].t <= c.retestFrom
    ensures BarLoses(buy, f.m1[k], c.q.fvg.value, k - AtOrAfter(f.m1, c.q.mss.value), c.q.pending) ==>
              RetestLost(f, buy, c.q.mss.value, c.q.fvg.value, k)
  {
    hide SequenceHolds, RetestPending, Undecided, Scanned, ReturnHolds, BarLoses, Sorted, AtOrAfter;
    InReturn(f, buy, c, scanFrom);
    if c.q.pending {
      AfterPending(f, buy, c.q.fvg.value, c.q.mss.value, scanFrom, c.retestFrom, k);
    }
  }

  lemma AtBar(m1: seq<Bar>, buy: bool, g: EntryGap, b: nat, start: nat, first: bool, k: nat, pending: bool)
    requires start <= k < |m1| && pending == if k == start then first else Touches(buy, m1[k - 1], g.Ce())
    ensures WaitsAt(m1, buy, g, b, start, first, k) == BarWaits(buy, m1[k], g, k - b, pending)
    ensures LosesAt(m1, buy, g, b, start, first, k) == BarLoses(buy, m1[k], g, k - b, pending)
  {
  }

  lemma ReturnLanded(f: Feed, c: Ctx, from: int, q: Sequence, t: int, k: nat)
    requires q == c.q.(pending := q.pending) && c.q.mss.Some? && c.q.fvg.Some? && k < |f.m1|
    requires from < f.m1[k].t && c.retestFrom < f.m1[k].t
    ensures Landed(f, RETURN, c, from, q, t, k)
  {
  }

  lemma ReturnOnward(f: Feed, buy: bool, c: Ctx, c1: Ctx, scanFrom: int, t: int, k: nat)
    requires f.Valid() && c1.q == c.q.(pending := c1.q.pending) && c.q.mss.Some?
    requires k <= |f.m1| && (k < |f.m1| ==> f.m1[k].t + 60 > t)
    requires forall j :: 0 <= j < k ==> f.m1[j].t <= scanFrom || f.m1[j].t <= c1.retestFrom
    ensures Onward(f, buy, RETURN, c, RETURN, c1, scanFrom, t)
  {
    forall j | k <= j < |f.m1|
      ensures f.m1[j].t + 60 > t
    {
      assert f.m1[k].t <= f.m1[j].t;
    }
  }

  /** Bar k settled the retest. */
  lemma ReturnAnswered(m: Market, buy: bool, thesis: Thesis, c: Ctx, d: Option<Decision>, t: int, k: nat, c1: Ctx)
    requires c.q.raid.Some? && c.q.mss.Some? && c.q.fvg.Some?
    requires var m1, g := m.feed.m1, c.q.fvg.value;
             var b, start := AtOrAfter(m1, c.q.mss.value), ScanStart(m1, g, c.retestFrom);
             && start <= k < |m1| && !WaitsAt(m1, buy, g, b, start, c.q.pending, k)
             && (forall j :: start <= j < k ==> WaitsAt(m1, buy, g, b, start, c.q.pending, j))
             && Settled(m, buy, thesis, c.q.raid.value, c, d, k, t, c1, LosesAt(m1, buy, g, b, start, c.q.pending, k))
    ensures ReturnAnswers(m, buy, thesis, c, d, t, c1)
  {
    hide WaitsAt, LosesAt, Settled, ScanStart;
    var m1, g := m.feed.m1, c.q.fvg.value;
    var b, start := AtOrAfter(m1, c.q.mss.value), ScanStart(m1, g, c.retestFrom);
    forall n | Decides(m1, buy, g, b, start, c.q.pending, t, n)
      ensures n == k
    {
    }
  }

  /** No bar from start to k settled it, and the rest has not closed. */
  lemma ReturnOpen(m: Market, buy: bool, thesis: Thesis, c: Ctx, t: int, k: nat)
    requires m.feed.Valid() && c.q.raid.Some? && c.q.mss.Some? && c.q.fvg.Some?
    requires k <= |m.feed.m1| && (k < |m.feed.m1| ==> m.feed.m1[k].t + 60 > t)
    requires var m1, g := m.feed.m1, c.q.fvg.value;
             var b, start := AtOrAfter(m1, c.q.mss.value), ScanStart(m1, g, c.retestFrom);
             forall j :: start <= j < k ==> WaitsAt(m1, buy, g, b, start, c.q.pending, j)
    ensures forall c1 :: ReturnAnswers(m, buy, thesis, c, None, t, c1)
  {
    hide WaitsAt, LosesAt, Settled, ScanStart;
    var m1, g := m.feed.m1, c.q.fvg.value;
    forall n | k <= n < |m1|
      ensures m1[n].t + 60 > t
    {
      assert m1[k].t <= m1[n].t;
    }
    forall n
      ensures !Decides(m1, buy, g, AtOrAfter(m1, c.q.mss.value), ScanStart(m1, g, c.retestFrom), c.q.pending, t, n)
    {
    }
  }

  lemma InsideIs(f: Feed, buy: bool, r: Raid, i: nat)
    requires i == AtOrAfter(f.Of(r.tf), r.t) + 1 && i < |f.Of(r.tf)|
    ensures BackInside(f, buy, r) <==> Over(buy, f.Of(r.tf)[i].c, r.level) && WithTrade(buy, f.Of(r.tf)[i])
  {
  }

  lemma PlanIsMade(m: Market, buy: bool, thesis: Thesis, q: Sequence, scanFrom: int, d: Decision, k: nat)
    requires m.feed.Valid() && Chain(m.feed, buy, q, scanFrom, k) && k < |m.feed.m1| && m.feed.m1[k].t + 60 <= d.ts
    requires d.out == CONFIRM && d.plan.Some? && q.raid.Some?
              && d.plan == Grounds(m, buy, thesis, q.raid.value, k, d.ts)
    ensures MadeHolds(Made(d, m, k), buy, thesis, q, scanFrom)
  {
    hide Chain, Grounds;
  }

  /** Where a scan has come does not depend on the wick it noted. */
  lemma WickAside(f: Feed, buy: bool, c: Ctx, c1: Ctx)
    requires c1 == c.(q := c.q.(wickBreak := c1.q.wickBreak))
    ensures forall s1, c2, scanFrom, t :: Onward(f, buy, SHIFT, c1, s1, c2, scanFrom, t) ==>
              Onward(f, buy, SHIFT, c, s1, c2, scanFrom, t)
    ensures forall from, q, t, k :: Landed(f, SHIFT, c1, from, q, t, k) ==> Landed(f, SHIFT, c, from, q, t, k)
  {
    hide WindowDone, UpTo;
  }

  /** A scan that goes on in GAP is one that came through SHIFT. */
  lemma GapFollows(f: Feed, buy: bool, c: Ctx, c1: Ctx)
    requires c1 == c.(q := c.q.(mss := c1.q.mss))
    ensures forall s1, c2, scanFrom, t :: Onward(f, buy, GAP, c1, s1, c2, scanFrom, t) ==>
              Onward(f, buy, SHIFT, c, s1, c2, scanFrom, t)
    ensures forall from, q, t, k :: Landed(f, GAP, c1, from, q, t, k) ==> Landed(f, SHIFT, c, from, q, t, k)
  {
    hide WindowDone, UpTo;
  }

  lemma RaidMoves(f: Feed, buy: bool, c: Ctx, from: int, c1: Ctx, scanFrom: int, i: nat, t: int)
    requires c.q.raid.Some?
    ensures Moved(f, buy, RAID, c, from, RAID, c1, scanFrom, c.q.raid.value.tf, i, t)
  {
  }

  lemma ShiftMoves(f: Feed, buy: bool, c: Ctx, from: int, s1: ZState, c1: Ctx, scanFrom: int, i: nat, t: int,
                   d: Option<Decision>)
    requires c.q.raid.Some? && 1 <= i < |f.Of(c.q.raid.value.tf)|
    requires d.None? ==> Onward(f, buy, SHIFT, Shifted(c, f.Of(c.q.raid.value.tf)[i - 1].t, c1.q.mssLevel), s1, c1,
                                scanFrom, t)
    ensures d.None? ==> Moved(f, buy, RAID, c, from, s1, c1, scanFrom, c.q.raid.value.tf, i, t)
  {
  }

  lemma ShiftRipens(f: Feed, c: Ctx, from: int, q: Sequence, i: nat, t: int, k: nat)
    requires c.q.raid.Some? && 1 <= i < |f.Of(c.q.raid.value.tf)|
    requires Landed(f, SHIFT, Shifted(c, f.Of(c.q.raid.value.tf)[i - 1].t, q.mssLevel), from, q, t, k)
    ensures Ripe(f, RAID, c, from, q, c.q.raid.value.tf, i, t, k)
  {
  }

  lemma WatchOwesNothing(m: Market, buy: bool, c: Ctx, tf: TF, b: Bar, t: int)
    requires forall p :: p in m.pools ==> !Sweeps(m, buy, c.swept, b, p)
    ensures forall s1, c1 :: WatchAnswers(m, buy, c, tf, b, t, s1, c1)
  {
    hide Sweeps;
  }

  lemma SweptAll(m: Market, buy: bool, done: seq<real>, b: Bar)
    ensures forall p :: p in Swept(m, buy, done, b, |m.pools|) <==> p in m.pools && Sweeps(m, buy, done, b, p)
  {
    hide Sweeps;
    assert m.pools[..|m.pools|] == m.pools;
  }

  lemma WatchAnswered(m: Market, buy: bool, c: Ctx, tf: TF, b: Bar, t: int, p: Pool, s1: ZState, c1: Ctx)
    requires RaidsPool(m, buy, c.swept, b, p)
    requires Under(buy, b.c, p.level) ==>
               && s1 == RAID && c1.q == c.q.(raid := Some(Raid(b.t, tf, p.level, Reach(buy, b), t)))
               && c1 == c.(anchorReached := true, swept := NowSwept(m, buy, c.swept, b), q := c1.q)
    ensures WatchAnswers(m, buy, c, tf, b, t, s1, c1)
  {
    hide Sweeps, NowSwept;
    forall o | RaidsPool(m, buy, c.swept, b, o)
      ensures o.level == p.level
    {
    }
  }

  class ZoneState {
    const buy: bool
    const firstSeen: int
    var state: ZState
    var sweepCount: nat
    var displacement: bool
    var thesis: Thesis
    var monitorHash: string
    var ctx: Ctx
    ghost var resets: nat               // RESETs since sweep_count was last 0
    ghost var plans: nat                // CONFIRMED decisions so far
    ghost var made: Option<Made>        // the plan made, and from what
    ghost var handled: seq<(TF, int)>   // the bars processed so far
    ghost var marks: seq<nat>           // how many of them at each clearing of the sequence
    ghost var raidAt: nat               // where the raid bar is among them
    ghost var clock: int                // the latest event time so far
    ghost var prior: int                // the same before the current event
    ghost var raidPrior: int            // and before the event of the raid bar
    ghost var ordered: bool             // events have come in time order
    ghost var scanFrom: int             // the retest scan looks at bars opening after this
    ghost var mark: int                 // the last bar an earlier scan had looked at when the gap was found

    /** What holds in every state. */
    ghost predicate Base()
      reads this`resets, this`clock, this`handled, this`ctx, this`marks, this`raidAt
    {
      && resets <= 2 && 0 <= clock && ctx.seen.m1 + 60 <= clock && ctx.retestFrom <= clock
      && Processed(handled, ctx.seen) && RaidAfter(handled, marks, raidAt, ctx.q.raid)
    }

    /** A raid in progress has used up one sweep; a confirmation is the only plan. */
    ghost predicate Counts()
      reads this`state, this`resets, this`sweepCount, this`plans
    {
      && (OnSequence(state) ==> resets < sweepCount)
      && (state == WATCH ==> resets <= sweepCount)
      && plans == if state == CONFIRMED then 1 else 0
    }

    /** The retest scan starts right after the gap, or where a scan before the raid's event had come. */
    ghost predicate Timely()
      reads this`ordered, this`state, this`ctx, this`scanFrom, this`raidPrior, this`mark
    {
      && (OnSequence(state) && state != RETURN && ctx.q.raid.Some? ==> ctx.retestFrom <= raidPrior)
      && ((state == RETURN || state == CONFIRMED) && ctx.q.fvg.Some? ==>
            mark <= raidPrior && scanFrom == Later(ctx.q.fvg.value.t + 60, mark))
      && (ordered && (OnSequence(state) || state == CONFIRMED) && ctx.q.raid.Some? ==>
          raidPrior <= ctx.q.raid.value.closeT)
    }

    ghost function Planned(): Option<Made>
      reads this`state, this`made
    {
      if state == CONFIRMED then made else None
    }

    ghost predicate Proved()
      reads this`state, this`made, this`thesis, this`ctx, this`scanFrom
    {
      state == CONFIRMED ==> made.Some? && MadeHolds(made.value, buy, thesis, ctx.q, scanFrom)
    }

    ghost predicate Valid(f: Feed)
      reads this
    {
      f.Valid() && Base() && Counts() && Timely() && Proved() && SequenceHolds(f, buy, state, ctx, scanFrom)
    }

    constructor (buy: bool, firstSeen: int, seen: Seen)
      ensures this.buy == buy && this.firstSeen == firstSeen && ctx == Ctx(seen, false, false, [], 0, NO_SEQUENCE)
      ensures state == WATCH && sweepCount == 0 && resets == 0 && plans == 0 && handled == [] && marks == [] && ordered
      ensures thesis == ACTIVE
      ensures clock == Later(0, seen.m1 + 60) && Base()
      ensures forall f: Feed :: f.Valid() ==> Valid(f)
    {
      this.buy, this.firstSeen := buy, firstSeen;
      state, sweepCount, displacement, thesis, monitorHash := WATCH, 0, false, ACTIVE, "";
      ctx := Ctx(seen, false, false, [], 0, NO_SEQUENCE);
      resets, plans, made, handled, marks, raidAt, ordered := 0, 0, None, [], [], 0, true;
      clock, prior, raidPrior, scanFrom, mark := Later(0, seen.m1 + 60), 0, 0, 0, 0;
    }

    ghost function Tallied(): Tally
      reads this
    {
      Tally(ctx.seen, sweepCount, resets, |marks|, thesis)
    }

    /** What a handler leaves behind: MONITOR only when the sweep count or the anchor leaves no other way. */
    ghost predicate Ends(m: Market, t: int, d: Option<Decision>, was: Tally)
      reads this
    {
      Leaves(m, t, d, was) && (d.Some? && d.value.out == MONITORED ==> sweepCount > 2 || ctx.anchorViolated)
    }

    /** How an event's decision shows in the state. */
    ghost predicate Leaves(m: Market, t: int, d: Option<Decision>, was: Tally)
      reads this
    {
      && ctx.seen == was.seen && sweepCount <= was.sweeps + 1
      && resets == was.resets + (if d.Some? && d.value.out == RESET then 1 else 0)
      && |marks| == was.marks + (if d.Some? && Clears(d.value.out) then 1 else 0)
      && (d.None? ==> sweepCount == was.sweeps)
      && (thesis == was.thesis || (d.Some? && d.value.out == RESET))
      && (d.Some? ==> DecisionHolds(m, buy, d.value) && Shows(m, d.value) && d.value.ts == t)
    }

    /** The bar that opened at `open` has just been marked as processed. */
    ghost predicate JustSeen(tf: TF, open: int, t: int)
      reads this`handled, this`marks, this`ctx, this`prior, this`ordered
    {
      && handled != [] && handled[|handled| - 1] == (tf, open)
      && (forall j :: 0 <= j < |marks| ==> marks[j] < |handled|)
      && ctx.retestFrom <= prior && (ordered ==> prior <= t)
    }

    ghost predicate Shows(m: Market, d: Decision)
      reads this
    {
      && d.out != WAIT && d.out != INVALIDATED
      && (d.out == PROGRESS <==> state == RAID)
      && (d.out == CONFIRM <==> state == CONFIRMED)
      && (d.out == MONITORED <==> state == MONITOR)
      && (d.out == NOSETUP || d.out == RESET <==> state == WATCH)
      && (d.out == RESET ==> sweepCount <= 2 && !ctx.anchorViolated && thesis == PRESERVED)
      && (d.out == MONITORED ==> monitorHash == m.structHash)
      && (d.out == CONFIRM <==> d.plan.Some?)
      && (d.out == CONFIRM ==> made.Some? && made.value.d == d && made.value.m == m)
    }

    /** Back to WATCH: sweep_count, the thesis and the retest mark survive. */
    method ClearSequence()
      requires Base()
      modifies this`ctx, this`state, this`displacement, this`marks
      ensures Base() && ctx == old(ctx).(q := NO_SEQUENCE) && state == WATCH && !displacement
      ensures marks == old(marks) + [|handled|]
    {
      hide RaidAfter, Processed;
      Cleared(handled, marks, raidAt, ctx.q.raid);
      ctx := ctx.(q := NO_SEQUENCE);
      marks := marks + [|handled|];
      state := WATCH;
      displacement := false;
    }

    /** Outside a sequence nothing is witnessed. */
    lemma AtRest(f: Feed)
      requires f.Valid() && Base() && ctx.q == NO_SEQUENCE && (state == WATCH || state == MONITOR || state == DEAD)
      requires plans == 0 && (state == WATCH ==> resets <= sweepCount)
      ensures Valid(f)
    {
      hide Base, MadeHolds, RaidHolds, ShiftHolds, GapHolds, ReturnHolds, Confirmed;
    }

    /** The zone rests until the strategic map has another structure. */
    method Monitor(m: Market, t: int, scores: Scores) returns (d: Decision)
      requires m.feed.Valid() && Base() && plans == 0
      modifies this`ctx, this`state, this`displacement, this`marks, this`monitorHash
      ensures Valid(m.feed) && state == MONITOR && monitorHash == m.structHash && ctx == old(ctx).(q := NO_SEQUENCE)
      ensures d.out == MONITORED && d.ts == t && d.plan.None? && marks == old(marks) + [|handled|]
    {
      hide Base, Valid;
      ClearSequence();
      state, monitorHash := MONITOR, m.structHash;
      d := Decision(MONITORED, scores, None, t);
      AtRest(m.feed);
    }

    /** Level 1: RESET while the sweep count allows it and the anchor stands; otherwise MONITOR. */
    method Noise(m: Market, t: int) returns (d: Decision)
      requires m.feed.Valid() && Base() && plans == 0 && resets < sweepCount
      modifies this`ctx, this`state, this`displacement, this`marks, this`monitorHash, this`thesis, this`resets
      ensures Valid(m.feed) && ctx == old(ctx).(q := NO_SEQUENCE) && d.ts == t && d.plan.None?
      ensures marks == old(marks) + [|handled|]
      ensures sweepCount <= 2 && !old(ctx).anchorViolated ==>
                d.out == RESET && state == WATCH && resets == old(resets) + 1 && thesis == PRESERVED
      ensures sweepCount > 2 || old(ctx).anchorViolated ==>
                d.out == MONITORED && state == MONITOR && monitorHash == m.structHash && resets == old(resets)
                && thesis == old(thesis)
    {
      hide Valid, Processed, RaidAfter;
      if sweepCount <= 2 && !ctx.anchorViolated {
        ClearSequence();
        thesis := PRESERVED;
        resets := resets + 1;
        d := Decision(RESET, Scores(25, 25, 25, 0), None, t);
        AtRest(m.feed);
      } else {
        d := Monitor(m, t, Scores(0, 0, 0, 0));
      }
    }

    // -------------------------------------------------------------- the handlers, last first

    /** Back to WATCH without a RESET. */
    method NoSetup(f: Feed, t: int, scores: Scores) returns (d: Decision)
      requires f.Valid() && Base() && plans == 0 && resets < sweepCount
      modifies this`state, this`ctx, this`displacement, this`marks
      ensures Valid(f) && state == WATCH && ctx == old(ctx).(q := NO_SEQUENCE) && marks == old(marks) + [|handled|]
      ensures d == Decision(NOSETUP, scores, None, t)
    {
      hide Base, Valid;
      ClearSequence();
      d := Decision(NOSETUP, scores, None, t);
      AtRest(f);
    }

    /** Scores, stop and ladder; a failure sends the zone back to WATCH without a RESET. */
    method Confirm(m: Market, k: nat, t: int) returns (d: Decision)
      requires m.Usable()
      requires Base() && Timely() && plans == 0 && resets < sweepCount && state == RETURN
      requires k < |m.feed.m1| && Chain(m.feed, buy, ctx.q, scanFrom, k) && m.feed.m1[k].t + 60 <= t
      modifies this`state, this`ctx, this`displacement, this`marks, this`sweepCount, this`plans, this`made
      ensures Valid(m.feed) && DecisionHolds(m, buy, d) && d.ts == t
      ensures d.out == CONFIRM <==> state == CONFIRMED
      ensures d.out == CONFIRM || d.out == NOSETUP
      ensures d.out == NOSETUP ==> state == WATCH && sweepCount == old(sweepCount)
      ensures d.out == CONFIRM ==>
                sweepCount == 0 && ctx == old(ctx) && marks == old(marks) && made == Some(Made(d, m, k))
      ensures d.out == NOSETUP ==> marks == old(marks) + [|handled|]
      ensures d.out == CONFIRM <==> d.plan.Some?
      ensures d.plan == Grounds(m, buy, thesis, old(ctx).q.raid.value, k, t)
      ensures ctx.seen == old(ctx).seen
    {
      hide Valid, Chain, RaidSeen, PlanOf, PlanHolds, Base, Timely, Sorted, MadeHolds, AtOrAfter;
      ChainRaid(m.feed, buy, ctx.q, scanFrom, k);
      var r := ctx.q.raid.value;
      var p1 := P1(m, thesis);
      var p2 := P2(m, Some(r.extreme), t);
      var scores := Scores(p1, p2, 25, 25);
      var plan := None;
      if p1 + p2 + 50 == 100 && m.now - t <= CONFIRM_MAX_LAG_S {
        plan := Price(m, r, k);
      }
      if plan.None? {
        d := NoSetup(m.feed, t, scores);
      } else {
        d := Decision(CONFIRM, scores, plan, t);
        PlanIsMade(m, buy, thesis, ctx.q, scanFrom, d, k);
        TakePlan(m, d, k);
      }
    }

    method TakePlan(m: Market, d: Decision, k: nat)
      requires m.feed.Valid() && Base() && Timely() && plans == 0 && resets < sweepCount && state == RETURN
      requires MadeHolds(Made(d, m, k), buy, thesis, ctx.q, scanFrom)
      modifies this`state, this`sweepCount, this`plans, this`made
      ensures Valid(m.feed) && state == CONFIRMED && sweepCount == 0 && made == Some(Made(d, m, k))
    {
      hide Chain, Grounds, Base;
      ChainBar(m.feed, buy, ctx.q, scanFrom, k);
      state := CONFIRMED;
      sweepCount := 0;
      plans := plans + 1;
      made := Some(Made(d, m, k));
      assert Confirmed(m.feed, buy, ctx.q, scanFrom);
    }

    /** Stop from the sweep extreme, ladder from the live objectives. */
    method Price(m: Market, r: Raid, k: nat) returns (plan: Option<Plan>)
      requires m.tick > 0.0 && RaidSeen(m.feed, buy, r) && AtOrAfter(m.feed.m1, r.t) <= k < |m.feed.m1|
      ensures plan == PlanOf(m, buy, r, k)
      ensures plan.Some? ==> PlanHolds(m, buy, plan.value)
    {
      hide FiduciarySl, LadderOf, Atr, WorstOf, BestOf, AtOrAfter, LadderHolds, RaidSeen;
      RaidIsThere(m.feed, buy, r);
      var f := m.feed;
      var bars := f.Of(r.tf);
      var raidBar := bars[AtOrAfter(bars, r.t)];
      var entry, spread := if buy then m.ask else m.bid, m.ask - m.bid;
      var sequence := f.m1[AtOrAfter(f.m1, r.t)..k + 1];
      var extreme, best := WorstOf(buy, sequence, r.extreme), BestOf(buy, sequence);
      var atr := Atr(f.m5, 14);
      var sl := FiduciarySl(buy, raidBar, extreme, entry, spread, m.tick, m.safetyMin, atr, m.traps, m.trapTol,
                            m.sessionAtr);
      if sl.Refused? {
        return None;
      }
      StopHasRisk(buy, raidBar, extreme, entry, spread, m.tick, m.safetyMin, atr, m.traps, m.trapTol, m.sessionAtr);
      var lad := BuildLadder(buy, entry, sl.value.risk, spread, m.sessionAtr, m.objectives, extreme, best,
                             m.finalObjective);
      if lad.Refused? {
        return None;
      }
      TradeGeometry(buy, raidBar, extreme, entry, spread, m.tick, m.safetyMin, atr, m.traps, m.trapTol, m.sessionAtr,
                    m.objectives, best, m.finalObjective, sl.value, lad.value);
      plan := Some(Plan(entry, sl.value, lad.value));
    }

    /** P4.3 / P4.4 for one bar: what bar k made of the retest that was open with context c. */
    ghost predicate Retested(m: Market, c: Ctx, was: Thesis, k: nat, t: int, d: Option<Decision>)
      requires k < |m.feed.m1| && c.q.raid.Some? && c.q.mss.Some? && c.q.fvg.Some?
      reads this
    {
      var q, b, g := c.q, m.feed.m1[k], c.q.fvg.value;
      var age := k - AtOrAfter(m.feed.m1, q.mss.value);
      && (IsNoise(d) <==> BarLoses(buy, b, g, age, q.pending))
      && (d.None? <==> BarWaits(buy, b, g, age, q.pending))
      && (d.None? ==> state == RETURN && thesis == was
                      && ctx == c.(retestFrom := b.t, q := q.(pending := Touches(buy, b, g.Ce()))))
      && (IsNoise(d) ==> ctx == c.(retestFrom := b.t, q := NO_SEQUENCE))
      && (d.Some? && !IsNoise(d) ==> d.value.plan == Grounds(m, buy, was, q.raid.value, k, t))
      && (IsPlan(d) ==> ctx.q == q && made.Some? && made.value.k == k)
    }

    method RetestBar(m: Market, k: nat, t: int) returns (d: Option<Decision>)
      requires Valid(m.feed) && m.Usable() && state == RETURN
      requires ctx.q.raid.Some? && ctx.q.mss.Some? && ctx.q.fvg.Some?
      requires k < |m.feed.m1| && m.feed.m1[k].t + 60 <= t <= clock
      requires scanFrom < m.feed.m1[k].t && ctx.retestFrom < m.feed.m1[k].t
      requires forall j :: 0 <= j < k ==> m.feed.m1[j].t <= scanFrom || m.feed.m1[j].t <= ctx.retestFrom
      modifies this`state, this`ctx, this`displacement, this`marks, this`sweepCount, this`plans, this`made,
               this`monitorHash, this`thesis, this`resets
      ensures Valid(m.feed) && Ends(m, t, d, old(Tallied())) && Retested(m, old(ctx), old(thesis), k, t, d)
      ensures IsNoise(d) ==> RetestLost(m.feed, buy, old(ctx).q.mss.value, old(ctx).q.fvg.value, k)
    {
      hide Valid, SequenceHolds, BarLoses, BarWaits, Retested, Through, Ends, Tallied, Base, Timely, RetestLost,
           ReturnHolds, Sorted, AtOrAfter;
      InProgress(m.feed);
      ghost var c := ctx;
      LosesMeans(m.feed, buy, c, scanFrom, k);
      Look(m.feed, k, t);
      if Through(buy, m.feed.m1[k], ctx.q.fvg.value) {
        BarSettles(buy, m.feed.m1[k], ctx.q.fvg.value, k - AtOrAfter(m.feed.m1, ctx.q.mss.value), ctx.q.pending);
        d := LoseRetest(m, k, t, c);
      } else {
        d := HeldBar(m, k, t, c);
      }
      if IsNoise(d) {
        NoiseMeans(m, c, old(thesis), k, t, d);
      }
    }

    /** What a state of the sequence allows. */
    lemma InProgress(f: Feed)
      requires Valid(f) && OnSequence(state)
      ensures f.Valid() && Base() && Timely() && plans == 0 && resets < sweepCount
      ensures SequenceHolds(f, buy, state, ctx, scanFrom)
    {
      hide SequenceHolds, Base, Timely, Proved;
    }

    lemma NoiseMeans(m: Market, c: Ctx, was: Thesis, k: nat, t: int, d: Option<Decision>)
      requires k < |m.feed.m1| && c.q.raid.Some? && c.q.mss.Some? && c.q.fvg.Some?
      requires Retested(m, c, was, k, t, d) && IsNoise(d)
      ensures BarLoses(buy, m.feed.m1[k], c.q.fvg.value, k - AtOrAfter(m.feed.m1, c.q.mss.value), c.q.pending)
    {
      hide BarLoses, BarWaits, Grounds, Touches, AtOrAfter;
    }

    method Look(f: Feed, k: nat, t: int)
      requires k < |f.m1| && f.m1[k].t <= clock && Base() && Timely() && state == RETURN
      modifies this`ctx
      ensures Base() && Timely() && Proved() && ctx == old(ctx).(retestFrom := f.m1[k].t)
      ensures Tallied() == old(Tallied())
    {
      hide RaidAfter, Processed;
      ctx := ctx.(retestFrom := f.m1[k].t);
    }

    /** The retest is lost at bar k, which has just been looked at. */
    method LoseRetest(m: Market, k: nat, t: int, ghost c: Ctx) returns (d: Option<Decision>)
      requires m.feed.Valid() && Base() && plans == 0 && resets < sweepCount
      requires c.q.raid.Some? && c.q.mss.Some? && c.q.fvg.Some?
      requires k < |m.feed.m1| && ctx == c.(retestFrom := m.feed.m1[k].t)
      requires BarLoses(buy, m.feed.m1[k], c.q.fvg.value, k - AtOrAfter(m.feed.m1, c.q.mss.value), c.q.pending)
      modifies this`ctx, this`state, this`displacement, this`marks, this`monitorHash, this`thesis, this`resets
      ensures Valid(m.feed) && Ends(m, t, d, old(Tallied())) && Retested(m, c, old(thesis), k, t, d)
    {
      hide Valid, Base, Ends, Tallied, BarLoses, BarWaits, AtOrAfter, Grounds, Touches;
      LosesNotWaits(buy, m.feed.m1[k], c.q.fvg.value, k - AtOrAfter(m.feed.m1, c.q.mss.value), c.q.pending);
      d := Quit(m, t);
    }

    /** Bar k does not trade through the gap. */
    method HeldBar(m: Market, k: nat, t: int, ghost c: Ctx) returns (d: Option<Decision>)
      requires m.Usable() && Base() && Timely() && Proved() && plans == 0 && resets < sweepCount && state == RETURN
      requires SequenceHolds(m.feed, buy, RETURN, c, scanFrom)
      requires c.q.raid.Some? && c.q.mss.Some? && c.q.fvg.Some?
      requires k < |m.feed.m1| && m.feed.m1[k].t + 60 <= t && ctx == c.(retestFrom := m.feed.m1[k].t)
      requires scanFrom < m.feed.m1[k].t && c.retestFrom < m.feed.m1[k].t
      requires forall j :: 0 <= j < k ==> m.feed.m1[j].t <= scanFrom || m.feed.m1[j].t <= c.retestFrom
      requires !Through(buy, m.feed.m1[k], c.q.fvg.value)
      modifies this`state, this`ctx, this`displacement, this`marks, this`sweepCount, this`plans, this`made,
               this`monitorHash, this`thesis, this`resets
      ensures Valid(m.feed) && Ends(m, t, d, old(Tallied())) && Retested(m, c, old(thesis), k, t, d)
    {
      hide Valid, SequenceHolds, ReturnHolds, BarLoses, BarWaits, Retested, Through, Ends, Tallied, Base, Timely,
           Sorted, AtOrAfter, Defended, RetestPending, Scanned;
      var b, g := m.feed.m1[k], ctx.q.fvg.value;
      ghost var age := k - AtOrAfter(m.feed.m1, c.q.mss.value);
      ReturnGoesOn(m.feed, buy, c, scanFrom, k);
      InReturn(m.feed, buy, c.(retestFrom := b.t, q := c.q.(pending := false)), scanFrom);
      if ctx.q.pending {
        InReturn(m.feed, buy, c, scanFrom);
        AfterPending(m.feed, buy, g, c.q.mss.value, scanFrom, c.retestFrom, k);
        BarSettles(buy, b, g, age, true);
        d := DecideRetest(m, k, t, c);
      } else if Touches(buy, b, g.Ce()) {
        assert ctx.(q := ctx.q.(pending := false)) == ctx;
        d := OnTouch(m, k, t, c);
      } else {
        assert ctx.(q := ctx.q.(pending := false)) == ctx;
        d := NoTouch(m, k, t, c);
      }
    }

    /** The gap's middle is not reached: the retest stays open until its time is up. */
    method NoTouch(m: Market, k: nat, t: int, ghost c: Ctx) returns (d: Option<Decision>)
      requires m.feed.Valid() && Base() && Timely() && Proved() && plans == 0 && resets < sweepCount && state == RETURN
      requires SequenceHolds(m.feed, buy, RETURN, ctx, scanFrom)
      requires c.q.raid.Some? && c.q.mss.Some? && c.q.fvg.Some? && !c.q.pending
      requires k < |m.feed.m1| && ctx == c.(retestFrom := m.feed.m1[k].t)
      requires !Through(buy, m.feed.m1[k], c.q.fvg.value) && !Touches(buy, m.feed.m1[k], c.q.fvg.value.Ce())
      modifies this`ctx, this`state, this`displacement, this`marks, this`monitorHash, this`thesis, this`resets
      ensures Valid(m.feed) && Ends(m, t, d, old(Tallied())) && Retested(m, c, old(thesis), k, t, d)
    {
      hide SequenceHolds, Base, Timely, Proved, Through, Touches, Grounds, AtOrAfter, Ends, Tallied;
      if k - AtOrAfter(m.feed.m1, ctx.q.mss.value) >= RETEST_BARS {
        d := LoseRetest(m, k, t, c);
      } else {
        d := None;
        StaysOpen(m, t, Tallied());
      }
    }

    /** A first touch: lost when it comes too late or closes beyond, decided when it defends, undecided otherwise. */
    method OnTouch(m: Market, k: nat, t: int, ghost c: Ctx) returns (d: Option<Decision>)
      requires m.Usable() && Base() && Timely() && Proved() && plans == 0 && resets < sweepCount && state == RETURN
      requires SequenceHolds(m.feed, buy, RETURN, ctx, scanFrom) && ReturnHolds(m.feed, buy, ctx, scanFrom)
      requires c.q.raid.Some? && c.q.mss.Some? && c.q.fvg.Some? && !c.q.pending
      requires k < |m.feed.m1| && m.feed.m1[k].t + 60 <= t && ctx == c.(retestFrom := m.feed.m1[k].t)
      requires scanFrom < m.feed.m1[k].t && scanFrom >= c.q.fvg.value.t + 60
      requires !Through(buy, m.feed.m1[k], c.q.fvg.value) && Touches(buy, m.feed.m1[k], c.q.fvg.value.Ce())
      modifies this`state, this`ctx, this`displacement, this`marks, this`sweepCount, this`plans, this`made,
               this`monitorHash, this`thesis, this`resets
      ensures Valid(m.feed) && Ends(m, t, d, old(Tallied())) && Retested(m, c, old(thesis), k, t, d)
    {
      hide Valid, SequenceHolds, ReturnHolds, Base, Timely, Proved, Through, Touches, Grounds, AtOrAfter, Ends, Tallied,
           Defended, Retested, Under;
      var b, ce, age := m.feed.m1[k], ctx.q.fvg.value.Ce(), k - AtOrAfter(m.feed.m1, ctx.q.mss.value);
      if age > RETEST_BARS || Under(buy, b.c, ce) {
        d := LoseRetest(m, k, t, c);
      } else if Defended(buy, b, ce) {
        d := DecideRetest(m, k, t, c);
      } else {
        ReturnTouched(m.feed, buy, ctx, scanFrom, k);
        d := Undecide(m, k, t, c);
      }
    }

    /** The touch is noted; the next bar decides. */
    method Undecide(m: Market, k: nat, t: int, ghost c: Ctx) returns (d: Option<Decision>)
      requires m.feed.Valid() && Base() && Timely() && plans == 0 && resets < sweepCount && state == RETURN
      requires c.q.raid.Some? && c.q.mss.Some? && c.q.fvg.Some? && !c.q.pending
      requires k < |m.feed.m1| && ctx == c.(retestFrom := m.feed.m1[k].t)
      requires SequenceHolds(m.feed, buy, RETURN, ctx.(q := ctx.q.(pending := true)), scanFrom)
      requires BarWaits(buy, m.feed.m1[k], c.q.fvg.value, k - AtOrAfter(m.feed.m1, c.q.mss.value), false)
      requires Touches(buy, m.feed.m1[k], c.q.fvg.value.Ce())
      modifies this`ctx
      ensures Valid(m.feed) && Ends(m, t, d, old(Tallied())) && Retested(m, c, old(thesis), k, t, d)
    {
      hide SequenceHolds, RaidAfter, Processed, BarLoses, BarWaits, Touches, Grounds, AtOrAfter, Ends;
      WaitsNotLoses(buy, m.feed.m1[k], c.q.fvg.value, k - AtOrAfter(m.feed.m1, c.q.mss.value), false);
      ctx := ctx.(q := ctx.q.(pending := true));
      d := None;
      StaysOpen(m, t, Tallied());
    }

    method Quit(m: Market, t: int) returns (d: Option<Decision>)
      requires m.feed.Valid() && Base() && plans == 0 && resets < sweepCount
      modifies this`ctx, this`state, this`displacement, this`marks, this`monitorHash, this`thesis, this`resets
      ensures Valid(m.feed) && d.Some? && Ends(m, t, d, old(Tallied())) && sweepCount == old(sweepCount)
      ensures ctx == old(ctx).(q := NO_SEQUENCE) && (state == WATCH || state == MONITOR)
      ensures IsNoise(d)
    {
      hide Valid, Base;
      var n := Noise(m, t);
      d := Some(n);
    }

    /** The bar settles the retest by defending or not. */
    method DecideRetest(m: Market, k: nat, t: int, ghost c: Ctx) returns (d: Option<Decision>)
      requires m.Usable()
      requires Base() && Timely() && plans == 0 && resets < sweepCount && state == RETURN
      requires c.q.raid.Some? && c.q.mss.Some? && c.q.fvg.Some?
      requires ReturnHolds(m.feed, buy, ctx.(q := ctx.q.(pending := false)), scanFrom)
      requires k < |m.feed.m1| && ctx == c.(retestFrom := m.feed.m1[k].t) && ctx.retestFrom > scanFrom
      requires k - AtOrAfter(m.feed.m1, c.q.mss.value) <= RETEST_BARS + 1 && m.feed.m1[k].t + 60 <= t
      requires var b, g, age := m.feed.m1[k], c.q.fvg.value, k - AtOrAfter(m.feed.m1, c.q.mss.value);
               && !BarWaits(buy, b, g, age, c.q.pending)
               && (BarLoses(buy, b, g, age, c.q.pending) <==> !Defended(buy, b, g.Ce()))
      modifies this`state, this`ctx, this`displacement, this`marks, this`sweepCount, this`plans, this`made,
               this`monitorHash, this`thesis, this`resets
      ensures Valid(m.feed) && Ends(m, t, d, old(Tallied())) && Retested(m, c, old(thesis), k, t, d)
    {
      hide Valid, Base, Timely, ReturnHolds, BarLoses, BarWaits, Defended, Ends, Tallied, Grounds, AtOrAfter, Touches;
      if Defended(buy, m.feed.m1[k], ctx.q.fvg.value.Ce()) {
        d := Decide(m, k, t);
      } else {
        d := LoseRetest(m, k, t, c);
      }
    }

    /** The bar defends the gap's middle. */
    method Decide(m: Market, k: nat, t: int) returns (d: Option<Decision>)
      requires m.Usable()
      requires Base() && Timely() && plans == 0 && resets < sweepCount && state == RETURN
      requires ctx.q.raid.Some? && ctx.q.mss.Some? && ctx.q.fvg.Some?
      requires ReturnHolds(m.feed, buy, ctx.(q := ctx.q.(pending := false)), scanFrom)
      requires k < |m.feed.m1| && ctx.retestFrom == m.feed.m1[k].t > scanFrom
      requires k - AtOrAfter(m.feed.m1, ctx.q.mss.value) <= RETEST_BARS + 1 && m.feed.m1[k].t + 60 <= t
      requires Defended(buy, m.feed.m1[k], ctx.q.fvg.value.Ce())
      modifies this`state, this`ctx, this`displacement, this`marks, this`sweepCount, this`plans, this`made
      ensures Valid(m.feed) && d.Some? && Ends(m, t, d, old(Tallied())) && !IsNoise(d)
      ensures d.value.plan == Grounds(m, buy, old(thesis), old(ctx).q.raid.value, k, t)
      ensures IsPlan(d) ==> ctx == old(ctx) && made.Some? && made.value.k == k
    {
      hide Valid, ReturnHolds, Chain, Defended, Grounds, MadeHolds, Base, Timely, DecisionHolds, AtOrAfter;
      ChainAt(m.feed, buy, ctx, scanFrom, k);
      var n := Confirm(m, k, t);
      d := Some(n);
    }

    /** The bars after the gap, one by one, up to event time t. */
    method RetestScan(m: Market, t: int) returns (d: Option<Decision>)
      requires Valid(m.feed) && m.Usable() && state == RETURN && t <= clock
      modifies this`state, this`ctx, this`displacement, this`marks, this`sweepCount, this`plans, this`made,
               this`monitorHash, this`thesis, this`resets
      ensures Valid(m.feed) && Ends(m, t, d, old(Tallied()))
      ensures d.None? ==> state == RETURN && ctx.q == old(ctx).q.(pending := ctx.q.pending)
      ensures d.None? ==> Onward(m.feed, buy, RETURN, old(ctx), state, ctx, scanFrom, t)
      ensures IsPlan(d) ==> made.Some? && Landed(m.feed, RETURN, old(ctx), old(scanFrom), ctx.q, t, made.value.k)
      ensures ReturnAnswers(m, buy, old(thesis), old(ctx), d, t, ctx)
      ensures IsNoise(d) ==> exists k :: RetestLost(m.feed, buy, old(ctx).q.mss.value, old(ctx).q.fvg.value, k)
    {
      hide Valid, Ends, Tallied, RetestLost, Retested, SoFar, ReturnAnswers, Onward, Landed, ScanStart, AtOrAfter;
      Resumes(m.feed);
      d := None;
      ghost var c, from, was, th := ctx, scanFrom, Tallied(), thesis;
      var k := ScanStart(m.feed.m1, ctx.q.fvg.value, ctx.retestFrom);
      while k < |m.feed.m1| && m.feed.m1[k].t + 60 <= t
        invariant d.None? && Valid(m.feed) && state == RETURN && Tallied() == was && thesis == th && scanFrom == from
        invariant SoFar(m.feed, buy, c, from, k, ctx)
        decreases |m.feed.m1| - k
      {
        ghost var now := ctx;
        SoFarMeans(m.feed, buy, c, from, k, ctx);
        d := RetestBar(m, k, t);
        if d.Some? {
          ScanAnswered(m, c, now, th, from, k, t, d);
          return;
        }
        ScanGoesOn(m, c, now, th, from, k, t, was);
        k := k + 1;
      }
      ScanStops(m, c, th, t, k, was);
    }

    /** The scan ends at bar k. */
    lemma ScanAnswered(m: Market, c: Ctx, now: Ctx, was: Thesis, from: int, k: nat, t: int, d: Option<Decision>)
      requires k < |m.feed.m1| && SoFar(m.feed, buy, c, from, k, now)
      requires now.q.raid.Some? && now.q.mss.Some? && now.q.fvg.Some? && Retested(m, now, was, k, t, d) && d.Some?
      ensures c.q.mss == now.q.mss && c.q.fvg == now.q.fvg
      ensures ReturnAnswers(m, buy, was, c, d, t, ctx)
      ensures IsPlan(d) ==> made.Some? && Landed(m.feed, RETURN, c, from, ctx.q, t, made.value.k)
    {
      hide WaitsAt, LosesAt, Settled, ScanStart, ReturnAnswers, Landed, Retested, AtOrAfter, Touches;
      BarAnswers(m, c, now, was, from, k, t, d);
      ReturnAnswered(m, buy, was, c, d, t, k, ctx);
      if IsPlan(d) {
        ReturnLanded(m.feed, c, from, ctx.q, t, k);
      }
    }

    /** Bar k leaves the retest open. */
    lemma ScanGoesOn(m: Market, c: Ctx, now: Ctx, was: Thesis, from: int, k: nat, t: int, tally: Tally)
      requires m.feed.Valid() && k < |m.feed.m1| && SoFar(m.feed, buy, c, from, k, now)
      requires now.q.raid.Some? && now.q.mss.Some? && now.q.fvg.Some? && Retested(m, now, was, k, t, None)
      requires Ends(m, t, None, tally)
      ensures state == RETURN && thesis == was && Tallied() == tally && SoFar(m.feed, buy, c, from, k + 1, ctx)
    {
      hide WaitsAt, LosesAt, Settled, ScanStart, Retested, AtOrAfter, Touches, Ends, Sorted, Tallied;
      BarAnswers(m, c, now, was, from, k, t, None);
      NextBar(m.feed.m1, k);
      StillOpen(m, t, tally);
    }

    /** Every bar closed by t was looked at, and the retest is open. */
    lemma ScanStops(m: Market, c: Ctx, was: Thesis, t: int, k: nat, tally: Tally)
      requires m.feed.Valid() && SoFar(m.feed, buy, c, scanFrom, k, ctx) && Tallied() == tally
      requires k < |m.feed.m1| ==> m.feed.m1[k].t + 60 > t
      ensures ctx.q == c.q.(pending := ctx.q.pending) && Ends(m, t, None, tally)
      ensures Onward(m.feed, buy, RETURN, c, RETURN, ctx, scanFrom, t) && ReturnAnswers(m, buy, was, c, None, t, ctx)
    {
      hide WaitsAt, LosesAt, ScanStart, ReturnAnswers, Onward, AtOrAfter, Touches, Ends, Sorted, Tallied;
      ReturnOpen(m, buy, was, c, t, k);
      ReturnOnward(m.feed, buy, c, ctx, scanFrom, t, k);
      StaysOpen(m, t, tally);
    }

    /** What RetestBar says of bar k, said of the whole scan. */
    lemma BarAnswers(m: Market, c: Ctx, now: Ctx, was: Thesis, from: int, k: nat, t: int, d: Option<Decision>)
      requires k < |m.feed.m1| && SoFar(m.feed, buy, c, from, k, now)
      requires now.q.raid.Some? && now.q.mss.Some? && now.q.fvg.Some? && Retested(m, now, was, k, t, d)
      ensures var m1, g := m.feed.m1, c.q.fvg.value;
              var b, start := AtOrAfter(m1, c.q.mss.value), ScanStart(m1, g, c.retestFrom);
              && (WaitsAt(m1, buy, g, b, start, c.q.pending, k) <==> d.None?)
              && (d.Some? ==> Settled(m, buy, was, c.q.raid.value, c, d, k, t, ctx,
                                      LosesAt(m1, buy, g, b, start, c.q.pending, k)))
      ensures d.None? ==> state == RETURN && thesis == was
                          && ctx == now.(retestFrom := m.feed.m1[k].t,
                                         q := now.q.(pending := Touches(buy, m.feed.m1[k], c.q.fvg.value.Ce())))
      ensures IsPlan(d) ==> ctx.q == now.q && made.Some? && made.value.k == k
    {
      hide BarLoses, BarWaits, Grounds, Touches, AtOrAfter, WaitsAt, LosesAt, ScanStart;
      var m1, g := m.feed.m1, c.q.fvg.value;
      AtBar(m1, buy, g, AtOrAfter(m1, c.q.mss.value), ScanStart(m1, g, c.retestFrom), c.q.pending, k, now.q.pending);
    }

    /** The scan takes up at the first bar after both marks. */
    lemma Resumes(f: Feed)
      requires Valid(f) && state == RETURN
      ensures f.Valid() && ctx.q.raid.Some? && ctx.q.mss.Some? && ctx.q.fvg.Some?
      ensures SoFar(f, buy, ctx, scanFrom, ScanStart(f.m1, ctx.q.fvg.value, ctx.retestFrom), ctx)
    {
      hide Base, Counts, Timely, Proved, SequenceHolds, Scanned, Sorted, ScanStart, ReturnHolds, RetestPending, WaitsAt;
      InReturn(f, buy, ctx, scanFrom);
      MarkOf(f, buy, ctx.q.fvg.value, scanFrom, ctx.retestFrom);
      StartIs(f.m1, ctx.q.fvg.value, ctx.retestFrom);
    }

    lemma StillOpen(m: Market, t: int, was: Tally)
      requires Ends(m, t, None, was)
      ensures Tallied() == was
    {
    }

    lemma StaysOpen(m: Market, t: int, was: Tally)
      requires Tallied() == was
      ensures Ends(m, t, None, was)
    {
    }

    /** P4.2: the footprint window is complete, or not yet. */
    method GapEval(m: Market, t: int) returns (d: Option<Decision>)
      requires Valid(m.feed) && m.Usable() && state == GAP && t <= clock
      modifies this`state, this`ctx, this`displacement, this`marks, this`sweepCount, this`plans, this`made,
               this`monitorHash, this`thesis, this`resets, this`scanFrom, this`mark
      ensures Valid(m.feed) && Ends(m, t, d, old(Tallied()))
      ensures d.None? ==> (state == GAP || state == RETURN) && Onward(m.feed, buy, GAP, old(ctx), state, ctx,
                                                                      scanFrom, t)
      ensures d.None? ==> (state == RETURN <==> WindowDone(m.feed, old(ctx).q.mss.value, t))
      ensures IsPlan(d) ==> made.Some? && Landed(m.feed, GAP, old(ctx), old(scanFrom), ctx.q, t, made.value.k)
      ensures GapAnswers(m, buy, old(thesis), old(ctx).q.raid.value, old(ctx).q.mss.value, old(ctx), d, t, ctx)
      ensures IsNoise(d) ==> GapLost(m.feed, buy, old(ctx).q.mss.value, t)
    {
      hide Valid, SequenceHolds, Ends, Tallied, Base, Timely, FvgAt, Footprint, BadAnchor, RetestLost, GapAnswers,
           Widest, GapSeen, Onward, Landed, WindowDone, AtOrAfter, Sorted;
      InProgress(m.feed);
      InGap(m.feed, buy, ctx, scanFrom);
      var m1 := m.feed.m1;
      var b := AtOrAfter(m1, ctx.q.mss.value);
      if b + FOOTPRINT_BARS >= |m1| || m1[b + FOOTPRINT_BARS].t + 60 > t {
        d := GapWaits(m, t);
      } else {
        WindowIsDone(m.feed, ctx.q.mss.value, t);
        var w := WidestOf(m1, SideOf(buy), b, FOOTPRINT_BARS);
        if w.None? || !Footprint(m1, b, buy) {
          d := GapFails(m, t);
        } else {
          WidestIs(m1, buy, b, w.value);
          d := AnchorGap(m, w.value, t);
        }
      }
    }

    method GapWaits(m: Market, t: int) returns (d: Option<Decision>)
      requires Valid(m.feed) && state == GAP && ctx.q.raid.Some? && ctx.q.mss.Some?
      requires var b := AtOrAfter(m.feed.m1, ctx.q.mss.value) + FOOTPRINT_BARS;
               b >= |m.feed.m1| || m.feed.m1[b].t + 60 > t
      ensures d.None? && Ends(m, t, d, Tallied()) && !WindowDone(m.feed, ctx.q.mss.value, t)
      ensures Onward(m.feed, buy, GAP, ctx, GAP, ctx, scanFrom, t)
      ensures GapAnswers(m, buy, thesis, ctx.q.raid.value, ctx.q.mss.value, ctx, d, t, ctx)
    {
      hide Valid, SequenceHolds, Ends, GapAnswers, NotDone, AtOrAfter;
      InProgress(m.feed);
      WindowOpen(m.feed, ctx.q.mss.value, t);
      WindowOwesNothing(m, buy, thesis, ctx.q.raid.value, ctx.q.mss.value, ctx, t);
      StaysOpen(m, t, Tallied());
      d := None;
    }

    /** No gap, or no strong body: there is no entry anchor. */
    method GapFails(m: Market, t: int) returns (d: Option<Decision>)
      requires Valid(m.feed) && state == GAP && WindowDone(m.feed, ctx.q.mss.value, t)
      requires NoGap(m.feed, buy, ctx.q.mss.value) || !Footprint(m.feed.m1, AtOrAfter(m.feed.m1, ctx.q.mss.value), buy)
      modifies this`ctx, this`state, this`displacement, this`marks, this`monitorHash, this`thesis, this`resets
      ensures Valid(m.feed) && Ends(m, t, d, old(Tallied())) && IsNoise(d) && !IsPlan(d)
      ensures GapAnswers(m, buy, old(thesis), old(ctx).q.raid.value, old(ctx).q.mss.value, old(ctx), d, t, ctx)
      ensures GapLost(m.feed, buy, old(ctx).q.mss.value, t)
    {
      hide Valid, SequenceHolds, Ends, Tallied, Base, Timely, GapAnswers, AtOrAfter, BadAnchor, ClearOfBprs, Footprint,
           WindowDone, RetestLost;
      InProgress(m.feed);
      InGap(m.feed, buy, ctx, scanFrom);
      NotAnAnchor(m, buy, thesis, ctx.q.raid.value, ctx.q.mss.value, ctx, t);
      d := Quit(m, t);
    }

    /** The gap is the entry anchor unless an older balanced price range contains it. */
    method AnchorGap(m: Market, w: nat, t: int) returns (d: Option<Decision>)
      requires Valid(m.feed) && m.Usable() && state == GAP && t <= clock && WindowDone(m.feed, ctx.q.mss.value, t)
      requires var b := AtOrAfter(m.feed.m1, ctx.q.mss.value);
               && b <= w < b + FOOTPRINT_BARS < |m.feed.m1| && Footprint(m.feed.m1, b, buy)
               && FvgAt(m.feed.m1, w, SideOf(buy))
               && Widest(m.feed.m1, buy, b, w, GapOf(m.feed.m1, w, buy))
      modifies this`state, this`ctx, this`displacement, this`marks, this`sweepCount, this`plans, this`made,
               this`monitorHash, this`thesis, this`resets, this`scanFrom, this`mark
      ensures Valid(m.feed) && Ends(m, t, d, old(Tallied()))
      ensures d.None? ==> state == RETURN && Onward(m.feed, buy, GAP, old(ctx), state, ctx, scanFrom, t)
      ensures IsPlan(d) ==> made.Some? && Landed(m.feed, GAP, old(ctx), old(scanFrom), ctx.q, t, made.value.k)
      ensures GapAnswers(m, buy, old(thesis), old(ctx).q.raid.value, old(ctx).q.mss.value, old(ctx), d, t, ctx)
      ensures IsNoise(d) ==> GapLost(m.feed, buy, old(ctx).q.mss.value, t)
    {
      hide Valid, SequenceHolds, Ends, Tallied, Base, Timely, GapAnswers, AtOrAfter, ClearOfBprs, Footprint, Widest,
           FvgAt, WindowDone, RetestLost, Onward, Landed, GapSeen, GapLost;
      InProgress(m.feed);
      InGap(m.feed, buy, ctx, scanFrom);
      var m1 := m.feed.m1;
      var b := AtOrAfter(m1, ctx.q.mss.value);
      var g := GapOf(m1, w, buy);
      var contained := Contained(m1, b, g);
      if contained {
        d := BadGap(m, w, g, t);
      } else {
        d := GoodGap(m, w, g, t);
      }
    }

    method BadGap(m: Market, w: nat, g: EntryGap, t: int) returns (d: Option<Decision>)
      requires Valid(m.feed) && state == GAP && ctx.q.mss.Some? && WindowDone(m.feed, ctx.q.mss.value, t)
      requires var b := AtOrAfter(m.feed.m1, ctx.q.mss.value);
               && b <= w < b + FOOTPRINT_BARS < |m.feed.m1| && m.feed.m1[w].t == g.t
               && Widest(m.feed.m1, buy, b, w, g) && !ClearOfBprs(m.feed.m1, b, g)
      modifies this`ctx, this`state, this`displacement, this`marks, this`monitorHash, this`thesis, this`resets
      ensures Valid(m.feed) && Ends(m, t, d, old(Tallied())) && IsNoise(d) && !IsPlan(d)
      ensures GapAnswers(m, buy, old(thesis), old(ctx).q.raid.value, old(ctx).q.mss.value, old(ctx), d, t, ctx)
      ensures GapLost(m.feed, buy, old(ctx).q.mss.value, t)
    {
      hide Valid, SequenceHolds, Ends, Tallied, Base, Timely, GapAnswers, AtOrAfter, ClearOfBprs, Footprint, Widest,
           WindowDone, RetestLost;
      InProgress(m.feed);
      InGap(m.feed, buy, ctx, scanFrom);
      GapIsOne(m.feed, buy, ctx.q.mss.value, w, g);
      NotAnAnchor(m, buy, thesis, ctx.q.raid.value, ctx.q.mss.value, ctx, t);
      assert BadAnchor(m.feed, buy, ctx.q.mss.value);
      d := Quit(m, t);
    }

    method GoodGap(m: Market, w: nat, g: EntryGap, t: int) returns (d: Option<Decision>)
      requires Valid(m.feed) && m.Usable() && state == GAP && t <= clock && ctx.q.raid.Some? && ctx.q.mss.Some?
      requires WindowDone(m.feed, ctx.q.mss.value, t)
      requires var b := AtOrAfter(m.feed.m1, ctx.q.mss.value);
               && b <= w < b + FOOTPRINT_BARS < |m.feed.m1| && m.feed.m1[w].t == g.t
               && Widest(m.feed.m1, buy, b, w, g) && Footprint(m.feed.m1, b, buy) && ClearOfBprs(m.feed.m1, b, g)
      modifies this`state, this`ctx, this`displacement, this`marks, this`sweepCount, this`plans, this`made,
               this`monitorHash, this`thesis, this`resets, this`scanFrom, this`mark
      ensures Valid(m.feed) && Ends(m, t, d, old(Tallied()))
      ensures d.None? ==> state == RETURN && Onward(m.feed, buy, GAP, old(ctx), state, ctx, scanFrom, t)
      ensures IsPlan(d) ==> made.Some? && Landed(m.feed, GAP, old(ctx), old(scanFrom), ctx.q, t, made.value.k)
      ensures GapAnswers(m, buy, old(thesis), old(ctx).q.raid.value, old(ctx).q.mss.value, old(ctx), d, t, ctx)
      ensures IsNoise(d) ==> GapLost(m.feed, buy, old(ctx).q.mss.value, t)
    {
      hide Valid, SequenceHolds, Ends, Base, Timely, GapAnswers, AtOrAfter, ClearOfBprs, Footprint, Widest, WindowDone,
           RetestLost, GapSeen, ReturnAnswers, BadAnchor, NoGap, AllScanned;
      InProgress(m.feed);
      ghost var was, c := thesis, ctx;
      GapIsOne(m.feed, buy, ctx.q.mss.value, w, g);
      EnterReturn(m.feed, w, g);
      ghost var c1 := ctx;
      d := RetestScan(m, t);
      GapAnswered(m, buy, was, c.q.raid.value, c.q.mss.value, c1, g, d, t, ctx);
      GapDebt(m, buy, was, c.q.raid.value, c.q.mss.value, c1, c, d, t, ctx);
    }

    /** Does a balanced price range formed before the gap contain it? */
    method Contained(m1: seq<Bar>, b: nat, g: EntryGap) returns (r: bool)
      requires b <= |m1|
      ensures r <==> !ClearOfBprs(m1, b, g)
    {
      hide Fvgs, BprsUpTo, ClearOfBprs;
      var recent := m1[Older(b, 60)..];
      var bprs := Bprs(recent, Fvgs(recent, |recent|));
      ClearByList(m1, b, g, bprs);
      r := InsideBpr(g, bprs);
    }

    /** The retest scan starts after the bar that confirmed the gap, or where an earlier scan stopped. */
    method EnterReturn(f: Feed, w: nat, g: EntryGap)
      requires Valid(f) && state == GAP
      requires var b := AtOrAfter(f.m1, ctx.q.mss.value);
               && b <= w < b + FOOTPRINT_BARS < |f.m1| && f.m1[w].t == g.t
               && Widest(f.m1, buy, b, w, g) && Footprint(f.m1, b, buy) && ClearOfBprs(f.m1, b, g)
      modifies this`state, this`ctx, this`scanFrom, this`mark
      ensures Valid(f) && state == RETURN && ctx == old(ctx).(q := old(ctx).q.(fvg := Some(g))) && !ctx.q.pending
      ensures GapSeen(f, buy, ctx.q.mss.value, g) && mark == old(ctx).retestFrom
      ensures scanFrom == g.t + 60 <==> old(ctx).retestFrom <= g.t + 60
    {
      hide Valid, Widest, ClearOfBprs, Footprint, Broke, GapSeen, SequenceHolds, Base, Timely;
      InProgress(f);
      InGap(f, buy, ctx, scanFrom);
      GapFound(f, buy, ctx.q.mss.value, w, g);
      AfterBreak(f, buy, ctx.q.raid.value, ctx.q.mssLevel.value, ctx.q.mss.value, g);
      ReturnOpens(f, buy, ctx, scanFrom, g);
      ToReturn(f, g);
    }

    method ToReturn(f: Feed, g: EntryGap)
      requires f.Valid() && Base() && Timely() && plans == 0 && resets < sweepCount && state == GAP && ctx.q.raid.Some?
      requires SequenceHolds(f, buy, RETURN, ctx.(q := ctx.q.(fvg := Some(g))), Later(g.t + 60, ctx.retestFrom))
      modifies this`state, this`ctx, this`scanFrom, this`mark
      ensures Valid(f) && state == RETURN && ctx == old(ctx).(q := old(ctx).q.(fvg := Some(g)))
      ensures mark == old(ctx).retestFrom && scanFrom == Later(g.t + 60, old(ctx).retestFrom)
      ensures Tallied() == old(Tallied())
    {
      hide SequenceHolds, RaidAfter, Processed, MadeHolds;
      mark := ctx.retestFrom;
      ctx := ctx.(q := ctx.q.(fvg := Some(g)));
      scanFrom := Later(g.t + 60, ctx.retestFrom);
      state := RETURN;
    }

    /** The first M1 body close beyond the MSS level after the raid; a wick-only break is only remembered. */
    method ShiftScan(m: Market, t: int) returns (d: Option<Decision>)
      requires Valid(m.feed) && m.Usable() && state == SHIFT && t <= clock
      modifies this`state, this`ctx, this`displacement, this`marks, this`sweepCount, this`plans, this`made,
               this`monitorHash, this`thesis, this`resets, this`scanFrom, this`mark
      ensures Valid(m.feed) && Ends(m, t, d, old(Tallied()))
      ensures d.None? ==>
                OnSequence(state) && state != RAID && Onward(m.feed, buy, SHIFT, old(ctx), state, ctx, scanFrom, t)
      ensures d.None? && state == SHIFT ==> NotBroken(m.feed, buy, ctx.q.raid.value, ctx.q.mssLevel.value, t)
      ensures IsPlan(d) ==> made.Some? && Landed(m.feed, SHIFT, old(ctx), old(scanFrom), ctx.q, t, made.value.k)
      ensures ShiftAnswers(m, buy, old(thesis), old(ctx).q.raid.value, old(ctx).q.mssLevel.value, old(ctx), d, t, ctx)
      ensures IsNoise(d) ==> ShiftLost(m.feed, buy, old(ctx).q.raid.value, old(ctx).q.mssLevel.value, t)
    {
      hide Valid, SequenceHolds, Ends, Tallied, Base, Timely, Broke, Over, NoneOver, NoneOverBy, GapLost, ShiftAnswers,
           GapAnswers, WindowDone, Landed, Onward, Sorted;
      InProgress(m.feed);
      InShift(m.feed, buy, ctx, scanFrom);
      ghost var c, was, tally := ctx, thesis, Tallied();
      var m1, r, level := m.feed.m1, ctx.q.raid.value, ctx.q.mssLevel.value;
      var k, wick := FirstBreak(m1, r, level, t);
      NoteWick(m.feed, wick);
      ghost var c1 := ctx;
      if k < |m1| && m1[k].t + 60 <= t {
        BrokeAt(m.feed, buy, r, level, k);
        d := EnterGap(m, m1[k].t, t);
        ShiftAnswered(m, buy, was, r, level, c1, m1[k].t, d, t, ctx);
      } else {
        NoneOverAt(m.feed, buy, r, level, k, t);
        d := Unbroken(m, t);
      }
      ShiftDebt(m, buy, was, r, level, c1, c, d, t, ctx);
      WickAside(m.feed, buy, c, c1);
    }

    /** No close beyond the level yet: the shift waits while its window is open. */
    method Unbroken(m: Market, t: int) returns (d: Option<Decision>)
      requires Valid(m.feed) && state == SHIFT && ctx.q.raid.Some? && ctx.q.mssLevel.Some?
      requires NoneOverBy(m.feed, buy, ctx.q.raid.value, ctx.q.mssLevel.value, t)
      modifies this`ctx, this`state, this`displacement, this`marks, this`monitorHash, this`thesis, this`resets
      ensures Valid(m.feed) && Ends(m, t, d, old(Tallied())) && !IsPlan(d)
      ensures d.None? ==> state == SHIFT && ctx == old(ctx) && Onward(m.feed, buy, SHIFT, old(ctx), SHIFT, ctx,
                                                                      scanFrom, t)
                          && NotBroken(m.feed, buy, ctx.q.raid.value, ctx.q.mssLevel.value, t)
      ensures ShiftAnswers(m, buy, old(thesis), old(ctx).q.raid.value, old(ctx).q.mssLevel.value, old(ctx), d, t, ctx)
      ensures IsNoise(d) ==> ShiftLost(m.feed, buy, old(ctx).q.raid.value, old(ctx).q.mssLevel.value, t)
    {
      hide Valid, SequenceHolds, Ends, Tallied, Base, Timely, Broke, ShiftAnswers, GapLost, Sorted, Over;
      InProgress(m.feed);
      var r := ctx.q.raid.value;
      NoBreakYet(m, buy, thesis, r, ctx.q.mssLevel.value, ctx, t);
      if t >= r.closeT + MSS_WINDOW_BARS * Seconds(r.tf) {
        d := Quit(m, t);
      } else {
        d := None;
        StaysOpen(m, t, Tallied());
      }
    }

    method NoteWick(f: Feed, wick: bool)
      requires Valid(f) && state == SHIFT
      modifies this`ctx
      ensures Valid(f) && ctx == old(ctx).(q := old(ctx).q.(wickBreak := old(ctx).q.wickBreak || wick))
      ensures Tallied() == old(Tallied())
    {
      hide SequenceHolds, RaidAfter, Processed, MadeHolds;
      WickNoted(f, buy, ctx, scanFrom, ctx.q.wickBreak || wick);
      ctx := ctx.(q := ctx.q.(wickBreak := ctx.q.wickBreak || wick));
    }

    /** The first bar from the raid's close on, closed by t or not, that no longer stays behind the level. */
    method FirstBreak(m1: seq<Bar>, r: Raid, level: real, t: int) returns (k: nat, wick: bool)
      ensures AtOrAfter(m1, r.closeT) <= k <= |m1| && NoneOver(m1, buy, r, level, k)
      ensures k < |m1| && m1[k].t + 60 <= t ==> Over(buy, m1[k].c, level)
      ensures wick <==> exists j :: AtOrAfter(m1, r.closeT) <= j < k && Over(buy, Best(buy, m1[j]), level)
    {
      k, wick := AtOrAfter(m1, r.closeT), false;
      while k < |m1| && m1[k].t + 60 <= t && !Over(buy, m1[k].c, level)
        invariant AtOrAfter(m1, r.closeT) <= k <= |m1|
        invariant NoneOver(m1, buy, r, level, k)
        invariant wick <==> exists j :: AtOrAfter(m1, r.closeT) <= j < k && Over(buy, Best(buy, m1[j]), level)
        decreases |m1| - k
      {
        wick := wick || Over(buy, Best(buy, m1[k]), level);
        k := k + 1;
      }
    }

    method EnterGap(m: Market, mss: int, t: int) returns (d: Option<Decision>)
      requires Valid(m.feed) && m.Usable() && state == SHIFT && t <= clock
      requires ctx.q.raid.Some? && ctx.q.mssLevel.Some?
      requires Broke(m.feed, buy, ctx.q.raid.value, ctx.q.mssLevel.value, mss)
      modifies this`state, this`ctx, this`displacement, this`marks, this`sweepCount, this`plans, this`made,
               this`monitorHash, this`thesis, this`resets, this`scanFrom, this`mark
      ensures Valid(m.feed) && Ends(m, t, d, old(Tallied()))
      ensures d.None? ==> (state == GAP || state == RETURN) && Onward(m.feed, buy, SHIFT, old(ctx), state, ctx,
                                                                      scanFrom, t)
      ensures IsPlan(d) ==> made.Some? && Landed(m.feed, SHIFT, old(ctx), old(scanFrom), ctx.q, t, made.value.k)
      ensures GapAnswers(m, buy, old(thesis), old(ctx).q.raid.value, mss, old(ctx), d, t, ctx)
      ensures IsNoise(d) ==> GapLost(m.feed, buy, mss, t)
    {
      hide Valid, Ends, GapAnswers, GapLost, Onward, Landed, Broke;
      ghost var c, was, r := ctx, thesis, ctx.q.raid.value;
      ToGap(m.feed, mss);
      ghost var c1 := ctx;
      d := GapEval(m, t);
      GapDebt(m, buy, was, r, mss, c1, c, d, t, ctx);
      GapFollows(m.feed, buy, c, c1);
    }

    method ToGap(f: Feed, mss: int)
      requires Valid(f) && state == SHIFT && ctx.q.raid.Some? && ctx.q.mssLevel.Some?
      requires Broke(f, buy, ctx.q.raid.value, ctx.q.mssLevel.value, mss)
      modifies this`ctx, this`state
      ensures Valid(f) && state == GAP && ctx == old(ctx).(q := old(ctx).q.(mss := Some(mss)))
      ensures Tallied() == old(Tallied())
    {
      hide RaidSeen, BackInside, Displaced, Broke, MadeHolds, RaidAfter, Processed;
      ctx := ctx.(q := ctx.q.(mss := Some(mss)));
      state := GAP;
    }

    /** The bar after the raid must close back inside; a displacement within three bars opens the shift. */
    method RaidStep(m: Market, i: nat, t: int) returns (d: Option<Decision>)
      requires m.Usable() && t <= clock
      requires Base() && Counts() && Timely() && state == RAID && !ctx.q.pending
      requires ctx.q.raid.Some? && RaidSeen(m.feed, buy, ctx.q.raid.value)
      requires var r := ctx.q.raid.value; var bars := m.feed.Of(r.tf);
               && AtOrAfter(bars, r.t) < i < |bars| && ctx.seen.At(r.tf) == bars[i].t
               && (i > AtOrAfter(bars, r.t) + 1 ==> BackInside(m.feed, buy, r))
      modifies this`state, this`ctx, this`displacement, this`marks, this`sweepCount, this`plans, this`made,
               this`monitorHash, this`thesis, this`resets, this`scanFrom, this`mark
      ensures Valid(m.feed) && Ends(m, t, d, old(Tallied()))
      ensures d.None? ==> OnSequence(state) && ctx.q.raid == old(ctx).q.raid
      ensures d.None? && state == RAID ==> i <= AtOrAfter(m.feed.Of(ctx.q.raid.value.tf),
                                                          ctx.q.raid.value.t) + DISP_WINDOW
      ensures d.None? && state != RAID ==> ctx.q.mssLevel == Some(MssLevel(m.feed, buy, ctx.q.raid.value))
      ensures d.None? ==> Moved(m.feed, buy, RAID, old(ctx), old(scanFrom), state, ctx, scanFrom,
                                old(ctx).q.raid.value.tf, i, t)
      ensures IsPlan(d) ==> made.Some? && Ripe(m.feed, RAID, old(ctx), old(scanFrom), ctx.q, old(ctx).q.raid.value.tf,
                                               i, t, made.value.k)
      ensures RaidAnswers(m, buy, old(thesis), old(ctx), i, d, t, state, ctx)
      ensures d.None? && state == RAID ==> i == AtOrAfter(m.feed.Of(old(ctx).q.raid.value.tf),
                                                          old(ctx).q.raid.value.t) + 1
                                           || !Drives(m.feed.Of(old(ctx).q.raid.value.tf), buy, i - 1)
      ensures IsNoise(d) ==> RaidLost(m.feed, buy, old(ctx).q.raid.value, i, t)
    {
      hide Valid, Ends, Tallied, Base, Counts, Timely, RaidSeen, BackInside, Drives, MssLevel, RaidAnswers, Moved, Ripe,
           RaidLost, AtOrAfter;
      ghost var c, was, from := ctx, thesis, scanFrom;
      var f, r := m.feed, ctx.q.raid.value;
      var bars, ri := f.Of(r.tf), AtOrAfter(f.Of(r.tf), r.t);
      if i == ri + 1 {
        d := RaidSecond(m, i, t);
      } else if i - 1 <= ri + DISP_WINDOW && Drives(bars, buy, i - 1) {
        d := RaidThrough(m, i, t);
      } else {
        d := RaidLasts(m, i, t);
      }
    }

    /** The bar after the raid. */
    method RaidSecond(m: Market, i: nat, t: int) returns (d: Option<Decision>)
      requires m.Usable() && Base() && Counts() && Timely() && state == RAID && !ctx.q.pending
      requires ctx.q.raid.Some? && RaidSeen(m.feed, buy, ctx.q.raid.value)
      requires var r := ctx.q.raid.value; var bars := m.feed.Of(r.tf);
               i == AtOrAfter(bars, r.t) + 1 && i < |bars| && ctx.seen.At(r.tf) == bars[i].t
      modifies this`state, this`ctx, this`displacement, this`marks, this`monitorHash, this`thesis, this`resets
      ensures Valid(m.feed) && Ends(m, t, d, old(Tallied())) && !IsPlan(d)
      ensures d.None? ==> state == RAID && ctx.q.raid == old(ctx).q.raid
      ensures d.None? ==> Moved(m.feed, buy, RAID, old(ctx), scanFrom, RAID, ctx, scanFrom, old(ctx).q.raid.value.tf,
                                i, t)
      ensures RaidAnswers(m, buy, old(thesis), old(ctx), i, d, t, state, ctx)
      ensures IsNoise(d) ==> RaidLost(m.feed, buy, old(ctx).q.raid.value, i, t)
    {
      hide Valid, Ends, Tallied, Base, Timely, RaidSeen, BackInside, Drives, MssLevel, RaidAnswers, Moved, AtOrAfter,
           ShiftLost, SequenceHolds;
      ghost var c, was := ctx, thesis;
      RaidGoesOnInside(m, buy, was, c, i, t);
      d := SecondBar(m, i, t);
      if d.Some? {
        RaidOwesNothing(m, buy, was, c, i, t);
      } else {
        RaidGoesOn(m.feed, buy, ctx, scanFrom, i);
        RaidMoves(m.feed, buy, c, scanFrom, ctx, scanFrom, i, t);
        ValidNow(m.feed);
      }
    }

    lemma ValidNow(f: Feed)
      requires f.Valid() && Base() && Counts() && Timely() && state != CONFIRMED
      requires SequenceHolds(f, buy, state, ctx, scanFrom)
      ensures Valid(f)
    {
      hide Base, Counts, Timely, SequenceHolds;
    }

    /** The bar before this one is a displacement. */
    method RaidThrough(m: Market, i: nat, t: int) returns (d: Option<Decision>)
      requires m.Usable() && t <= clock && Base() && Counts() && Timely() && state == RAID && !ctx.q.pending
      requires ctx.q.raid.Some? && RaidSeen(m.feed, buy, ctx.q.raid.value) && BackInside(m.feed, buy, ctx.q.raid.value)
      requires var r := ctx.q.raid.value; var bars := m.feed.Of(r.tf);
               var ri := AtOrAfter(bars, r.t);
               ri + 1 < i < |bars| && i - 1 <= ri + DISP_WINDOW && Drives(bars, buy, i - 1)
      modifies this`state, this`ctx, this`displacement, this`marks, this`sweepCount, this`plans, this`made,
               this`monitorHash, this`thesis, this`resets, this`scanFrom, this`mark
      ensures Valid(m.feed) && Ends(m, t, d, old(Tallied()))
      ensures d.None? ==> OnSequence(state) && state != RAID && ctx.q.raid == old(ctx).q.raid
                          && ctx.q.mssLevel == Some(MssLevel(m.feed, buy, ctx.q.raid.value))
      ensures d.None? ==> Moved(m.feed, buy, RAID, old(ctx), old(scanFrom), state, ctx, scanFrom,
                                old(ctx).q.raid.value.tf, i, t)
      ensures IsPlan(d) ==> made.Some? && Ripe(m.feed, RAID, old(ctx), old(scanFrom), ctx.q, old(ctx).q.raid.value.tf,
                                               i, t, made.value.k)
      ensures RaidAnswers(m, buy, old(thesis), old(ctx), i, d, t, state, ctx)
      ensures IsNoise(d) ==> RaidLost(m.feed, buy, old(ctx).q.raid.value, i, t)
    {
      hide Valid, Ends, Tallied, Base, Counts, Timely, RaidSeen, BackInside, Drives, MssLevel, RaidAnswers, Moved, Ripe,
           AtOrAfter, ShiftLost, Onward, Landed, ShiftAnswers, Displaced;
      ghost var c, was, from := ctx, thesis, scanFrom;
      var bars := m.feed.Of(ctx.q.raid.value.tf);
      DisplacedHere(m.feed, buy, ctx.q.raid.value, i - 1);
      d := EnterShift(m, bars[i - 1].t, t);
      RaidAnswered(m, buy, was, c, i, d, t, state, ctx);
      ShiftMoves(m.feed, buy, c, from, state, ctx, scanFrom, i, t, d);
      if IsPlan(d) {
        ShiftRipens(m.feed, c, from, ctx.q, i, t, made.value.k);
      }
    }

    /** No displacement yet: the raid lasts three bars. */
    method RaidLasts(m: Market, i: nat, t: int) returns (d: Option<Decision>)
      requires m.Usable() && Base() && Counts() && Timely() && state == RAID && !ctx.q.pending
      requires ctx.q.raid.Some? && RaidSeen(m.feed, buy, ctx.q.raid.value) && BackInside(m.feed, buy, ctx.q.raid.value)
      requires var r := ctx.q.raid.value; var bars := m.feed.Of(r.tf);
               var ri := AtOrAfter(bars, r.t);
               && ri + 1 < i < |bars| && ctx.seen.At(r.tf) == bars[i].t
               && !(i - 1 <= ri + DISP_WINDOW && Drives(bars, buy, i - 1))
      modifies this`ctx, this`state, this`displacement, this`marks, this`monitorHash, this`thesis, this`resets
      ensures Valid(m.feed) && Ends(m, t, d, old(Tallied())) && !IsPlan(d)
      ensures d.None? ==> state == RAID && ctx == old(ctx)
                          && i <= AtOrAfter(m.feed.Of(ctx.q.raid.value.tf), ctx.q.raid.value.t) + DISP_WINDOW
      ensures d.None? ==> Moved(m.feed, buy, RAID, old(ctx), scanFrom, RAID, ctx, scanFrom, old(ctx).q.raid.value.tf,
                                i, t)
      ensures RaidAnswers(m, buy, old(thesis), old(ctx), i, d, t, state, ctx)
      ensures IsNoise(d) ==> RaidLost(m.feed, buy, old(ctx).q.raid.value, i, t)
    {
      hide Valid, Ends, Tallied, Base, Timely, RaidSeen, BackInside, Drives, RaidAnswers, Moved, AtOrAfter, ShiftLost,
           SequenceHolds;
      ghost var c, was := ctx, thesis;
      RaidOwesNothing(m, buy, was, c, i, t);
      if i - AtOrAfter(m.feed.Of(ctx.q.raid.value.tf), ctx.q.raid.value.t) >= DISP_WINDOW + 1 {
        d := Quit(m, t);
      } else {
        d := None;
        RaidGoesOn(m.feed, buy, ctx, scanFrom, i);
        RaidMoves(m.feed, buy, c, scanFrom, ctx, scanFrom, i, t);
        ValidNow(m.feed);
        StaysOpen(m, t, Tallied());
      }
    }

    method SecondBar(m: Market, i: nat, t: int) returns (d: Option<Decision>)
      requires m.Usable() && Base() && Counts() && Timely() && state == RAID && ctx.q.raid.Some?
      requires var r := ctx.q.raid.value; i == AtOrAfter(m.feed.Of(r.tf), r.t) + 1 && i < |m.feed.Of(r.tf)|
      modifies this`state, this`ctx, this`displacement, this`marks, this`monitorHash, this`thesis, this`resets
      ensures Ends(m, t, d, old(Tallied())) && (d.Some? ==> Valid(m.feed))
      ensures d.Some? <==> !BackInside(m.feed, buy, old(ctx).q.raid.value)
      ensures d.Some? ==> !IsPlan(d)
      ensures d.None? ==>
                Base() && Counts() && Timely() && state == RAID && ctx == old(ctx).(q := old(ctx).q.(type7 := true))
    {
      hide Valid, Ends, Shows, RaidAfter, Processed, BackInside, Leaves;
      var r := ctx.q.raid.value;
      var b := m.feed.Of(r.tf)[i];
      InsideIs(m.feed, buy, r, i);
      if !(Over(buy, b.c, r.level) && WithTrade(buy, b)) {
        d := Quit(m, t);
      } else {
        Noted();
        d := None;
        StaysOpen(m, t, Tallied());
      }
    }

    /** Type 7. */
    method Noted()
      requires Base() && Counts() && Timely() && state == RAID
      modifies this`ctx
      ensures Base() && Counts() && Timely() && ctx == old(ctx).(q := old(ctx).q.(type7 := true))
      ensures Tallied() == old(Tallied())
    {
      hide RaidAfter, Processed;
      ctx := ctx.(q := ctx.q.(type7 := true));
    }

    method EnterShift(m: Market, disp: int, t: int) returns (d: Option<Decision>)
      requires m.Usable() && t <= clock
      requires Base() && Counts() && Timely() && state == RAID && !ctx.q.pending
      requires ctx.q.raid.Some? && RaidSeen(m.feed, buy, ctx.q.raid.value) && BackInside(m.feed, buy, ctx.q.raid.value)
      requires Displaced(m.feed, buy, ctx.q.raid.value, disp)
      modifies this`state, this`ctx, this`displacement, this`marks, this`sweepCount, this`plans, this`made,
               this`monitorHash, this`thesis, this`resets, this`scanFrom, this`mark
      ensures Valid(m.feed) && Ends(m, t, d, old(Tallied()))
      ensures d.None? ==> OnSequence(state) && state != RAID && ctx.q.raid == old(ctx).q.raid
                          && ctx.q.mssLevel == Some(MssLevel(m.feed, buy, ctx.q.raid.value))
                          && Onward(m.feed, buy, SHIFT, Shifted(old(ctx), disp, ctx.q.mssLevel), state, ctx, scanFrom,
                                    t)
      ensures IsPlan(d) ==> made.Some? && Landed(m.feed, SHIFT, Shifted(old(ctx), disp, ctx.q.mssLevel),
                                                 old(scanFrom), ctx.q,
                                                 t, made.value.k)
      ensures ShiftAnswers(m, buy, old(thesis), old(ctx).q.raid.value, MssLevel(m.feed, buy, old(ctx).q.raid.value),
                           old(ctx), d, t, ctx)
      ensures IsNoise(d) ==> ShiftLost(m.feed, buy, old(ctx).q.raid.value,
                                       MssLevel(m.feed, buy, old(ctx).q.raid.value), t)
    {
      hide Valid, Ends, Base, Counts, Timely, RaidSeen, BackInside, Displaced, MssLevel, NotBroken, ShiftLost,
           ShiftAnswers, UpTo, WindowDone;
      ghost var c, was := ctx, thesis;
      ToShift(m.feed, disp, MssLevel(m.feed, buy, ctx.q.raid.value));
      ghost var c1 := ctx;
      d := ShiftScan(m, t);
      ShiftDebt(m, buy, was, c.q.raid.value, c1.q.mssLevel.value, c1, c, d, t, ctx);
    }

    method ToShift(f: Feed, disp: int, level: real)
      requires f.Valid() && Base() && Counts() && Timely() && state == RAID && !ctx.q.pending
      requires ctx.q.raid.Some? && RaidSeen(f, buy, ctx.q.raid.value) && BackInside(f, buy, ctx.q.raid.value)
      requires Displaced(f, buy, ctx.q.raid.value, disp)
      modifies this`state, this`ctx, this`displacement
      ensures Valid(f) && state == SHIFT && ctx == Shifted(old(ctx), disp, Some(level)) && Tallied() == old(Tallied())
    {
      hide RaidSeen, BackInside, Displaced, RaidAfter, Processed;
      displacement := true;
      ctx := ctx.(q := ctx.q.(disp := Some(disp), mssLevel := Some(level)));
      state := SHIFT;
    }

    /** The near pools this bar is the first to sweep: past the deepest one, a body opens a raid and a wick is noise. */
    method Watch(m: Market, tf: TF, i: nat, t: int) returns (d: Option<Decision>)
      requires Valid(m.feed) && m.Usable() && state == WATCH && tf != M1
      requires i < |m.feed.Of(tf)| && ctx.seen.At(tf) == m.feed.Of(tf)[i].t
      requires t == m.feed.Of(tf)[i].t + Seconds(tf) && JustSeen(tf, m.feed.Of(tf)[i].t, t)
      modifies this`state, this`ctx, this`displacement, this`marks, this`sweepCount, this`monitorHash, this`thesis,
               this`resets, this`raidAt, this`raidPrior
      ensures Valid(m.feed) && Ends(m, t, d, old(Tallied()))
      ensures !IsPlan(d) && (d.None? ==> ctx == old(ctx) && state == WATCH)
      ensures d.None? <==> forall p :: p in m.pools ==> !Sweeps(m, buy, old(ctx).swept, m.feed.Of(tf)[i], p)
      ensures d.Some? ==> sweepCount == old(sweepCount) + 1 && ctx.anchorReached
      ensures d.Some? ==> var swept := Swept(m, buy, old(ctx).swept, m.feed.Of(tf)[i], |m.pools|);
                ctx.swept == LastFifty(old(ctx).swept + Levels(swept))
      ensures d.Some? ==> exists p :: RaidsPool(m, buy, old(ctx).swept, m.feed.Of(tf)[i], p)
                                      && (state == RAID <==> Under(buy, m.feed.Of(tf)[i].c, p.level))
                                      && (IsNoise(d) <==> !Under(buy, m.feed.Of(tf)[i].c, p.level))
                                      && (state == RAID ==> ctx.q.raid.value.level == p.level)
      ensures WatchAnswers(m, buy, old(ctx), tf, m.feed.Of(tf)[i], t, state, ctx)
    {
      hide Valid, Ends, Tallied, Sweeps, Away, RaidsPool, WatchAnswers, JustSeen, Reach, Under, Levels, LastFifty,
           Base, Counts, Timely, Proved, SequenceHolds;
      ValidHas(m.feed);
      ghost var c := ctx;
      var b := m.feed.Of(tf)[i];
      AwayMisses(m, buy, ctx.swept, b);
      SweptAll(m, buy, ctx.swept, b);
      var swept := Swept(m, buy, ctx.swept, b, |m.pools|);
      if Away(m, buy, b) || swept == [] {
        WatchOwesNothing(m, buy, c, tf, b, t);
        StaysOpen(m, t, Tallied());
        d := None;
      } else {
        var pool := Deepest(buy, swept);
        DeepestRaids(m, buy, ctx.swept, b, swept, pool);
        d := StartRaid(m, tf, i, t, pool.level, swept);
        WatchAnswered(m, buy, c, tf, b, t, pool, state, ctx);
      }
    }

    method StartRaid(m: Market, tf: TF, i: nat, t: int, level: real, swept: seq<Pool>) returns (d: Option<Decision>)
      requires Valid(m.feed) && m.Usable() && state == WATCH && tf != M1
      requires i < |m.feed.Of(tf)| && ctx.seen.At(tf) == m.feed.Of(tf)[i].t
      requires t == m.feed.Of(tf)[i].t + Seconds(tf) && JustSeen(tf, m.feed.Of(tf)[i].t, t)
      modifies this`state, this`ctx, this`displacement, this`marks, this`sweepCount, this`monitorHash, this`thesis,
               this`resets, this`raidAt, this`raidPrior
      ensures Valid(m.feed) && Ends(m, t, d, old(Tallied())) && d.Some? && !IsPlan(d)
                && sweepCount == old(sweepCount) + 1
      ensures state == RAID <==> Under(buy, m.feed.Of(tf)[i].c, level)
      ensures IsNoise(d) <==> !Under(buy, m.feed.Of(tf)[i].c, level)
      ensures ctx == old(ctx).(anchorReached := true, swept := LastFifty(old(ctx).swept + Levels(swept)), q := ctx.q)
      ensures state == RAID ==>
                ctx.q == old(ctx).q.(raid := Some(Raid(m.feed.Of(tf)[i].t, tf, level, Reach(buy, m.feed.Of(tf)[i]), t)))
    {
      hide Valid, Ends, Base, JustSeen, Reach, Under, Levels, LastFifty, SequenceHolds;
      ghost var was := Tallied();
      var b := m.feed.Of(tf)[i];
      var r := Raid(b.t, tf, level, Reach(buy, b), t);
      Sweep(m.feed, r, swept);
      ghost var swept1 := Tallied();
      if Under(buy, b.c, level) {
        d := BodySweep(m, tf, i, r, was);
      } else {
        d := Quit(m, t);
        SweepEnds(m, t, d, was, swept1);
      }
    }

    /** Every pool swept is remembered, and the raid of this bar with it. */
    method Sweep(f: Feed, r: Raid, swept: seq<Pool>)
      requires Valid(f) && state == WATCH && JustSeen(r.tf, r.t, r.closeT)
      modifies this`ctx, this`sweepCount, this`raidAt, this`raidPrior
      ensures Base() && plans == 0 && resets < sweepCount && sweepCount == old(sweepCount) + 1
      ensures ctx == old(ctx).(anchorReached := true, swept := LastFifty(old(ctx).swept + Levels(swept)),
                               q := NO_SEQUENCE.(raid := Some(r)))
      ensures old(ctx).q == NO_SEQUENCE && SequenceHolds(f, buy, WATCH, old(ctx), scanFrom) && raidPrior == prior
      ensures ctx.retestFrom <= raidPrior && (ordered ==> raidPrior <= r.closeT)
      ensures Tallied() == old(Tallied()).(sweeps := old(sweepCount) + 1)
    {
      hide Levels, LastFifty, Processed, RaidAfter, MadeHolds, RaidHolds, ShiftHolds, GapHolds, ReturnHolds, Confirmed;
      sweepCount := sweepCount + 1;
      RaidIsLast(handled, marks, raidAt, r);
      ctx := ctx.(anchorReached := true, swept := LastFifty(ctx.swept + Levels(swept)), q := ctx.q.(raid := Some(r)));
      raidAt, raidPrior := |handled| - 1, prior;
    }

    /** The close lies past the pool. */
    method BodySweep(m: Market, tf: TF, i: nat, r: Raid, ghost was: Tally) returns (d: Option<Decision>)
      requires m.feed.Valid() && Base() && plans == 0 && resets < sweepCount && state == WATCH && tf != M1
      requires i < |m.feed.Of(tf)| && ctx.seen.At(tf) == m.feed.Of(tf)[i].t
      requires var b := m.feed.Of(tf)[i];
               r == Raid(b.t, tf, r.level, Reach(buy, b), b.t + Seconds(tf)) && Under(buy, b.c, r.level)
      requires ctx.q == NO_SEQUENCE.(raid := Some(r)) && ctx.retestFrom <= raidPrior
                && (ordered ==> raidPrior <= r.closeT)
      requires Tallied() == was.(sweeps := was.sweeps + 1)
      modifies this`state
      ensures Valid(m.feed) && state == RAID && d.Some? && d.value.out == PROGRESS && d.value.plan.None?
      ensures Ends(m, r.closeT, d, was)
    {
      hide Base, Reach, Under, SequenceHolds;
      RaidAt(m.feed, buy, ctx.(q := NO_SEQUENCE), scanFrom, tf, i, r.level, r, ctx);
      state := RAID;
      d := Some(Decision(PROGRESS, Scores(0, 0, 0, 0), None, r.closeT));
    }

    lemma SweepEnds(m: Market, t: int, d: Option<Decision>, was: Tally, swept: Tally)
      requires Ends(m, t, d, swept) && d.Some? && swept == was.(sweeps := was.sweeps + 1) && sweepCount == swept.sweeps
      ensures Ends(m, t, d, was)
    {
      hide DecisionHolds, Shows;
    }

    lemma ValidHas(f: Feed)
      requires Valid(f)
      ensures f.Valid() && Base() && Counts() && Timely() && Proved() && SequenceHolds(f, buy, state, ctx, scanFrom)
    {
      hide Base, Counts, Timely, Proved, SequenceHolds;
    }

    // -------------------------------------------------------------- one bar

    method See(m: Market, tf: TF, i: nat)
      requires Valid(m.feed) && i == Past(m.feed.Of(tf), ctx.seen.At(tf)) && i < |m.feed.Of(tf)|
      modifies this`ctx, this`handled, this`clock, this`prior, this`ordered
      ensures Base() && Counts() && Timely()
      ensures ctx == Marked(m, buy, old(ctx), tf, m.feed.Of(tf)[i])
      ensures ctx.seen == old(ctx).seen.Set(tf, m.feed.Of(tf)[i].t)
      ensures handled == old(handled) + [(tf, m.feed.Of(tf)[i].t)]
      ensures var t := CloseAt(m.feed, tf, i);
              && clock == Later(t, old(clock)) && prior == old(clock)
              && (ordered <==> old(ordered) && t >= old(clock))
              && JustSeen(tf, m.feed.Of(tf)[i].t, t)
    {
      hide Valid, SequenceHolds, Processed, Proved, RaidAfter, Sorted, Marked, Counts, CloseAt, Past, Base, Timely;
      ValidHas(m.feed);
      ClockRuns(m.feed);
      Unseen(m.feed, ctx.seen, tf, i);
      Tick(CloseAt(m.feed, tf, i));
      MarkedKeeps(m, buy, ctx, tf, m.feed.Of(tf)[i]);
      Mark(tf, m.feed.Of(tf)[i].t, Marked(m, buy, ctx, tf, m.feed.Of(tf)[i]));
    }

    lemma ClockRuns(f: Feed)
      requires Valid(f)
      ensures ctx.seen.m1 + 60 <= clock
    {
      hide SequenceHolds, MadeHolds, Processed, RaidAfter;
    }

    /** The bar is on record. */
    method Mark(tf: TF, open: int, c: Ctx)
      requires Base() && Timely() && ctx.seen.At(tf) < open
      requires c.seen == ctx.seen.Set(tf, open) && c.q == ctx.q && c.retestFrom == ctx.retestFrom
      requires c.seen.m1 + 60 <= clock
      modifies this`ctx, this`handled
      ensures Base() && Timely() && ctx == c && handled == old(handled) + [(tf, open)]
      ensures forall j :: 0 <= j < |marks| ==> marks[j] < |handled|
    {
      hide Processed, RaidAfter;
      ProcessedStep(handled, ctx.seen, tf, open);
      OneMoreHandled(handled, marks, raidAt, ctx.q.raid, (tf, open));
      ctx := c;
      handled := handled + [(tf, open)];
    }

    /** The clock of the events. */
    ghost method Tick(t: int)
      requires Base() && Timely()
      modifies this`clock, this`prior, this`ordered
      ensures Base() && Timely() && ctx.retestFrom <= prior
      ensures clock == Later(t, old(clock)) && prior == old(clock) && (ordered <==> old(ordered) && t >= prior)
    {
      hide Processed, RaidAfter;
      ordered := ordered && t >= clock;
      prior := clock;
      clock := Later(t, clock);
    }

    /** The scans have come to the last M1 bar seen, and what opened the state has closed. */
    ghost predicate Current(f: Feed)
      reads this`state, this`ctx, this`scanFrom, this`clock
    {
      UpTo(f, buy, state, ctx, scanFrom, ctx.seen.m1) && Opened(f, state, ctx.q, clock)
    }

    /** The plan was said at the latest of the three closes it had to wait for. */
    ghost predicate OnTheDot()
      reads this`state, this`ctx, this`made
    {
      state == CONFIRMED && made.Some? && ctx.q.raid.Some? && ctx.q.disp.Some? && ctx.q.mss.Some? ==>
        made.value.d.ts == ConfirmTime(made.value.m.feed, ctx.q, made.value.k)
    }

    /** One closed bar: seen, checked against the thesis, and handed to the state's handler. */
    method OnBar(m: Market, tf: TF, i: nat) returns (d: Option<Decision>)
      requires Valid(m.feed) && m.Usable() && Awake(state)
      requires i == Past(m.feed.Of(tf), ctx.seen.At(tf)) && i < |m.feed.Of(tf)|
      modifies this
      ensures Valid(m.feed)
      ensures var was := old(Tallied()).(seen := old(ctx).seen.Set(tf, m.feed.Of(tf)[i].t));
              Leaves(m, CloseAt(m.feed, tf, i), d, was)
      ensures d.None? ==> Awake(state)
      ensures IsNoise(d) ==> NoiseCause(m, buy, old(state), old(ctx), tf, i, CloseAt(m.feed, tf, i))
      ensures Contradicts(m, buy, old(state), old(ctx), tf, i) ==> state == MONITOR
      ensures !Contradicts(m, buy, old(state), old(ctx), tf, i) ==>
                var was := old(Tallied()).(seen := old(ctx).seen.Set(tf, m.feed.Of(tf)[i].t));
                && Ends(m, CloseAt(m.feed, tf, i), d, was)
                && Answers(m, buy, old(thesis), old(state), Marked(m, buy, old(ctx), tf, m.feed.Of(tf)[i]), tf, i,
                           CloseAt(m.feed, tf, i), d, state, ctx)
      ensures IsPlan(d) ==> made.Some? && Ripe(m.feed, old(state), Marked(m, buy, old(ctx), tf, m.feed.Of(tf)[i]),
                                               old(scanFrom), ctx.q, tf, i, CloseAt(m.feed, tf, i), made.value.k)
      ensures old(Current(m.feed)) && ordered ==> Current(m.feed) && OnTheDot()
      ensures handled == old(handled) + [(tf, m.feed.Of(tf)[i].t)]
      ensures var t := CloseAt(m.feed, tf, i);
              clock == Later(t, old(clock)) && (ordered <==> old(ordered) && t >= old(clock))
    {
      hide Valid, SequenceHolds, BarDue, Base, Counts, Timely, Proved, Ends, Leaves, Marked, Contradicts, NoiseCause,
           Moved, Ripe, Current, OnTheDot, Answers, JustSeen, CloseAt, Past, Opened, UpTo;
      ValidHas(m.feed);
      SeenIsDue(m, buy, state, ctx, scanFrom, tf, i);
      CauseSeen(m, buy, state, ctx, tf, i);
      ghost var was, c, from, s := ctx, Marked(m, buy, ctx, tf, m.feed.Of(tf)[i]), scanFrom, state;
      ghost var current, before := Current(m.feed), clock;
      CurrentMeans(m.feed);
      See(m, tf, i);
      ghost var tally := Tallied();
      d := Act(m, tf, i, CloseAt(m.feed, tf, i));
      KeepsCurrent(m, tf, i, d, s, was, c, from, before, tally, current && ordered);
    }

    lemma KeepsCurrent(m: Market, tf: TF, i: nat, d: Option<Decision>, s: ZState, was: Ctx, c: Ctx, from: int,
                       before: int, tally: Tally, due: bool)
      requires Valid(m.feed) && i == Past(m.feed.Of(tf), was.seen.At(tf)) && i < |m.feed.Of(tf)|
      requires due ==> UpTo(m.feed, buy, s, was, from, was.seen.m1) && Opened(m.feed, s, was.q, before)
      requires due ==> clock == CloseAt(m.feed, tf, i) >= before
      requires tally.seen == was.seen.Set(tf, m.feed.Of(tf)[i].t)
      requires c == Marked(m, buy, was, tf, m.feed.Of(tf)[i])
      requires d.None? ==> Moved(m.feed, buy, s, c, from, state, ctx, scanFrom, tf, i, CloseAt(m.feed, tf, i))
      requires IsPlan(d) ==> made.Some? && Ripe(m.feed, s, c, from, ctx.q, tf, i, CloseAt(m.feed, tf, i), made.value.k)
      requires Leaves(m, CloseAt(m.feed, tf, i), d, tally)
      requires d.None? ==> Awake(state)
      ensures due ==> Current(m.feed) && OnTheDot()
    {
      hide Moved, Ripe, Chain, UpTo, Opened, SequenceHolds, Base, ConfirmTime, Grounds;
      if !due {
        return;
      }
      MarkedUpTo(m, buy, was, tf, m.feed.Of(tf)[i], s, from, was.seen.m1);
      if d.None? {
        SeenClosed(m.feed);
        StaysCurrent(m.feed, buy, s, c, from, state, ctx, scanFrom, tf, i, before, clock, was.seen.m1);
      } else {
        NothingToScan(m.feed, buy, state, ctx, scanFrom, ctx.seen.m1, clock);
        if IsPlan(d) {
          ChainHas(m.feed, buy, ctx.q, scanFrom, made.value.k);
          ConfirmedWhen(m.feed, buy, s, c, from, ctx.q, scanFrom, tf, i, before, clock, was.seen.m1, made.value.k);
        }
      }
    }

    lemma CurrentMeans(f: Feed)
      ensures Current(f) ==> UpTo(f, buy, state, ctx, scanFrom, ctx.seen.m1) && Opened(f, state, ctx.q, clock)
    {
    }

    lemma SeenClosed(f: Feed)
      requires Valid(f)
      ensures ctx.seen.m1 + 60 <= clock
    {
      hide SequenceHolds, MadeHolds, Processed, RaidAfter;
    }

    method Contradicted(m: Market, t: int) returns (d: Option<Decision>)
      requires m.Usable() && Base() && Counts() && OnSequence(state)
      modifies this`ctx, this`state, this`displacement, this`marks, this`monitorHash
      ensures Valid(m.feed) && Leaves(m, t, d, old(Tallied())) && d.Some? && state == MONITOR && !IsPlan(d)
    {
      hide Valid, Base;
      var n := Monitor(m, t, Scores(0, 0, 0, 0));
      d := Some(n);
    }

    /** Level 2 if an M15 bar contradicts the thesis; otherwise the state's handler. */
    method Act(m: Market, tf: TF, i: nat, t: int) returns (d: Option<Decision>)
      requires m.Usable() && Base() && Counts() && Timely() && Awake(state)
      requires i < |m.feed.Of(tf)| && ctx.seen.At(tf) == m.feed.Of(tf)[i].t && t == CloseAt(m.feed, tf, i)
      requires t <= clock && JustSeen(tf, m.feed.Of(tf)[i].t, t) && BarDue(m.feed, buy, state, ctx, scanFrom, tf, i)
      modifies this`state, this`ctx, this`displacement, this`marks, this`sweepCount, this`plans, this`made,
               this`monitorHash, this`thesis, this`resets, this`scanFrom, this`mark, this`raidAt, this`raidPrior
      ensures Valid(m.feed) && Leaves(m, t, d, old(Tallied()))
      ensures d.None? ==> Awake(state)
      ensures d.None? ==> Moved(m.feed, buy, old(state), old(ctx), old(scanFrom), state, ctx, scanFrom, tf, i, t)
      ensures IsPlan(d) ==> made.Some? && Ripe(m.feed, old(state), old(ctx), old(scanFrom), ctx.q, tf, i, t,
                                               made.value.k)
      ensures Contradicts(m, buy, old(state), old(ctx), tf, i) ==> state == MONITOR
      ensures !Contradicts(m, buy, old(state), old(ctx), tf, i) ==>
                && Ends(m, t, d, old(Tallied()))
                && Answers(m, buy, old(thesis), old(state), old(ctx), tf, i, t, d, state, ctx)
      ensures IsNoise(d) ==> NoiseCause(m, buy, old(state), old(ctx), tf, i, t)
    {
      hide Valid, Leaves, Tallied, BarDue, Base, Counts, Timely, M15Contradiction, Moved, Ripe, Answers, JustSeen;
      if Contradicts(m, buy, state, ctx, tf, i) {
        d := Contradicted(m, t);
      } else {
        d := Dispatch(m, tf, i, t);
        EndsLeave(m, t, d, old(Tallied()));
      }
    }

    lemma EndsLeave(m: Market, t: int, d: Option<Decision>, was: Tally)
      requires Ends(m, t, d, was)
      ensures Leaves(m, t, d, was)
    {
      hide Leaves;
    }

    method Dispatch(m: Market, tf: TF, i: nat, t: int) returns (d: Option<Decision>)
      requires m.Usable() && Base() && Counts() && Timely() && Awake(state)
      requires i < |m.feed.Of(tf)| && ctx.seen.At(tf) == m.feed.Of(tf)[i].t && t == CloseAt(m.feed, tf, i)
      requires t <= clock && JustSeen(tf, m.feed.Of(tf)[i].t, t) && BarDue(m.feed, buy, state, ctx, scanFrom, tf, i)
      modifies this`state, this`ctx, this`displacement, this`marks, this`sweepCount, this`plans, this`made,
               this`monitorHash, this`thesis, this`resets, this`scanFrom, this`mark, this`raidAt, this`raidPrior
      ensures Valid(m.feed) && Ends(m, t, d, old(Tallied()))
      ensures d.None? ==> Awake(state)
      ensures d.None? ==> Moved(m.feed, buy, old(state), old(ctx), old(scanFrom), state, ctx, scanFrom, tf, i, t)
      ensures IsPlan(d) ==> made.Some? && Ripe(m.feed, old(state), old(ctx), old(scanFrom), ctx.q, tf, i, t,
                                               made.value.k)
      ensures Answers(m, buy, old(thesis), old(state), old(ctx), tf, i, t, d, state, ctx)
      ensures IsNoise(d) ==> NoiseCause(m, buy, old(state), old(ctx), tf, i, t)
    {
      hide Valid, Ends, Tallied, SequenceHolds, Base, Counts, Timely, RaidDue, RaidSeen, BackInside, RaidsPool,
           RaidLost, M15Contradiction, Onward, Landed, RaidAnswers, WatchAnswers, ShiftAnswers, GapAnswers,
           ReturnAnswers, JustSeen, ShiftLost, GapLost, RetestLost;
      if OnSequence(state) {
        DueHas(m.feed, buy, state, ctx, scanFrom, tf, i);
      }
      if state == RAID && tf == ctx.q.raid.value.tf {
        DueRaid(m.feed, buy, ctx, scanFrom, tf, i);
        d := RaidStep(m, i, t);
      } else {
        ValidNow(m.feed);
        if state == WATCH && tf != M1 {
          d := Watch(m, tf, i, t);
        } else if OnSequence(state) && state != RAID && tf == M1 {
          d := Minute(m, i, t);
        } else {
          d := None;
          StaysOpen(m, t, Tallied());
        }
      }
    }

    /** A minute closed after the raid: the state's scan goes on. */
    method Minute(m: Market, i: nat, t: int) returns (d: Option<Decision>)
      requires Valid(m.feed) && m.Usable() && (state == SHIFT || state == GAP || state == RETURN) && t <= clock
      requires i < |m.feed.m1|
      modifies this`state, this`ctx, this`displacement, this`marks, this`sweepCount, this`plans, this`made,
               this`monitorHash, this`thesis, this`resets, this`scanFrom, this`mark
      ensures Valid(m.feed) && Ends(m, t, d, old(Tallied()))
      ensures d.None? ==> Awake(state)
      ensures d.None? ==> Moved(m.feed, buy, old(state), old(ctx), old(scanFrom), state, ctx, scanFrom, M1, i, t)
      ensures IsPlan(d) ==> made.Some? && Ripe(m.feed, old(state), old(ctx), old(scanFrom), ctx.q, M1, i, t,
                                               made.value.k)
      ensures Answers(m, buy, old(thesis), old(state), old(ctx), M1, i, t, d, state, ctx)
      ensures IsNoise(d) ==> NoiseCause(m, buy, old(state), old(ctx), M1, i, t)
    {
      hide Valid, Ends, Tallied, SequenceHolds, ShiftLost, GapLost, RetestLost, Onward, Landed, ShiftAnswers,
           GapAnswers, ReturnAnswers, Base, Timely, NotBroken, WindowDone, M15Contradiction;
      InProgress(m.feed);
      if state == SHIFT {
        InShift(m.feed, buy, ctx, scanFrom);
        d := ShiftScan(m, t);
      } else if state == GAP {
        InGap(m.feed, buy, ctx, scanFrom);
        d := GapEval(m, t);
      } else {
        InReturn(m.feed, buy, ctx, scanFrom);
        d := RetestScan(m, t);
      }
    }

    // -------------------------------------------------------------- one evaluation

    /** Bars are coming in time order. */
    ghost predicate InTime(m: Market)
      reads this`state, this`ctx, this`scanFrom, this`clock, this`ordered, this`made
    {
      ordered && clock <= m.now && AllClosed(m) && Due(m.feed, ctx.seen, clock) && Current(m.feed) && OnTheDot()
    }

    method NextEvent(m: Market, e: Event) returns (d: Option<Decision>)
      requires Valid(m.feed) && m.Usable() && Awake(state)
      requires NewEvents(m.feed, ctx.seen) != [] && e == NewEvents(m.feed, ctx.seen)[0]
      modifies this
      ensures Valid(m.feed) && NewEvents(m.feed, ctx.seen) == old(NewEvents(m.feed, ctx.seen))[1..]
      ensures resets == old(resets) + (if d.Some? && d.value.out == RESET then 1 else 0)
      ensures |marks| == |old(marks)| + (if d.Some? && Clears(d.value.out) then 1 else 0)
      ensures d.Some? ==> DecisionHolds(m, buy, d.value) && Shows(m, d.value)
      ensures d.None? ==> Awake(state)
      ensures old(handled) <= handled
      ensures old(InTime(m)) ==> InTime(m)
    {
      hide SequenceHolds, Base, Counts, Timely, DecisionHolds, Shows, NewEvents, Due, Current, OnTheDot, MadeHolds,
           Answers, NoiseCause, Ripe;
      EventStep(m.feed, ctx.seen);
      ghost var seen, t := ctx.seen, clock;
      d := OnBar(m, e.tf, e.i);
      if Due(m.feed, seen, t) {
        DueStep(m.feed, seen, t);
      }
    }

    /** The new bars in close-time order, until the zone goes quiet. */
    method Process(m: Market) returns (out: seq<Decision>)
      requires Valid(m.feed) && m.Usable() && Awake(state)
      modifies this
      ensures Valid(m.feed) && AllHold(m, buy, out)
      ensures CountOut(out, RESET) + old(resets) == resets && CountOut(out, CONFIRM) == plans
      ensures CountClears(out) + |old(marks)| == |marks| && PlansAre(out, m, Planned())
      ensures state == MONITOR || state == CONFIRMED || (Awake(state) && NewEvents(m.feed, ctx.seen) == [])
      ensures state == MONITOR ==> monitorHash == m.structHash
      ensures state == CONFIRMED <==> Final(out)
      ensures old(handled) <= handled
      ensures old(InTime(m)) ==> InTime(m)
    {
      hide SequenceHolds, Base, Timely, DecisionHolds, AllHold, Final, CountOut, NewEvents, InTime, CountClears,
           PlansAre, MadeHolds;
      out := [];
      NothingYet(m, buy);
      var evs, n := NewEvents(m.feed, ctx.seen), 0;
      while n < |evs|
        invariant n <= |evs| && evs[n..] == NewEvents(m.feed, ctx.seen)
        invariant Valid(m.feed) && Awake(state) && AllHold(m, buy, out) && !Final(out)
        invariant CountOut(out, RESET) + old(resets) == resets && CountOut(out, CONFIRM) == 0
        invariant CountClears(out) + |old(marks)| == |marks|
        invariant old(handled) <= handled
        invariant old(InTime(m)) ==> InTime(m)
      {
        var d := NextEvent(m, evs[n]);
        n := n + 1;
        if d.Some? {
          NoPlans(out, m, Planned());
          PlansGrow(out, d.value, m, Planned());
          OutGrows(m, buy, out, d.value);
          out := out + [d.value];
          if d.value.out == MONITORED || d.value.out == CONFIRM {
            return;
          }
        }
      }
      NoPlans(out, m, Planned());
    }

    /** A map with another structure wakes a zone in MONITOR. */
    ghost predicate Lifts(m: Market)
      reads this
    {
      state == MONITOR && monitorHash != m.structHash
    }

    /** An opposing zone, or three sessions without the anchor, silences a zone that would otherwise be looked at. */
    ghost predicate Shelves(m: Market)
      reads this
    {
      && (Awake(state) || Lifts(m))
      && (m.opposing || (m.stale && (Lifts(m) || !ctx.anchorReached)))
    }

    method StepZone(m: Market) returns (out: seq<Decision>)
      requires Valid(m.feed) && m.Usable()
      modifies this
      ensures Valid(m.feed) && AllHold(m, buy, out)
      ensures old(state) == CONFIRMED || old(state) == DEAD ==> state == old(state) && out == []
      ensures state == DEAD <==> old(state) == DEAD || (old(state) != CONFIRMED && ThesisBroken(m, buy, firstSeen))
      ensures old(state) == MONITOR && !old(Lifts(m)) && state != DEAD ==> state == MONITOR && out == []
      ensures state == MONITOR ==> monitorHash == m.structHash
      ensures old(Shelves(m)) && state != DEAD ==> state == MONITOR
      ensures resets == CountOut(out, RESET) + (if old(Lifts(m)) && state != DEAD then 0 else old(resets))
      ensures CountOut(out, CONFIRM) + old(plans) == plans
      ensures CountClears(out) + |old(marks)| == |marks| && PlansAre(out, m, Planned())
      ensures old(Planned()).Some? ==> Planned() == old(Planned())
      ensures Final(out) ==> state == CONFIRMED || state == DEAD
      ensures Awake(state) ==> NewEvents(m.feed, ctx.seen) == []
      ensures old(handled) <= handled
      ensures old(InTime(m)) && 0 <= m.now ==> InTime(m)
    {
      hide Valid, AllHold, Final, CountOut, NewEvents, InTime, ThesisBroken, CountClears, PlansAre;
      NothingYet(m, buy);
      NoPlans([], m, Planned());
      NotYet(m.feed);
      if state == DEAD || state == CONFIRMED {
        out := [];
      } else if ThesisBroken(m, buy, firstSeen) {
        Punctual(m);
        ghost var due := InTime(m);
        out := Invalidate(m);
        StillPunctual(m, due);
      } else if state == MONITOR && monitorHash == m.structHash {
        out := [];
      } else {
        out := Revisit(m);
      }
    }

    /** The thesis stands, and the zone does not rest under this structure. */
    method Revisit(m: Market) returns (out: seq<Decision>)
      requires Valid(m.feed) && m.Usable() && (Awake(state) || Lifts(m))
      modifies this
      ensures Valid(m.feed) && AllHold(m, buy, out) && state != DEAD
      ensures state == MONITOR ==> monitorHash == m.structHash
      ensures old(Shelves(m)) ==> state == MONITOR
      ensures resets == CountOut(out, RESET) + (if old(Lifts(m)) then 0 else old(resets))
      ensures CountOut(out, CONFIRM) == plans
      ensures CountClears(out) + |old(marks)| == |marks| && PlansAre(out, m, Planned())
      ensures Final(out) <==> state == CONFIRMED
      ensures Awake(state) ==> NewEvents(m.feed, ctx.seen) == []
      ensures old(handled) <= handled
      ensures old(InTime(m)) ==> InTime(m)
    {
      hide Valid, AllHold, Final, CountOut, NewEvents, InTime, CountClears, PlansAre;
      var status := if sweepCount > 0 then PRESERVED else ACTIVE;
      Punctual(m);
      ghost var due := InTime(m);
      if state == MONITOR {
        Lift(m.feed);
        StillPunctual(m, due);
      }
      Judge(m.feed, status);
      out := Attend(m);
    }

    method Judge(f: Feed, status: Thesis)
      requires Valid(f) && state != CONFIRMED
      modifies this`thesis
      ensures Valid(f) && thesis == status
    {
      hide SequenceHolds, MadeHolds, Processed, RaidAfter;
      thesis := status;
    }

    /** A plan is said once, in CONFIRMED. */
    lemma NotYet(f: Feed)
      requires Valid(f)
      ensures plans == if state == CONFIRMED then 1 else 0
    {
      hide Base, Timely, Proved, SequenceHolds;
    }

    lemma Punctual(m: Market)
      ensures InTime(m) ==> ordered && clock <= m.now && AllClosed(m) && Due(m.feed, ctx.seen, clock)
    {
      hide Due, AllClosed, Current, OnTheDot;
    }

    /** Outside the scans nothing is owed to the minutes. */
    lemma StillPunctual(m: Market, due: bool)
      requires state == WATCH || state == MONITOR || state == DEAD
      requires due ==> ordered && clock <= m.now && AllClosed(m) && Due(m.feed, ctx.seen, clock)
      ensures due ==> InTime(m)
    {
      hide Due, AllClosed, UpTo, Opened;
      NothingToScan(m.feed, buy, state, ctx, scanFrom, ctx.seen.m1, clock);
    }

    /** What can end the zone's work without a bar, then the bars. */
    method Attend(m: Market) returns (out: seq<Decision>)
      requires Valid(m.feed) && m.Usable() && Awake(state)
      modifies this
      ensures Valid(m.feed) && AllHold(m, buy, out)
      ensures CountOut(out, RESET) + old(resets) == resets && CountOut(out, CONFIRM) == plans
      ensures CountClears(out) + |old(marks)| == |marks| && PlansAre(out, m, Planned())
      ensures state == MONITOR || state == CONFIRMED || (Awake(state) && NewEvents(m.feed, ctx.seen) == [])
      ensures m.opposing || (m.stale && !old(ctx).anchorReached) ==> state == MONITOR
      ensures state == MONITOR ==> monitorHash == m.structHash
      ensures state == CONFIRMED <==> Final(out)
      ensures old(handled) <= handled
      ensures old(InTime(m)) ==> InTime(m)
    {
      hide Valid, AllHold, Final, CountOut, NewEvents, InTime, CountClears, PlansAre;
      if m.opposing || (!ctx.anchorReached && m.stale) {
        Punctual(m);
        NotYet(m.feed);
        ghost var due := InTime(m);
        out := Shelve(m);
        StillPunctual(m, due);
      } else {
        out := Work(m);
      }
    }

    method Work(m: Market) returns (out: seq<Decision>)
      requires Valid(m.feed) && m.Usable() && Awake(state)
      modifies this
      ensures Valid(m.feed) && AllHold(m, buy, out)
      ensures CountOut(out, RESET) + old(resets) == resets && CountOut(out, CONFIRM) == plans
      ensures CountClears(out) + |old(marks)| == |marks| && PlansAre(out, m, Planned())
      ensures state == MONITOR || state == CONFIRMED || (Awake(state) && NewEvents(m.feed, ctx.seen) == [])
      ensures state == MONITOR ==> monitorHash == m.structHash
      ensures state == CONFIRMED <==> Final(out)
      ensures old(handled) <= handled
      ensures old(InTime(m)) ==> InTime(m)
    {
      hide SequenceHolds, Base, Counts, Timely, DecisionHolds, AllHold, Final, CountOut, NewEvents, InTime, P1, P2,
           CountClears, PlansAre, MadeHolds;
      out := Process(m);
      if state == RETURN {
        InSequence(m.feed, buy, state, ctx, scanFrom);
        out := Waiting(m, out);
      }
    }

    /** Level 3: the zone is dead. */
    method Invalidate(m: Market) returns (out: seq<Decision>)
      requires Valid(m.feed) && state != CONFIRMED
      modifies this`ctx, this`state, this`displacement, this`marks, this`thesis
      ensures Valid(m.feed) && AllHold(m, buy, out) && state == DEAD && ctx == old(ctx).(q := NO_SEQUENCE)
      ensures Final(out) && CountOut(out, RESET) == CountOut(out, CONFIRM) == 0
      ensures CountClears(out) + |old(marks)| == |marks| && PlansAre(out, m, Planned())
    {
      hide Valid, Base, AllHold, Final, CountOut, CountClears, PlansAre, SequenceHolds, Proved, Timely;
      ValidHas(m.feed);
      ClearSequence();
      state, thesis := DEAD, INVALID;
      AtRest(m.feed);
      var d := Decision(INVALIDATED, Scores(0, 0, 0, 0), None, m.now);
      SaidAlone(m, buy, d, Planned());
      out := [d];
    }

    /** A fresh map: everything but the processed bars is forgotten. */
    method Lift(f: Feed)
      requires Valid(f) && state == MONITOR
      modifies this`ctx, this`state, this`sweepCount, this`resets
      ensures Valid(f) && state == WATCH && resets == 0 && sweepCount == 0
      ensures ctx == Ctx(old(ctx).seen, false, false, [], 0, NO_SEQUENCE)
    {
      hide MadeHolds, RaidHolds, ShiftHolds, GapHolds, ReturnHolds, Confirmed, Processed;
      state, sweepCount := WATCH, 0;
      ctx := Ctx(ctx.seen, false, false, [], 0, NO_SEQUENCE);
      resets := 0;
    }

    /** Level 2 without a new bar: an opposing zone, or three sessions without reaching the anchor. */
    method Shelve(m: Market) returns (out: seq<Decision>)
      requires Valid(m.feed) && Awake(state)
      modifies this`ctx, this`state, this`displacement, this`marks, this`monitorHash, this`thesis
      ensures Valid(m.feed) && AllHold(m, buy, out) && state == MONITOR && monitorHash == m.structHash
      ensures ctx == old(ctx).(q := NO_SEQUENCE)
      ensures !Final(out) && CountOut(out, RESET) == CountOut(out, CONFIRM) == 0
      ensures CountClears(out) + |old(marks)| == |marks| && PlansAre(out, m, Planned())
    {
      hide Valid, Base, AllHold, Final, CountOut, CountClears, PlansAre, SequenceHolds, Proved, Timely;
      ValidHas(m.feed);
      if !m.opposing {
        thesis := STALE;
      }
      var d := Monitor(m, m.now, Scores(0, 0, 0, 0));
      SaidAlone(m, buy, d, Planned());
      out := [d];
    }

    /** In RETURN with full P1 and P2 the zone says what it waits for. */
    method Waiting(m: Market, said: seq<Decision>) returns (out: seq<Decision>)
      requires Valid(m.feed) && state == RETURN && ctx.q.raid.Some? && AllHold(m, buy, said)
      ensures AllHold(m, buy, out) && (Final(out) <==> Final(said))
      ensures CountClears(out) == CountClears(said) && (PlansAre(said, m, Planned()) ==> PlansAre(out, m, Planned()))
      ensures var due := P1(m, thesis) == 25 && P2(m, Some(ctx.q.raid.value.extreme), m.now) == 25;
              out == said + if due then [Decision(WAIT, Scores(25, 25, 25, 0), None, m.now)] else []
      ensures CountOut(out, RESET) == CountOut(said, RESET) && CountOut(out, CONFIRM) == CountOut(said, CONFIRM)
    {
      hide PlanHolds, AllHold, Final, CountOut, ReturnHolds, P1, P2, CountClears, PlansAre;
      out := said;
      if P1(m, thesis) == 25 && P2(m, Some(ctx.q.raid.value.extreme), m.now) == 25 {
        var d := Decision(WAIT, Scores(25, 25, 25, 0), None, m.now);
        OutGrows(m, buy, out, d);
        if PlansAre(out, m, Planned()) {
          PlansGrow(out, d, m, Planned());
        }
        out := out + [d];
      }
    }
  }
}
