/** Whole runs of the executor over one zone record. */
module ZoneRuns {
  import opened Feeds
  import opened ZoneTypes
  import opened ZoneScan
  import opened ZoneTiming
  import opened ZoneMachine

  /** Successive markets: each usable, bars only appended. */
  ghost predicate Growing(ms: seq<Market>) {
    && (forall n :: 0 <= n < |ms| ==> ms[n].Usable())
    && (forall n :: 0 < n < |ms| ==> Grown(ms[n - 1].feed, ms[n].feed))
  }

  /** The close of the last M1 bar seen when the record was made. */
  function Start(seen: Seen): int {
    Later(0, seen.m1 + 60)
  }

  /** Only closed bars, none late, and the clock of the evaluations never runs back. */
  ghost predicate OnTime(seen: Seen, ms: seq<Market>) {
    && (forall n :: 0 <= n < |ms| ==> AllClosed(ms[n]) && 0 <= ms[n].now)
    && (forall n :: 0 < n < |ms| ==> Prompt(ms[n - 1], ms[n]) && ms[n - 1].now <= ms[n].now)
    && (ms != [] ==> Start(seen) <= ms[0].now && Due(ms[0].feed, seen, Start(seen)))
  }

  /** How often the structure hash changed between consecutive evaluations, among the first n. */
  function Changes(ms: seq<Market>, n: nat): nat
    requires n <= |ms|
  {
    if n <= 1 then 0
    else Changes(ms, n - 1) + if ms[n - 1].structHash != ms[n - 2].structHash then 1 else 0
  }

  function Total(outs: seq<seq<Decision>>, o: Output): nat {
    if outs == [] then 0 else Total(outs[..|outs| - 1], o) + CountOut(outs[|outs| - 1], o)
  }

  function TotalClears(outs: seq<seq<Decision>>): nat {
    if outs == [] then 0 else TotalClears(outs[..|outs| - 1]) + CountClears(outs[|outs| - 1])
  }

  /** The plan said in market m is the one on record, its raid and its defending bar witnessed in that market, the raid
      bar processed after every reset. */
  ghost predicate Witnessed(z: ZoneState, m: Market, d: Decision)
    reads z
  {
    && z.state == CONFIRMED && z.made.Some? && z.made.value.d == d && z.made.value.m == m
    && MadeHolds(z.made.value, z.buy, z.thesis, z.ctx.q, z.scanFrom)
    && RaidAfter(z.handled, z.marks, z.raidAt, z.ctx.q.raid)
  }

  /** What the scan of the confirmed gap skipped, if anything: it started where a scan had come before the raid's event,
      and that lies after the gap only if the raid bar was processed after a bar that closed later. */
  ghost predicate ScanStarted(z: ZoneState)
    reads z
  {
    z.ctx.q.raid.Some? && z.ctx.q.fvg.Some? ==>
      && (z.scanFrom == z.ctx.q.fvg.value.t + 60 <==> z.mark <= z.ctx.q.fvg.value.t + 60)
      && (z.scanFrom != z.ctx.q.fvg.value.t + 60 ==> z.scanFrom == z.mark && z.raidPrior > z.ctx.q.raid.value.closeT)
  }

  ghost predicate PlansMade(z: ZoneState, ms: seq<Market>, outs: seq<seq<Decision>>)
    requires |outs| <= |ms|
    reads z
  {
    forall n :: 0 <= n < |outs| ==> PlansAre(outs[n], ms[n], z.Planned())
  }

  /** After a plan or an invalidation the zone says nothing more. */
  ghost predicate QuietAfterFinal(outs: seq<seq<Decision>>) {
    forall j, k :: 0 <= j < k < |outs| && Final(outs[j]) ==> outs[k] == []
  }

  lemma ValidGrows(z: ZoneState, f: Feed, g: Feed)
    requires z.Valid(f) && Grown(f, g) && g.Valid()
    ensures z.Valid(g)
  {
    hide SequenceHolds, MadeHolds;
    SequenceStays(f, g, z.buy, z.state, z.ctx, z.scanFrom);
  }

  /** The zone's history so far: what was said in the first n evaluations against what it is now. */
  ghost predicate Kept(z: ZoneState, ms: seq<Market>, outs: seq<seq<Decision>>)
    requires |outs| <= |ms|
    reads z
  {
    && (forall k :: 0 <= k < |outs| ==> AllHold(ms[k], z.buy, outs[k]))
    && Total(outs, CONFIRM) == z.plans && TotalClears(outs) == |z.marks| && PlansMade(z, ms, outs)
    && Total(outs, RESET) <= 2 * Changes(ms, |outs|) + z.resets
    && (z.state == MONITOR ==> outs != [] && z.monitorHash == ms[|outs| - 1].structHash)
    && (forall k :: 0 <= k < |outs| && Final(outs[k]) ==> z.state == CONFIRMED || z.state == DEAD)
    && QuietAfterFinal(outs)
  }

  method Step(z: ZoneState, ghost ms: seq<Market>, m: Market, ghost outs: seq<seq<Decision>>)
      returns (out: seq<Decision>)
    requires |outs| < |ms| && m == ms[|outs|] && m.Usable() && z.Valid(m.feed) && Kept(z, ms, outs)
    modifies z
    ensures z.Valid(m.feed) && Kept(z, ms, outs + [out])
    ensures old(z.InTime(m)) && 0 <= m.now ==> z.InTime(m)
  {
    hide CountOut, CountClears, AllHold, Final, ThesisBroken, NewEvents, PlansAre, Changes, ZoneState.Valid,
         ZoneState.InTime, ZoneState.Shelves;
    ghost var was := z.Planned();
    LiftIsAChange(z, ms, m, outs);
    out := z.StepZone(m);
    assert (outs + [out])[..|outs|] == outs;
    forall n | 0 <= n < |outs|
      ensures PlansAre(outs[n], ms[n], z.Planned())
    {
      PlansKept(outs[n], ms[n], was, z.Planned());
    }
  }

  /** A zone is lifted only by a structure other than the one it came to rest under. */
  lemma LiftIsAChange(z: ZoneState, ms: seq<Market>, m: Market, outs: seq<seq<Decision>>)
    requires |outs| < |ms| && m == ms[|outs|] && Kept(z, ms, outs) && z.Valid(m.feed)
    ensures Total(outs, RESET) <= 2 * Changes(ms, |outs| + 1) + if z.Lifts(m) then 0 else z.resets
  {
    hide Total, TotalClears, AllHold, PlansMade, QuietAfterFinal, Final, SequenceHolds, MadeHolds, Processed, RaidAfter;
  }

  /** A zone record lives through any sequence of markets. */
  method Run(buy: bool, firstSeen: int, seen: Seen, ms: seq<Market>) returns (z: ZoneState, outs: seq<seq<Decision>>)
    requires Growing(ms)
    ensures fresh(z) && |outs| == |ms| && z.buy == buy
    ensures forall n :: 0 <= n < |ms| ==> AllHold(ms[n], buy, outs[n])
    ensures forall n, d :: 0 <= n < |ms| && d in outs[n] && d.out == CONFIRM ==> Witnessed(z, ms[n], d)
    ensures Total(outs, CONFIRM) <= 1
    ensures Total(outs, CONFIRM) == 1 <==> z.state == CONFIRMED
    ensures z.state == CONFIRMED ==>
              ms != [] && Confirmed(ms[|ms| - 1].feed, buy, z.ctx.q, z.scanFrom) && ScanStarted(z)
    ensures z.state == CONFIRMED && OnTime(seen, ms) ==>
              z.ctx.q.fvg.Some? && z.scanFrom == z.ctx.q.fvg.value.t + 60 && z.OnTheDot()
    ensures |z.marks| == TotalClears(outs)
    ensures Total(outs, RESET) <= 2 * (1 + Changes(ms, |ms|))
    ensures QuietAfterFinal(outs)
    ensures forall m, n :: 0 <= m < n < |z.handled| ==> z.handled[m] != z.handled[n]
  {
    hide CountOut, AllHold, Final, SequenceHolds, Kept, OnTime, Grown, Confirmed, TotalClears, Total, Witnessed,
         ScanStarted, ZoneState.OnTheDot, ZoneState.Timely, ZoneState.Base, ZoneState.Proved, ZoneState.InTime;
    z := new ZoneState(buy, firstSeen, seen);
    outs := [];
    NothingSaid(z, ms);
    while |outs| < |ms|
      invariant |outs| <= |ms|
      invariant fresh(z) && z.buy == buy && Kept(z, ms, outs) && z.Base() && z.Counts()
      invariant outs != [] ==> z.Valid(ms[|outs| - 1].feed) && (OnTime(seen, ms) ==> z.InTime(ms[|outs| - 1]))
      invariant outs == [] ==> z.state == WATCH && z.ctx.seen == seen && z.clock == Start(seen) && z.ordered
      invariant outs == [] ==> forall f: Feed :: f.Valid() ==> z.Valid(f)
      decreases |ms| - |outs|
      modifies z
    {
      var n := |outs|;
      if n > 0 {
        ValidGrows(z, ms[n - 1].feed, ms[n].feed);
      }
      if OnTime(seen, ms) {
        OnTimeStep(z, seen, ms, n);
      }
      var out := Step(z, ms, ms[n], outs);
      outs := outs + [out];
    }
    KeptMeans(z, buy, ms, outs);
    if z.state == CONFIRMED {
      ConfirmedMeans(z, ms[|ms| - 1].feed);
      PlansMeans(z, ms, outs);
      if OnTime(seen, ms) {
        InTimeMeans(z, ms[|ms| - 1]);
      }
    } else {
      NoPlansMeans(z, ms, outs);
    }
  }

  lemma NothingSaid(z: ZoneState, ms: seq<Market>)
    requires z.plans == 0 && z.state == WATCH && z.marks == []
    ensures Kept(z, ms, [])
  {
  }

  lemma KeptMeans(z: ZoneState, buy: bool, ms: seq<Market>, outs: seq<seq<Decision>>)
    requires |outs| == |ms| && Kept(z, ms, outs) && z.Base() && z.Counts() && z.buy == buy
    ensures forall n :: 0 <= n < |ms| ==> AllHold(ms[n], buy, outs[n])
    ensures Total(outs, CONFIRM) <= 1 && (Total(outs, CONFIRM) == 1 <==> z.state == CONFIRMED)
    ensures Total(outs, RESET) <= 2 * (1 + Changes(ms, |ms|)) && QuietAfterFinal(outs) && |z.marks| == TotalClears(outs)
    ensures forall m, n :: 0 <= m < n < |z.handled| ==> z.handled[m] != z.handled[n]
    ensures z.state == CONFIRMED ==> ms != []
    ensures PlansMade(z, ms, outs)
  {
    hide PlansAre, RaidAfter;
  }

  lemma PlansMeans(z: ZoneState, ms: seq<Market>, outs: seq<seq<Decision>>)
    requires |outs| == |ms| && PlansMade(z, ms, outs) && z.Base() && z.Proved() && z.state == CONFIRMED
    ensures forall n, d :: 0 <= n < |ms| && d in outs[n] && d.out == CONFIRM ==> Witnessed(z, ms[n], d)
  {
    hide MadeHolds, RaidAfter, Processed;
    forall n, d | 0 <= n < |ms| && d in outs[n] && d.out == CONFIRM
      ensures Witnessed(z, ms[n], d)
    {
      assert PlansAre(outs[n], ms[n], z.Planned());
    }
  }

  lemma NoPlansMeans(z: ZoneState, ms: seq<Market>, outs: seq<seq<Decision>>)
    requires |outs| == |ms| && PlansMade(z, ms, outs) && z.state != CONFIRMED
    ensures forall n, d :: 0 <= n < |ms| && d in outs[n] ==> d.out != CONFIRM
  {
    forall n, d | 0 <= n < |ms| && d in outs[n]
      ensures d.out != CONFIRM
    {
      assert PlansAre(outs[n], ms[n], z.Planned());
    }
  }

  lemma ConfirmedMeans(z: ZoneState, f: Feed)
    requires z.Valid(f) && z.state == CONFIRMED
    ensures Confirmed(f, z.buy, z.ctx.q, z.scanFrom) && z.ctx.q.fvg.Some? && ScanStarted(z) && z.Base() && z.Proved()
    ensures z.ordered ==> z.scanFrom == z.ctx.q.fvg.value.t + 60
  {
    hide Chain, RaidAfter, Processed, Grounds, ZoneState.Base, SequenceHolds;
    var w := z.made.value;
    IsConfirmed(f, z.buy, z.ctx, z.scanFrom);
    ChainHas(w.m.feed, z.buy, z.ctx.q, z.scanFrom, w.k);
    BreakBeforeGap(w.m.feed, z.buy, z.ctx.q, z.scanFrom, w.k);
  }

  lemma IsConfirmed(f: Feed, buy: bool, c: Ctx, scanFrom: int)
    requires SequenceHolds(f, buy, CONFIRMED, c, scanFrom)
    ensures Confirmed(f, buy, c.q, scanFrom)
  {
    hide Confirmed;
  }

  lemma BreakBeforeGap(f: Feed, buy: bool, q: Sequence, scanFrom: int, k: nat)
    requires Chain(f, buy, q, scanFrom, k)
    ensures q.raid.Some? && q.fvg.Some? && q.raid.value.closeT <= q.fvg.value.t
  {
    hide RaidSeen, BackInside, Displaced, Defended, Untouched, Widest, Footprint, ClearOfBprs;
    var b, m := AtOrAfter(f.m1, q.mss.value), AtOrAfter(f.m1, q.fvg.value.t);
  }

  lemma InTimeMeans(z: ZoneState, m: Market)
    requires z.InTime(m)
    ensures z.ordered && z.OnTheDot()
  {
  }

  /** The plan is the one for the raid and the bar its own chain witnesses, and that bar had closed. */
  lemma PlanIsItsChains(z: ZoneState, m: Market, d: Decision)
    requires Witnessed(z, m, d)
    ensures var q, k := z.ctx.q, z.made.value.k;
            && Chain(m.feed, z.buy, q, z.scanFrom, k) && CloseAt(m.feed, M1, k) <= d.ts
            && m.tick > 0.0 && AtOrAfter(m.feed.Of(q.raid.value.tf), q.raid.value.t) < |m.feed.Of(q.raid.value.tf)|
            && AtOrAfter(m.feed.m1, q.raid.value.t) <= k
            && d.plan == PlanOf(m, z.buy, q.raid.value, k) && Scored(m, z.thesis, q.raid.value, d.ts)
    ensures exists n :: 0 <= n < |z.handled| && z.handled[n] == (z.ctx.q.raid.value.tf, z.ctx.q.raid.value.t)
                        && forall j :: 0 <= j < |z.marks| ==> z.marks[j] <= n
  {
    hide Chain, PlanOf, Scored;
    var w := z.made.value;
    ChainHas(m.feed, z.buy, z.ctx.q, z.scanFrom, w.k);
    assert z.handled[z.raidAt] == (z.ctx.q.raid.value.tf, z.ctx.q.raid.value.t);
  }

  /** With bars on time the plan was said at the latest of three closes; that is its bar's own close, with the kill zone
      open then, exactly when that bar closes last. */
  lemma SaidWhen(z: ZoneState, m: Market, d: Decision)
    requires Witnessed(z, m, d) && z.OnTheDot() && m.feed.Valid()
    ensures var q, k := z.ctx.q, z.made.value.k; var c := CloseAt(m.feed, M1, k);
            && c <= d.ts == ConfirmTime(m.feed, q, k)
            && (d.ts == c <==> DefendsLast(m.feed, q, k))
            && (DefendsLast(m.feed, q, k) ==> m.killzone(c) && m.now - c <= CONFIRM_MAX_LAG_S)
  {
    hide Chain, ConfirmTime, DefendsLast, RaidAfter;
    var w := z.made.value;
    AtItsClose(m.feed, z.buy, z.ctx.q, z.scanFrom, w.k);
    if DefendsLast(m.feed, z.ctx.q, w.k) {
      OpenAtItsClose(w, z.buy, z.thesis, z.ctx.q, z.scanFrom);
    }
  }

  lemma OnTimeStep(z: ZoneState, seen: Seen, ms: seq<Market>, n: nat)
    requires Growing(ms) && n < |ms| && OnTime(seen, ms)
    requires n > 0 ==> z.Valid(ms[n - 1].feed) && z.InTime(ms[n - 1])
    requires n == 0 ==> z.ctx.seen == seen && z.clock == Start(seen) && z.ordered && z.state == WATCH
    ensures z.InTime(ms[n]) && 0 <= ms[n].now
  {
    hide Due, AllClosed, Prompt, Grown, UpTo, Opened, SequenceHolds, ConfirmTime;
    if n > 0 {
      PromptStaysDue(ms[n - 1], ms[n], z.ctx.seen, z.clock);
      StillCurrent(z, ms[n - 1], ms[n]);
    } else {
      NothingToScan(ms[0].feed, z.buy, z.state, z.ctx, z.scanFrom, z.ctx.seen.m1, z.clock);
    }
  }

  lemma StillCurrent(z: ZoneState, m: Market, next: Market)
    requires z.Valid(m.feed) && z.InTime(m) && Grown(m.feed, next.feed) && Prompt(m, next)
    ensures z.Current(next.feed)
  {
    hide Due, AllClosed, UpTo, Opened, SequenceHolds, Grown, RaidAfter, Processed;
    forall k | |m.feed.m1| <= k < |next.feed.m1|
      ensures next.feed.m1[k].t > z.ctx.seen.m1
    {
      assert CloseAt(next.feed, M1, k) > m.now;
    }
    UpToStays(m.feed, next.feed, z.buy, z.state, z.ctx, z.scanFrom, z.ctx.seen.m1);
    OpenedStays(m.feed, next.feed, z.state, z.ctx.q, z.clock);
  }
}
