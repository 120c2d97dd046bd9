/** The fiduciary stop loss and the take-profit ladder of a confirmed setup. Prices are reals. */
module StopTargets {
  import opened Trades
  import opened Primitives

  // ---------------------------------------------------------------- stop loss

  datatype StopLoss = StopLoss(value: real, anchor: real, extremeWick: bool, buffer: real, risk: real)

  datatype NoSetup = DangerousTrap | RiskOutOfBounds | TpConstraintsNotMet

  datatype Verdict<+T> = Setup(value: T) | Refused(reason: NoSetup)

  function Ceil(x: real): int {
    -((-x).Floor)
  }

  function SafetyBuffer(spread: real, tick: real, symbolMin: real): real
    requires tick > 0.0
  {
    Max(Ceil(spread / tick * 0.05) as real * tick, symbolMin)
  }

  /** 3A: the sweep extreme; 3B: the middle of a wick longer than twice the ATR. */
  function StopAnchor(buy: bool, raid: Bar, extreme: real, atrM5: real): (real, bool) {
    var own := if buy then raid.l == extreme else raid.h == extreme;
    var wick := if buy then raid.Bot() - raid.l else raid.h - raid.Top();
    if own && atrM5 > 0.0 && wick > 2.0 * atrM5 then
      (if buy then (raid.l + raid.Bot()) / 2.0 else (raid.h + raid.Top()) / 2.0, true)
    else (extreme, false)
  }

  predicate Trapped(traps: seq<real>, sl: real, tol: real) {
    exists i :: 0 <= i < |traps| && Abs(traps[i] - sl) <= tol
  }

  function FiduciarySl(buy: bool, raid: Bar, extreme: real, entry: real, spread: real, tick: real, safetyMin: real,
                       atrM5: real, traps: seq<real>, trapTol: real, sessionAtr: real): Verdict<StopLoss>
    requires tick > 0.0
  {
    var (anchor, extremeWick) := StopAnchor(buy, raid, extreme, atrM5);
    var buffer := spread + SafetyBuffer(spread, tick, safetyMin);
    var sl := if buy then anchor - buffer else anchor + buffer;
    var risk := if buy then entry - sl else sl - entry;
    if Trapped(traps, sl, trapTol) then Refused(DangerousTrap)
    else if risk <= 0.0 || risk < 4.0 * spread || risk > 0.5 * sessionAtr then Refused(RiskOutOfBounds)
    else Setup(StopLoss(sl, anchor, extremeWick, buffer, risk))
  }

  lemma StopHasRisk(buy: bool, raid: Bar, extreme: real, entry: real, spread: real, tick: real, safetyMin: real,
                    atrM5: real, traps: seq<real>, trapTol: real, sessionAtr: real)
    requires tick > 0.0
    ensures var v := FiduciarySl(buy, raid, extreme, entry, spread, tick, safetyMin, atrM5, traps, trapTol, sessionAtr);
            v.Setup? ==> v.value.risk > 0.0
  {
  }

  /** The stop lies beyond the sweep's anchor by at least the spread, away from every live pool, at a bounded risk. */
  lemma StopIsSafe(buy: bool, raid: Bar, extreme: real, entry: real, spread: real, tick: real, safetyMin: real,
                   atrM5: real, traps: seq<real>, trapTol: real, sessionAtr: real)
    requires tick > 0.0 && spread >= 0.0 && safetyMin >= 0.0 && raid.WellFormed()
    requires if buy then extreme <= raid.l else extreme >= raid.h
    ensures var v := FiduciarySl(buy, raid, extreme, entry, spread, tick, safetyMin, atrM5, traps, trapTol, sessionAtr);
            v.Setup? ==>
              && var s := v.value;
              && (if buy then s.value <= s.anchor - spread && s.value < entry && s.anchor <= raid.Bot()
                  else s.value >= s.anchor + spread && s.value > entry && s.anchor >= raid.Top())
              && (if buy then s.anchor >= extreme else s.anchor <= extreme)
              && s.risk == Abs(entry - s.value)
              && 0.0 < s.risk && 4.0 * spread <= s.risk <= 0.5 * sessionAtr
              && forall i :: 0 <= i < |traps| ==> Abs(traps[i] - s.value) > trapTol
  {
    var v := FiduciarySl(buy, raid, extreme, entry, spread, tick, safetyMin, atrM5, traps, trapTol, sessionAtr);
    if v.Setup? {
      forall i | 0 <= i < |traps|
        ensures Abs(traps[i] - v.value.value) > trapTol
      {
        assert !Trapped(traps, v.value.value, trapTol);
      }
    }
  }

  function MirrorBar(b: Bar): Bar {
    Bar(b.t, -b.o, -b.l, -b.h, -b.c)
  }

  function MirrorLevels(xs: seq<real>): (r: seq<real>)
    ensures |r| == |xs| && forall i :: 0 <= i < |xs| ==> r[i] == -xs[i]
  {
    seq(|xs|, i requires 0 <= i < |xs| => -xs[i])
  }

  function MirrorStop(v: Verdict<StopLoss>): Verdict<StopLoss> {
    match v
    case Refused(_) => v
    case Setup(s) => Setup(StopLoss(-s.value, -s.anchor, s.extremeWick, s.buffer, s.risk))
  }

  /** A sell is an exact mirror image of a buy. */
  lemma StopMirrors(buy: bool, raid: Bar, extreme: real, entry: real, spread: real, tick: real, safetyMin: real,
                    atrM5: real, traps: seq<real>, trapTol: real, sessionAtr: real)
    requires tick > 0.0
    ensures FiduciarySl(!buy, MirrorBar(raid), -extreme, -entry, spread, tick, safetyMin, atrM5,
                        MirrorLevels(traps), trapTol, sessionAtr)
         == MirrorStop(FiduciarySl(buy, raid, extreme, entry, spread, tick, safetyMin, atrM5, traps, trapTol,
                                   sessionAtr))
  {
    var (anchor, _) := StopAnchor(buy, raid, extreme, atrM5);
    var buffer := spread + SafetyBuffer(spread, tick, safetyMin);
    var sl := if buy then anchor - buffer else anchor + buffer;
    TrapsMirror(traps, sl, trapTol);
  }

  lemma TrapsMirror(traps: seq<real>, sl: real, tol: real)
    ensures Trapped(MirrorLevels(traps), -sl, tol) == Trapped(traps, sl, tol)
  {
    var m := MirrorLevels(traps);
    if Trapped(traps, sl, tol) {
      var i :| 0 <= i < |traps| && Abs(traps[i] - sl) <= tol;
      assert Abs(m[i] - -sl) <= tol;
    }
    if Trapped(m, -sl, tol) {
      var i :| 0 <= i < |m| && Abs(m[i] - -sl) <= tol;
      assert Abs(traps[i] - sl) <= tol;
    }
  }

  // ---------------------------------------------------------------- the ladder

  datatype Ladder = Ladder(tp1: real, projected: bool, tp2: Option<real>, tp3: Option<real>, management: Option<real>) {
    function ServerTp(): real {
      if tp2.Some? then tp2.value else tp1
    }
  }

  function Dist(buy: bool, entry: real, level: real): real {
    if buy then level - entry else entry - level
  }

  function InsertByDist(buy: bool, entry: real, x: real, xs: seq<real>): seq<real> {
    if xs == [] || Dist(buy, entry, x) <= Dist(buy, entry, xs[0]) then [x] + xs
    else [xs[0]] + InsertByDist(buy, entry, x, xs[1..])
  }

  /** The objectives ahead of the entry, nearest first. */
  function Ahead(buy: bool, entry: real, objectives: seq<real>): seq<real> {
    if objectives == [] then []
    else
      var rest := Ahead(buy, entry, objectives[1..]);
      if Dist(buy, entry, objectives[0]) > 0.0 then InsertByDist(buy, entry, objectives[0], rest) else rest
  }

  function RMultiple(buy: bool, entry: real, risk: real, level: real): real
    requires risk > 0.0
  {
    Dist(buy, entry, level) / risk
  }

  /** The first of the levels at k R or more and at least `least` away. */
  function FirstAt(buy: bool, entry: real, risk: real, xs: seq<real>, k: real, least: real): Option<real>
    requires risk > 0.0
  {
    if xs == [] then None
    else if RMultiple(buy, entry, risk, xs[0]) >= k && Dist(buy, entry, xs[0]) >= least then Some(xs[0])
    else FirstAt(buy, entry, risk, xs[1..], k, least)
  }

  /** The levels farther than d. */
  function Beyond(buy: bool, entry: real, xs: seq<real>, d: real): seq<real> {
    if xs == [] then []
    else (if Dist(buy, entry, xs[0]) > d then [xs[0]] else []) + Beyond(buy, entry, xs[1..], d)
  }

  /** The k-th standard-deviation projection of the manipulation leg. */
  function Projection(buy: bool, raidExtreme: real, dispExtreme: real, k: real): real {
    var leg := Abs(dispExtreme - raidExtreme);
    if buy then dispExtreme + k * leg else dispExtreme - k * leg
  }

  predicate InReach(d: real, spread: real, sessionAtr: real) {
    10.0 * spread <= d <= 0.4 * sessionAtr
  }

  function Tp1Of(buy: bool, entry: real, risk: real, spread: real, sessionAtr: real, ahead: seq<real>,
                 raidExtreme: real, dispExtreme: real): Option<(real, bool)>
    requires risk > 0.0
  {
    var f := FirstAt(buy, entry, risk, ahead, 3.0, 0.0);
    var sd := Projection(buy, raidExtreme, dispExtreme, 2.0);
    if f.Some? && InReach(Dist(buy, entry, f.value), spread, sessionAtr) then Some((f.value, false))
    else if dispExtreme != raidExtreme && RMultiple(buy, entry, risk, sd) >= 3.0
            && InReach(Dist(buy, entry, sd), spread, sessionAtr) then Some((sd, true))
    else None
  }

  function Tp2Of(buy: bool, entry: real, risk: real, spread: real, ahead: seq<real>, raidExtreme: real,
                 dispExtreme: real, d1: real): Option<real>
    requires risk > 0.0
  {
    var next := FirstAt(buy, entry, risk, Beyond(buy, entry, ahead, d1), 3.5, 10.0 * spread);
    var sd := Projection(buy, raidExtreme, dispExtreme, 2.5);
    if next.Some? then next
    else if dispExtreme != raidExtreme && Dist(buy, entry, sd) > d1 && RMultiple(buy, entry, risk, sd) >= 3.5
    then Some(sd)
    else None
  }

  function Tp3Of(buy: bool, entry: real, risk: real, final: Option<real>, tp2: Option<real>): Option<real>
    requires risk > 0.0
  {
    if final.Some? && RMultiple(buy, entry, risk, final.value) >= 4.5
       && (tp2.None? || Dist(buy, entry, final.value) > Dist(buy, entry, tp2.value)) then final
    else None
  }

  function LadderOf(buy: bool, entry: real, risk: real, spread: real, sessionAtr: real, objectives: seq<real>,
                    raidExtreme: real, dispExtreme: real, final: Option<real>): Verdict<Ladder>
    requires risk > 0.0
  {
    var ahead := Ahead(buy, entry, objectives);
    var tp1 := Tp1Of(buy, entry, risk, spread, sessionAtr, ahead, raidExtreme, dispExtreme);
    if tp1.None? then Refused(TpConstraintsNotMet)
    else
      var tp2 := Tp2Of(buy, entry, risk, spread, ahead, raidExtreme, dispExtreme, Dist(buy, entry, tp1.value.0));
      Setup(Ladder(tp1.value.0, tp1.value.1, tp2, Tp3Of(buy, entry, risk, final, tp2),
                   if ahead != [] && RMultiple(buy, entry, risk, ahead[0]) < 3.0 then Some(ahead[0]) else None))
  }

  method BuildLadder(buy: bool, entry: real, risk: real, spread: real, sessionAtr: real, objectives: seq<real>,
                     raidExtreme: real, dispExtreme: real, final: Option<real>) returns (r: Verdict<Ladder>)
    requires risk > 0.0
    ensures r == LadderOf(buy, entry, risk, spread, sessionAtr, objectives, raidExtreme, dispExtreme, final)
  {
    hide RMultiple, Projection, Dist, InReach, Ahead, FirstAt, Tp2Of, Tp3Of;
    var ahead := Ahead(buy, entry, objectives);
    AheadIs(buy, entry, objectives);
    var tp1: Option<(real, bool)>, management: Option<real> := None, None;
    for n := 0 to |ahead|
      invariant tp1.None?
      invariant FirstAt(buy, entry, risk, ahead, 3.0, 0.0) == FirstAt(buy, entry, risk, ahead[n..], 3.0, 0.0)
      invariant n == 0 ==> management.None?
      invariant n > 0 ==> RMultiple(buy, entry, risk, ahead[0]) < 3.0 && management == Some(ahead[0])
    {
      var x := ahead[n];
      assert x in ahead;
      FirstStep(buy, entry, risk, ahead, n, 3.0, 0.0);
      if RMultiple(buy, entry, risk, x) >= 3.0 {
        if InReach(Dist(buy, entry, x), spread, sessionAtr) {
          tp1 := Some((x, false));
        }
        break;  // what lies beyond the first objective at 3R is no candidate
      }
      if management.None? {
        management := Some(x);  // kept for managing the trade
      }
    }
    NoFirst(buy, entry, risk, ahead, 3.0, 0.0);
    var sd := Projection(buy, raidExtreme, dispExtreme, 2.0);
    if tp1.None? && dispExtreme != raidExtreme && RMultiple(buy, entry, risk, sd) >= 3.0
       && InReach(Dist(buy, entry, sd), spread, sessionAtr) {
      tp1 := Some((sd, true));
    }
    if tp1.None? {
      return Refused(TpConstraintsNotMet);
    }
    var tp2 := Tp2Of(buy, entry, risk, spread, ahead, raidExtreme, dispExtreme, Dist(buy, entry, tp1.value.0));
    r := Setup(Ladder(tp1.value.0, tp1.value.1, tp2, Tp3Of(buy, entry, risk, final, tp2), management));
  }

  lemma FirstStep(buy: bool, entry: real, risk: real, xs: seq<real>, n: nat, k: real, least: real)
    requires risk > 0.0 && n < |xs|
    ensures FirstAt(buy, entry, risk, xs[n..], k, least)
         == if RMultiple(buy, entry, risk, xs[n]) >= k && Dist(buy, entry, xs[n]) >= least then Some(xs[n])
            else FirstAt(buy, entry, risk, xs[n + 1..], k, least)
  {
    hide RMultiple, Dist;
    assert xs[n..][1..] == xs[n + 1..];
  }

  lemma NoFirst(buy: bool, entry: real, risk: real, xs: seq<real>, k: real, least: real)
    requires risk > 0.0
    ensures FirstAt(buy, entry, risk, xs[|xs|..], k, least) == None
  {
  }

  // ---------------------------------------------------------------- what the ladder promises

  ghost predicate SortedByDist(buy: bool, entry: real, xs: seq<real>) {
    forall i, j :: 0 <= i < j < |xs| ==> Dist(buy, entry, xs[i]) <= Dist(buy, entry, xs[j])
  }

  lemma {:induction false} InsertHas(buy: bool, entry: real, x: real, xs: seq<real>)
    ensures forall y :: y in InsertByDist(buy, entry, x, xs) <==> y == x || y in xs
  {
    if xs != [] && Dist(buy, entry, x) > Dist(buy, entry, xs[0]) {
      InsertHas(buy, entry, x, xs[1..]);
      assert xs == [xs[0]] + xs[1..];
    }
  }

  lemma {:induction false} InsertSorts(buy: bool, entry: real, x: real, xs: seq<real>)
    requires SortedByDist(buy, entry, xs)
    ensures SortedByDist(buy, entry, InsertByDist(buy, entry, x, xs))
  {
    if xs != [] && Dist(buy, entry, x) > Dist(buy, entry, xs[0]) {
      var rest := InsertByDist(buy, entry, x, xs[1..]);
      InsertSorts(buy, entry, x, xs[1..]);
      InsertHas(buy, entry, x, xs[1..]);
      forall j | 0 <= j < |rest|
        ensures Dist(buy, entry, xs[0]) <= Dist(buy, entry, rest[j])
      {
        assert rest[j] in rest;
      }
    }
  }

  /** The objectives that lie ahead, sorted. */
  lemma {:induction false} AheadIs(buy: bool, entry: real, objectives: seq<real>)
    ensures SortedByDist(buy, entry, Ahead(buy, entry, objectives))
    ensures forall x :: x in Ahead(buy, entry, objectives) <==> x in objectives && Dist(buy, entry, x) > 0.0
  {
    if objectives != [] {
      AheadIs(buy, entry, objectives[1..]);
      InsertSorts(buy, entry, objectives[0], Ahead(buy, entry, objectives[1..]));
      InsertHas(buy, entry, objectives[0], Ahead(buy, entry, objectives[1..]));
      assert objectives == [objectives[0]] + objectives[1..];
    }
  }

  /** x is the nearest objective farther than `past` and at least `least` away. */
  ghost predicate NearestAt(buy: bool, entry: real, objectives: seq<real>, least: real, past: real, x: real) {
    && x in objectives && Dist(buy, entry, x) >= least && Dist(buy, entry, x) > past
    && (forall y :: y in objectives && Dist(buy, entry, y) >= least && Dist(buy, entry, y) > past ==>
          Dist(buy, entry, x) <= Dist(buy, entry, y))
  }

  ghost predicate NoneAt(buy: bool, entry: real, objectives: seq<real>, least: real, past: real) {
    forall y :: y in objectives && Dist(buy, entry, y) > past ==> Dist(buy, entry, y) < least
  }

  lemma RAtLeast(buy: bool, entry: real, risk: real, x: real, k: real)
    requires risk > 0.0
    ensures RMultiple(buy, entry, risk, x) >= k <==> Dist(buy, entry, x) >= k * risk
  {
    var d := Dist(buy, entry, x);
    assert d == d / risk * risk;
  }

  /** The first of a sorted list is the nearest that qualifies. */
  lemma {:induction false} FirstIsNearest(buy: bool, entry: real, risk: real, xs: seq<real>, k: real, least: real,
                                          past: real)
    requires risk > 0.0 && SortedByDist(buy, entry, xs)
    requires forall x :: x in xs ==> Dist(buy, entry, x) > past
    ensures var f := FirstAt(buy, entry, risk, xs, k, least);
            if f.Some? then NearestAt(buy, entry, xs, Max(k * risk, least), past, f.value)
            else NoneAt(buy, entry, xs, Max(k * risk, least), past)
  {
    if xs != [] {
      RAtLeast(buy, entry, risk, xs[0], k);
      assert xs == [xs[0]] + xs[1..];
      if Dist(buy, entry, xs[0]) < Max(k * risk, least) {
        FirstIsNearest(buy, entry, risk, xs[1..], k, least, past);
      } else {
        forall y | y in xs
          ensures Dist(buy, entry, xs[0]) <= Dist(buy, entry, y)
        {
          var j :| 0 <= j < |xs| && xs[j] == y;
        }
      }
    }
  }

  lemma NearestIsFar(buy: bool, entry: real, xs: seq<real>, least: real, past: real, x: real)
    requires NearestAt(buy, entry, xs, least, past, x)
    ensures Dist(buy, entry, x) >= least && Dist(buy, entry, x) > past
  {
  }

  /** Nearest among the levels listed is nearest among the objectives they were picked from. */
  lemma PickedFrom(buy: bool, entry: real, xs: seq<real>, objectives: seq<real>, least: real, past: real,
                   f: Option<real>)
    requires forall x :: x in xs <==> x in objectives && Dist(buy, entry, x) > past
    ensures f.Some? ==> NearestAt(buy, entry, xs, least, past, f.value) ==>
              NearestAt(buy, entry, objectives, least, past, f.value)
    ensures NoneAt(buy, entry, xs, least, past) ==> NoneAt(buy, entry, objectives, least, past)
  {
  }

  lemma HeadIsNearest(buy: bool, entry: real, xs: seq<real>, x: real)
    requires xs != [] && SortedByDist(buy, entry, xs) && x in xs
    ensures Dist(buy, entry, xs[0]) <= Dist(buy, entry, x)
  {
    hide Dist;
  }

  lemma NearestFirst(buy: bool, entry: real, x: real, xs: seq<real>)
    requires SortedByDist(buy, entry, xs) && forall y :: y in xs ==> Dist(buy, entry, x) <= Dist(buy, entry, y)
    ensures SortedByDist(buy, entry, [x] + xs)
  {
    hide Dist;
  }

  lemma {:induction false} BeyondIs(buy: bool, entry: real, xs: seq<real>, d: real)
    requires SortedByDist(buy, entry, xs)
    ensures SortedByDist(buy, entry, Beyond(buy, entry, xs, d))
    ensures forall x :: x in Beyond(buy, entry, xs, d) <==> x in xs && Dist(buy, entry, x) > d
  {
    hide Dist, SortedByDist;
    if xs == [] {
      NoneSorted(buy, entry);
    } else {
      var rest := Beyond(buy, entry, xs[1..], d);
      RestSorted(buy, entry, xs);
      BeyondIs(buy, entry, xs[1..], d);
      assert xs == [xs[0]] + xs[1..];
      forall y | y in rest
        ensures Dist(buy, entry, xs[0]) <= Dist(buy, entry, y)
      {
        HeadIsNearest(buy, entry, xs, y);
      }
      NearestFirst(buy, entry, xs[0], rest);
      assert [] + rest == rest;
    }
  }

  lemma NoneSorted(buy: bool, entry: real)
    ensures SortedByDist(buy, entry, [])
  {
  }

  lemma RestSorted(buy: bool, entry: real, xs: seq<real>)
    requires xs != [] && SortedByDist(buy, entry, xs)
    ensures SortedByDist(buy, entry, xs[1..])
  {
    hide Dist;
  }

  /** TP1 at 3R or more and in reach: the nearest objective at 3R or more, else the projection. */
  lemma Tp1Means(buy: bool, entry: real, risk: real, spread: real, sessionAtr: real, objectives: seq<real>,
                 raidExtreme: real, dispExtreme: real)
    requires risk > 0.0
    ensures var tp1 := Tp1Of(buy, entry, risk, spread, sessionAtr, Ahead(buy, entry, objectives), raidExtreme,
                             dispExtreme);
            tp1.Some? ==>
              && var d := Dist(buy, entry, tp1.value.0);
              && 3.0 * risk <= d && InReach(d, spread, sessionAtr)
              && (!tp1.value.1 ==> NearestAt(buy, entry, objectives, Max(3.0 * risk, 0.0), 0.0, tp1.value.0))
              && (tp1.value.1 ==> tp1.value.0 == Projection(buy, raidExtreme, dispExtreme, 2.0))
  {
    hide RMultiple, Projection, FirstAt, Ahead, NearestAt, NoneAt, InReach, Dist;
    var ahead := Ahead(buy, entry, objectives);
    AheadIs(buy, entry, objectives);
    FirstIsNearest(buy, entry, risk, ahead, 3.0, 0.0, 0.0);
    var f := FirstAt(buy, entry, risk, ahead, 3.0, 0.0);
    PickedFrom(buy, entry, ahead, objectives, Max(3.0 * risk, 0.0), 0.0, f);
    if f.Some? {
      NearestIsFar(buy, entry, ahead, Max(3.0 * risk, 0.0), 0.0, f.value);
    }
    RAtLeast(buy, entry, risk, Projection(buy, raidExtreme, dispExtreme, 2.0), 3.0);
  }

  /** TP2 strictly beyond TP1 at 3.5R or more: the nearest such objective, the projection only when there is none. */
  lemma Tp2Means(buy: bool, entry: real, risk: real, spread: real, objectives: seq<real>, raidExtreme: real,
                 dispExtreme: real, d1: real)
    requires risk > 0.0 && d1 >= 0.0
    ensures var tp2 := Tp2Of(buy, entry, risk, spread, Ahead(buy, entry, objectives), raidExtreme, dispExtreme, d1);
            tp2.Some? ==>
              && var d := Dist(buy, entry, tp2.value);
              && d > d1 && d >= 3.5 * risk
              && (NearestAt(buy, entry, objectives, Max(3.5 * risk, 10.0 * spread), d1, tp2.value)
                  || (NoneAt(buy, entry, objectives, Max(3.5 * risk, 10.0 * spread), d1)
                      && tp2.value == Projection(buy, raidExtreme, dispExtreme, 2.5)))
  {
    hide RMultiple, Projection, FirstAt, Beyond, Ahead, NearestAt, NoneAt;
    var ahead := Ahead(buy, entry, objectives);
    AheadIs(buy, entry, objectives);
    BeyondIs(buy, entry, ahead, d1);
    var beyond := Beyond(buy, entry, ahead, d1);
    FirstIsNearest(buy, entry, risk, beyond, 3.5, 10.0 * spread, d1);
    var next := FirstAt(buy, entry, risk, beyond, 3.5, 10.0 * spread);
    PickedFrom(buy, entry, beyond, objectives, Max(3.5 * risk, 10.0 * spread), d1, next);
    if next.Some? {
      NearestIsFar(buy, entry, beyond, Max(3.5 * risk, 10.0 * spread), d1, next.value);
    }
    RAtLeast(buy, entry, risk, Projection(buy, raidExtreme, dispExtreme, 2.5), 3.5);
  }

  ghost predicate LadderHolds(buy: bool, entry: real, risk: real, spread: real, sessionAtr: real, l: Ladder) {
    var d1 := Dist(buy, entry, l.tp1);
    && 3.0 * risk <= d1 && InReach(d1, spread, sessionAtr)
    && (l.tp2.Some? ==> Dist(buy, entry, l.tp2.value) > d1 && Dist(buy, entry, l.tp2.value) >= 3.5 * risk)
    && (l.tp3.Some? ==> Dist(buy, entry, l.tp3.value) >= 4.5 * risk
                        && (l.tp2.Some? ==> Dist(buy, entry, l.tp3.value) > Dist(buy, entry, l.tp2.value)))
    && (l.management.Some? ==> 0.0 < Dist(buy, entry, l.management.value) < d1)
    && d1 <= Dist(buy, entry, l.ServerTp())
  }

  lemma LadderMeans(buy: bool, entry: real, risk: real, spread: real, sessionAtr: real, objectives: seq<real>,
                    raidExtreme: real, dispExtreme: real, final: Option<real>)
    requires risk > 0.0
    ensures var v := LadderOf(buy, entry, risk, spread, sessionAtr, objectives, raidExtreme, dispExtreme, final);
            v.Setup? ==> LadderHolds(buy, entry, risk, spread, sessionAtr, v.value)
  {
    hide RMultiple, Projection, FirstAt, Beyond, Ahead, Tp1Of, Tp2Of, NearestAt, NoneAt;
    var ahead := Ahead(buy, entry, objectives);
    var v := LadderOf(buy, entry, risk, spread, sessionAtr, objectives, raidExtreme, dispExtreme, final);
    AheadIs(buy, entry, objectives);
    Tp1Means(buy, entry, risk, spread, sessionAtr, objectives, raidExtreme, dispExtreme);
    if v.Setup? {
      Tp2Means(buy, entry, risk, spread, objectives, raidExtreme, dispExtreme, Dist(buy, entry, v.value.tp1));
      if final.Some? {
        RAtLeast(buy, entry, risk, final.value, 4.5);
      }
      if ahead != [] {
        RAtLeast(buy, entry, risk, ahead[0], 3.0);
        assert ahead[0] in ahead;
      }
    }
  }

  /** Stop and ladder together. */
  lemma TradeGeometry(buy: bool, raid: Bar, extreme: real, entry: real, spread: real, tick: real, safetyMin: real,
                      atrM5: real, traps: seq<real>, trapTol: real, sessionAtr: real, objectives: seq<real>,
                      dispExtreme: real, final: Option<real>, sl: StopLoss, l: Ladder)
    requires tick > 0.0
    requires FiduciarySl(buy, raid, extreme, entry, spread, tick, safetyMin, atrM5, traps, trapTol, sessionAtr)
              == Setup(sl)
    requires sl.risk > 0.0
    requires LadderOf(buy, entry, sl.risk, spread, sessionAtr, objectives, extreme, dispExtreme, final) == Setup(l)
    ensures if buy then sl.value < entry < l.tp1 <= l.ServerTp() else sl.value > entry > l.tp1 >= l.ServerTp()
    ensures 4.0 * spread <= sl.risk && 7.5 * sl.risk <= sessionAtr
    ensures LadderHolds(buy, entry, sl.risk, spread, sessionAtr, l)
  {
    LadderMeans(buy, entry, sl.risk, spread, sessionAtr, objectives, extreme, dispExtreme, final);
  }

  // ---------------------------------------------------------------- buy and sell mirror each other

  function MirrorOption(x: Option<real>): Option<real> {
    if x.Some? then Some(-x.value) else None
  }

  function MirrorLadder(v: Verdict<Ladder>): Verdict<Ladder> {
    match v
    case Refused(_) => v
    case Setup(l) =>
      Setup(Ladder(-l.tp1, l.projected, MirrorOption(l.tp2), MirrorOption(l.tp3), MirrorOption(l.management)))
  }

  lemma DistMirrors(buy: bool, entry: real, x: real)
    ensures Dist(!buy, -entry, -x) == Dist(buy, entry, x)
  {
  }

  lemma LevelsMirror(x: real, xs: seq<real>)
    ensures MirrorLevels([x] + xs) == [-x] + MirrorLevels(xs)
  {
    assert ([x] + xs)[1..] == xs;
  }

  lemma InsertHead(buy: bool, entry: real, x: real, y: real, rest: seq<real>)
    ensures InsertByDist(buy, entry, x, [y] + rest)
         == if Dist(buy, entry, x) <= Dist(buy, entry, y) then [x] + ([y] + rest)
            else [y] + InsertByDist(buy, entry, x, rest)
  {
    assert ([y] + rest)[1..] == rest;
  }

  lemma InsertAlone(buy: bool, entry: real, x: real)
    ensures InsertByDist(buy, entry, x, []) == [x]
  {
  }

  lemma {:induction false} InsertMirrors(buy: bool, entry: real, x: real, xs: seq<real>)
    ensures InsertByDist(!buy, -entry, -x, MirrorLevels(xs)) == MirrorLevels(InsertByDist(buy, entry, x, xs))
  {
    hide Dist, MirrorLevels, InsertByDist;
    DistMirrors(buy, entry, x);
    LevelsMirror(x, xs);
    if xs == [] {
      NoLevels();
      InsertAlone(buy, entry, x);
      InsertAlone(!buy, -entry, -x);
      assert [x] + [] == [x] && [-x] + [] == [-x];
    } else {
      var y, rest := xs[0], xs[1..];
      assert xs == [y] + rest;
      DistMirrors(buy, entry, y);
      LevelsMirror(y, rest);
      InsertMirrors(buy, entry, x, rest);
      LevelsMirror(y, InsertByDist(buy, entry, x, rest));
      InsertHead(buy, entry, x, y, rest);
      InsertHead(!buy, -entry, -x, -y, MirrorLevels(rest));
    }
  }

  lemma NoLevels()
    ensures MirrorLevels([]) == []
  {
  }

  lemma {:induction false} AheadMirrors(buy: bool, entry: real, objectives: seq<real>)
    ensures Ahead(!buy, -entry, MirrorLevels(objectives)) == MirrorLevels(Ahead(buy, entry, objectives))
  {
    if objectives != [] {
      AheadMirrors(buy, entry, objectives[1..]);
      assert MirrorLevels(objectives)[1..] == MirrorLevels(objectives[1..]);
      InsertMirrors(buy, entry, objectives[0], Ahead(buy, entry, objectives[1..]));
    }
  }

  lemma {:induction false} FirstMirrors(buy: bool, entry: real, risk: real, xs: seq<real>, k: real, least: real)
    requires risk > 0.0
    ensures FirstAt(!buy, -entry, risk, MirrorLevels(xs), k, least)
              == MirrorOption(FirstAt(buy, entry, risk, xs, k, least))
  {
    if xs != [] {
      assert MirrorLevels(xs)[1..] == MirrorLevels(xs[1..]);
      FirstMirrors(buy, entry, risk, xs[1..], k, least);
    }
  }

  lemma {:induction false} BeyondMirrors(buy: bool, entry: real, xs: seq<real>, d: real)
    ensures Beyond(!buy, -entry, MirrorLevels(xs), d) == MirrorLevels(Beyond(buy, entry, xs, d))
  {
    if xs != [] {
      assert MirrorLevels(xs)[1..] == MirrorLevels(xs[1..]);
      BeyondMirrors(buy, entry, xs[1..], d);
    }
  }

  lemma RMirrors(buy: bool, entry: real, risk: real, x: real)
    requires risk > 0.0
    ensures RMultiple(!buy, -entry, risk, -x) == RMultiple(buy, entry, risk, x)
  {
  }

  lemma Tp1Mirrors(buy: bool, entry: real, risk: real, spread: real, sessionAtr: real, ahead: seq<real>,
                   raidExtreme: real, dispExtreme: real)
    requires risk > 0.0
    ensures var tp1 := Tp1Of(buy, entry, risk, spread, sessionAtr, ahead, raidExtreme, dispExtreme);
            Tp1Of(!buy, -entry, risk, spread, sessionAtr, MirrorLevels(ahead), -raidExtreme, -dispExtreme)
              == if tp1.Some? then Some((-tp1.value.0, tp1.value.1)) else None
  {
    hide RMultiple, FirstAt;
    FirstMirrors(buy, entry, risk, ahead, 3.0, 0.0);
    RMirrors(buy, entry, risk, Projection(buy, raidExtreme, dispExtreme, 2.0));
  }

  lemma Tp2Mirrors(buy: bool, entry: real, risk: real, spread: real, ahead: seq<real>, raidExtreme: real,
                   dispExtreme: real, d1: real)
    requires risk > 0.0
    ensures Tp2Of(!buy, -entry, risk, spread, MirrorLevels(ahead), -raidExtreme, -dispExtreme, d1)
         == MirrorOption(Tp2Of(buy, entry, risk, spread, ahead, raidExtreme, dispExtreme, d1))
  {
    hide RMultiple, FirstAt, Beyond;
    BeyondMirrors(buy, entry, ahead, d1);
    FirstMirrors(buy, entry, risk, Beyond(buy, entry, ahead, d1), 3.5, 10.0 * spread);
    RMirrors(buy, entry, risk, Projection(buy, raidExtreme, dispExtreme, 2.5));
  }

  /** A sell is an exact mirror image of a buy. */
  lemma LadderMirrors(buy: bool, entry: real, risk: real, spread: real, sessionAtr: real, objectives: seq<real>,
                      raidExtreme: real, dispExtreme: real, final: Option<real>)
    requires risk > 0.0
    ensures LadderOf(!buy, -entry, risk, spread, sessionAtr, MirrorLevels(objectives), -raidExtreme, -dispExtreme,
                     MirrorOption(final))
         == MirrorLadder(LadderOf(buy, entry, risk, spread, sessionAtr, objectives, raidExtreme, dispExtreme, final))
  {
    hide RMultiple, Ahead, Tp1Of, Tp2Of;
    var ahead := Ahead(buy, entry, objectives);
    AheadMirrors(buy, entry, objectives);
    Tp1Mirrors(buy, entry, risk, spread, sessionAtr, ahead, raidExtreme, dispExtreme);
    var tp1 := Tp1Of(buy, entry, risk, spread, sessionAtr, ahead, raidExtreme, dispExtreme);
    if tp1.Some? {
      Tp2Mirrors(buy, entry, risk, spread, ahead, raidExtreme, dispExtreme, Dist(buy, entry, tp1.value.0));
    }
    if final.Some? {
      RMirrors(buy, entry, risk, final.value);
    }
    if ahead != [] {
      RMirrors(buy, entry, risk, ahead[0]);
    }
  }
}
