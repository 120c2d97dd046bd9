/** The scale of relative points: what one fill shows of it, and what the manager knows after any number of fills. */
module Scales {
  import opened Trades
  import opened Ledger
  import Decode
  import Primitives

  /** How far from its entry the plan puts the stop. */
  function Intended(t: Row): real
    requires t.entryPlanned.Some? && t.sl.Some?
  {
    Primitives.Abs(t.entryPlanned.value - t.sl.value)
  }

  function Actual(p: Position): real
    requires p.entry.Some? && p.sl.Some?
  {
    Primitives.Abs(p.entry.value - p.sl.value)
  }

  /** Both distances can be compared. */
  predicate Readable(t: Row, p: Position) {
    && t.pointsDigits.Some? && t.entryPlanned.Some? && t.entryPlanned != Some(0.0) && t.sl.Some?
    && p.entry.Some? && p.sl.Some? && t.entryPlanned != t.sl && p.entry != p.sl
  }

  /** The stop of the fill is where another power of ten would have put it. */
  predicate Shows(t: Row, p: Position, k: int) {
    Readable(t, p) && k != 0 && Decode.ScaleOff(Actual(p), Intended(t), k)
  }

  /** The scale is learned exactly when the fill shows another one, and then it is that one. */
  ghost predicate Learns(before: map<string, int>, t: Row, p: Position, after: map<string, int>) {
    && (forall k :: -308 <= k <= 308 && Shows(t, p, k) ==> after == before[t.symbol := t.pointsDigits.value - k])
    && ((forall k :: -308 <= k <= 308 ==> !Shows(t, p, k)) ==> after == before)
  }

  /** The broker read the order's points at s digits, and rounding to points moved the stop by at most 25 %. */
  predicate FilledAt(t: Row, p: Position, s: int) {
    && Readable(t, p) && -308 <= t.pointsDigits.value - s <= 308
    && Decode.PointsClose(Intended(t), t.pointsDigits.value)
    && Decode.Applied(Intended(t), t.pointsDigits.value, s) == Some(Actual(p))
  }

  /** A scale proven by a fill wins over the venue's own. */
  function PointsOf(learned: map<string, int>, digits: string -> int, symbol: string): int {
    if symbol in learned then learned[symbol] else digits(symbol)
  }

  /** One fill teaches the broker's scale, whatever the order was placed at; placed at it, the fill teaches nothing. */
  lemma FillTeaches(before: map<string, int>, t: Row, p: Position, after: map<string, int>, s: int)
    requires Learns(before, t, p, after) && FilledAt(t, p, s)
    ensures after == if t.pointsDigits == Some(s) then before else before[t.symbol := s]
  {
    var used, intended := t.pointsDigits.value, Intended(t);
    Decode.LearnedInOneFill(intended, used, s);
    assert Decode.ScaleOff(Actual(p), intended, used - s);
    if used == s {
      forall k | Shows(t, p, k)
        ensures false
      {
        Decode.OneScaleOff(Actual(p), intended, k, 0);
      }
    } else {
      assert Shows(t, p, used - s);
    }
  }

  /** At most one reading of the trade, of the position it holds, and what that reading teaches. */
  ghost predicate Lesson(before: map<string, int>, read: seq<Reading>, after: map<string, int>, readings: seq<Reading>,
                         r: Row) {
    || (readings == read && after == before)
    || (|readings| == |read| + 1 && readings[..|read|] == read
        && var f := readings[|read|];
           SameTrade(f.t, r) && r.pid == Some(f.p.pid) && Learns(before, f.t, f.p, after))
  }

  lemma NoLesson(before: map<string, int>, read: seq<Reading>, r: Row)
    ensures Lesson(before, read, before, read, r)
  {
  }

  lemma OneLesson(before: map<string, int>, read: seq<Reading>, t: Row, p: Position, after: map<string, int>,
                  readings: seq<Reading>, r: Row)
    requires readings == read + [Reading(t, p)] && SameTrade(t, r) && r.pid == Some(p.pid)
              && Learns(before, t, p, after)
    ensures Lesson(before, read, after, readings, r)
  {
  }

  /** An order placed at the scale in use: after a fill at s digits the scale in use is s, and it was not touched if it
      was s already. */
  ghost predicate Teaches(before: map<string, int>, read: seq<Reading>, after: map<string, int>,
                          readings: seq<Reading>, digits: string -> int, symbol: string) {
    forall s :: |readings| > |read| && FilledAt(readings[|read|].t, readings[|read|].p, s) ==>
      PointsOf(after, digits, symbol) == s && (PointsOf(before, digits, symbol) == s ==> after == before)
  }

  lemma OrderTeaches(before: map<string, int>, read: seq<Reading>, after: map<string, int>, readings: seq<Reading>,
                     r: Row, digits: string -> int)
    requires Lesson(before, read, after, readings, r)
    requires r.pointsDigits == Some(PointsOf(before, digits, r.symbol))
    ensures Teaches(before, read, after, readings, digits, r.symbol)
  {
    hide FilledAt, Learns;
    forall s | |readings| > |read| && FilledAt(readings[|read|].t, readings[|read|].p, s)
      ensures PointsOf(after, digits, r.symbol) == s
      ensures PointsOf(before, digits, r.symbol) == s ==> after == before
    {
      FillTeaches(before, readings[|read|].t, readings[|read|].p, after, s);
    }
  }

  // ---------------------------------------------------------------- over a run

  /** The broker reads every symbol's points at one scale, wherever a fill shows how it reads them. */
  ghost predicate Consistent(readings: seq<Reading>, scale: string -> int) {
    forall n :: 0 <= n < |readings| ==>
      var f := readings[n];
      FilledAt(f.t, f.p, scale(f.t.symbol)) || (forall k :: -308 <= k <= 308 ==> !Shows(f.t, f.p, k))
  }

  /** The scales in use: no row was placed at one that is neither the venue's own nor the one to be learned. */
  ghost predicate Placed(rows: seq<Row>, learned: map<string, int>, digits: string -> int) {
    forall i :: 0 <= i < |rows| && rows[i].pointsDigits.Some? ==>
      rows[i].pointsDigits.value == digits(rows[i].symbol) || rows[i].symbol in learned
  }

  ghost predicate Knows(readings: seq<Reading>, learned: map<string, int>, digits: string -> int,
                        scale: string -> int) {
    && (forall x :: x in learned ==> learned[x] == scale(x))
    && (forall n :: 0 <= n < |readings| && FilledAt(readings[n].t, readings[n].p, scale(readings[n].t.symbol)) ==>
          PointsOf(learned, digits, readings[n].t.symbol) == scale(readings[n].t.symbol))
  }

  /** With such a broker every scale learned is the broker's, and one readable fill is enough for good. */
  ghost predicate Taught(rows: seq<Row>, readings: seq<Reading>, learned: map<string, int>, digits: string -> int,
                         scale: string -> int) {
    Placed(rows, learned, digits) && (Consistent(readings, scale) ==> Knows(readings, learned, digits, scale))
  }

  lemma NothingTaught(digits: string -> int, scale: string -> int)
    ensures Taught([], [], map[], digits, scale)
  {
  }

  lemma TaughtMeans(rows: seq<Row>, readings: seq<Reading>, learned: map<string, int>, digits: string -> int,
                    scale: string -> int)
    requires Taught(rows, readings, learned, digits, scale)
    ensures Consistent(readings, scale) ==> Knows(readings, learned, digits, scale)
  {
  }

  /** A row keeps the symbol and the scale it was placed at. */
  lemma RowKeepsTaught(rows: seq<Row>, i: nat, b: Row, readings: seq<Reading>, learned: map<string, int>,
                       digits: string -> int, scale: string -> int)
    requires Taught(rows, readings, learned, digits, scale) && i < |rows| && SameTrade(rows[i], b)
    ensures Taught(rows[i := b], readings, learned, digits, scale)
  {
  }

  lemma InsertKeepsTaught(rows: seq<Row>, r: Row, readings: seq<Reading>, learned: map<string, int>,
                          digits: string -> int, scale: string -> int)
    requires Taught(rows, readings, learned, digits, scale)
    requires r.pointsDigits.None? || r.pointsDigits == Some(PointsOf(learned, digits, r.symbol))
    ensures Taught(rows + [r], readings, learned, digits, scale)
  {
  }

  /** The first read of row i's position is compared with its plan. */
  lemma ReadingKeepsTaught(rows: seq<Row>, i: nat, p: Position, readings: seq<Reading>, learned: map<string, int>,
                           after: map<string, int>, digits: string -> int, scale: string -> int)
    requires Taught(rows, readings, learned, digits, scale) && i < |rows| && Learns(learned, rows[i], p, after)
    ensures Taught(rows, readings + [Reading(rows[i], p)], after, digits, scale)
  {
    hide FilledAt, Shows;
    var t, all := rows[i], readings + [Reading(rows[i], p)];
    LearnedIsKept(learned, t, p, after);
    if Consistent(all, scale) {
      assert Consistent(readings, scale) by {
        assert forall n :: 0 <= n < |readings| ==> all[n] == readings[n];
      }
      assert all[|readings|] == Reading(t, p);
      if FilledAt(t, p, scale(t.symbol)) {
        FillTeaches(learned, t, p, after, scale(t.symbol));
      }
    }
  }

  lemma LearnedIsKept(before: map<string, int>, t: Row, p: Position, after: map<string, int>)
    requires Learns(before, t, p, after)
    ensures forall x :: x in before ==> x in after
  {
  }
}
