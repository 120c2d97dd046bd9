/** How trades end on the paper venue. */
module PaperTrades {
  import opened Trades
  import opened Ledger
  import opened Venues
  import opened Guards
  import opened Broker
  import opened Primitives
  import opened Paper

  function Sgn(side: Side): real {
    if side == Buy then 1.0 else -1.0
  }

  /** Stop behind the fill, first target ahead of it, server target no nearer; the risk is the stop's distance. */
  ghost predicate Geometry(t: Row) {
    && t.sl.Some? && t.entry.Some? && t.tp1.Some? && t.tpServer.Some? && t.risk.Some?
    && Sgn(t.side) * t.sl.value < Sgn(t.side) * t.entry.value < Sgn(t.side) * t.tp1.value
    && Sgn(t.side) * t.tp1.value <= Sgn(t.side) * t.tpServer.value
    && t.risk.value == Sgn(t.side) * (t.entry.value - t.sl.value)
  }

  predicate Carries(p: Position, t: Row) {
    p.symbol == t.symbol && p.side == t.side && p.entry == t.entry && p.tp == t.tpServer && p.volume > 0
  }

  /** After protect: the plan's legs, nothing dealt. */
  ghost predicate Running(v: PaperVenue, pid: Pid, t: Row)
    reads v
  {
    pid in v.pos && Carries(v.pos[pid], t) && v.pos[pid].sl == t.sl && DealsOf(v.log, pid) == []
  }

  ghost predicate AheadOfEntry(deals: seq<Deal>, side: Side, entry: real) {
    forall k :: 0 <= k < |deals| ==> deals[k].price.Some? && Sgn(side) * (deals[k].price.value - entry) >= 0.0
  }

  /** After TP1: the stop is at the entry, and whatever was closed was closed ahead of it. */
  ghost predicate Secured(v: PaperVenue, pid: Pid, t: Row)
    requires Geometry(t)
    reads v
  {
    && pid in v.pos && Carries(v.pos[pid], t) && v.pos[pid].sl == t.entry
    && AheadOfEntry(DealsOf(v.log, pid), t.side, t.entry.value)
  }

  lemma GainAhead(d: Deal, side: Side, entry: real)
    requires d.price.Some? && Sgn(side) * (d.price.value - entry) >= 0.0
    ensures Gain(d, Sgn(side), entry) >= 0.0
  {
    var x := d.price.value - entry;
    if side == Buy {
      assert d.volume as real * x >= 0.0;
    } else {
      assert d.volume as real * -x >= 0.0;
    }
  }

  lemma {:induction false} MovedAhead(deals: seq<Deal>, side: Side, entry: real)
    requires AheadOfEntry(deals, side, entry)
    ensures Moved(deals, Sgn(side), entry).Some? && Moved(deals, Sgn(side), entry).value >= 0.0
  {
    hide Gain;
    if deals != [] {
      var d := deals[|deals| - 1];
      MovedAhead(deals[..|deals| - 1], side, entry);
      GainAhead(d, side, entry);
    }
  }

  /** Deals ahead of the entry settle at 0R or better. */
  lemma AheadSettles(deals: seq<Deal>, side: Side, entry: real, risk: real)
    requires AheadOfEntry(deals, side, entry) && risk > 0.0
    ensures ResultR(side, entry, risk, deals).Some? && ResultR(side, entry, risk, deals).value >= 0.0
  {
    MovedAhead(deals, side, entry);
    var total := if Volume(deals) == 0 then 1 else Volume(deals);
    QuotientSign(Moved(deals, Sgn(side), entry).value, total as real, risk);
  }

  lemma QuotientSign(x: real, n: real, risk: real)
    requires x >= 0.0 && n > 0.0 && risk > 0.0
    ensures x / n / risk >= 0.0
  {
    assert x / n >= 0.0;
  }

  /** One deal for the whole volume settles at the price's distance in R. */
  lemma OneDealSettles(d: Deal, side: Side, entry: real, risk: real)
    requires d.price.Some? && d.volume > 0 && risk > 0.0
    ensures ResultR(side, entry, risk, [d]) == Some(Sgn(side) * (d.price.value - entry) / risk)
  {
    var x, n := Sgn(side) * (d.price.value - entry), d.volume as real;
    MovedAppend([], d, Sgn(side), entry);
    VolumeAppend([], d);
    assert [] + [d] == [d];
    assert Gain(d, Sgn(side), entry) == n * x;
    Cancel(n, x);
  }

  lemma MovedAppend(deals: seq<Deal>, d: Deal, sgn: real, entry: real)
    requires Moved(deals, sgn, entry).Some? && d.price.Some?
    ensures Moved(deals + [d], sgn, entry)
         == Some(Moved(deals, sgn, entry).value + Gain(d, sgn, entry))
  {
    assert (deals + [d])[..|deals|] == deals;
  }

  lemma Cancel(n: real, x: real)
    requires n > 0.0
    ensures n * x / n == x
  {
  }

  datatype Tick =
    | Minute(bar: Bar)                   // a closed M1 bar of the symbol
    | Managed(quote: Quote, now: Moment) // a manager pass

  /** The trade's row as the manager keeps it: as it was opened, or with the first target booked. */
  predicate Kept(row: Row, t: Row) {
    row == t || row == TradeManager.Booked(t, row.lastAmendAt)
  }

  /** The position on the venue and the row agree on how far the trade has come. */
  ghost predicate Stands(v: PaperVenue, pid: Pid, row: Row, t: Row)
    requires Geometry(t)
    reads v
  {
    pid in v.pos && if row.partialDone then Secured(v, pid, t) else Running(v, pid, t)
  }

  predicate Fresh(t: Row, pid: Pid) {
    t.pid == Some(pid) && !t.manual && !t.partialDone && !t.beDone
  }

  /** The legs are where the manager left them, so a pass never takes the trade for the owner's. */
  lemma NotMoved(tm: TradeManager, v: PaperVenue, pid: Pid, row: Row, t: Row, now: Moment)
    requires Geometry(t) && Fresh(t, pid) && Kept(row, t) && tm.s.tick(t.symbol) >= 0.0
    requires Stands(v, pid, row, t)
    ensures !tm.OwnerMoved(row, v.pos[pid], now)
  {
    assert Abs(t.tpServer.value - t.tpServer.value) == 0.0 && Abs(t.sl.value - t.sl.value) == 0.0;
    assert Abs(t.entry.value - t.entry.value) == 0.0;
  }

  /** The paper venue carries out one command of the manager, at the quote of the pass. */
  method CarryOut(v: PaperVenue, e: Event, q: Quote)
    requires v.Valid() && e.Sent? && e.pid in v.pos && v.pos[e.pid].entry.Some?
    modifies v
    ensures v.Valid()
    ensures e.cmd.Amend? ==> v.log == old(v.log)
                             && v.pos == old(v.pos)[e.pid := old(v.pos)[e.pid].(sl := Some(e.cmd.sl),
                                                                                tp := Some(e.cmd.tp))]
    ensures e.cmd.Close? && e.cmd.volume < old(v.pos)[e.pid].volume ==>
              var p := old(v.pos)[e.pid];
              && v.log == old(v.log) + [(e.pid, Deal(Some(PaperVenue.MarketPrice(p, Some(q))), e.cmd.volume, true))]
              && v.pos == old(v.pos)[e.pid := p.(volume := p.volume - e.cmd.volume)]
  {
    hide PaperVenue.Valid, PaperVenue.MarketPrice;
    match e.cmd
    case Close(volume) =>
      var _ := v.ClosePosition(e.pid, volume, Some(q));
    case Amend(sl, tp) =>
      var _ := v.AmendPosition(e.pid, Some(sl), Some(tp));
  }

  /** The commands of the pass that sees the first target, carried out in order. */
  method TakeTarget(v: PaperVenue, tm: TradeManager, pid: Pid, t: Row, q: Quote) returns (cmds: seq<Event>)
    requires v.Valid() && Geometry(t) && Fresh(t, pid) && Running(v, pid, t) && TradeManager.TargetHit(t, q)
    modifies v
    ensures v.Valid() && Secured(v, pid, t)
    ensures cmds == tm.TargetCommands(t, old(v.pos)[pid], Some(q))
    ensures var partial := tm.PartialVolume(old(v.pos)[pid].volume, t.symbol);
            DealsOf(v.log, pid) == if 0 < partial < old(v.pos)[pid].volume
              then [Deal(Some(if t.side == Buy then q.bid else q.ask), partial, true)] else []
  {
    hide Traced, Conserved, DealsOf, TradeManager.PartialVolume;
    var p := v.pos[pid];
    cmds := tm.TargetCommands(t, p, Some(q));
    if |cmds| == 2 {
      PartialAhead(v.log, pid, p, t, q, cmds[0].cmd.volume);
      CarryOut(v, cmds[0], q);
    }
    CarryOut(v, cmds[|cmds| - 1], q);
  }

  lemma PartialAhead(log: seq<(Pid, Deal)>, pid: Pid, p: Position, t: Row, q: Quote, partial: nat)
    requires Geometry(t) && Carries(p, t) && DealsOf(log, pid) == [] && TradeManager.TargetHit(t, q)
    ensures var d := Deal(Some(PaperVenue.MarketPrice(p, Some(q))), partial, true);
            DealsOf(log + [(pid, d)], pid) == [d] && AheadOfEntry([d], t.side, t.entry.value)
  {
    DealsAppend(log, (pid, Deal(Some(PaperVenue.MarketPrice(p, Some(q))), partial, true)), pid);
  }

  /** A pass of the manager over the trade, its commands carried out at the quote it was made with. */
  method Pass(v: PaperVenue, tm: TradeManager, pid: Pid, row: Row, t: Row, q: Quote, now: Moment) returns (after: Row)
    requires v.Valid() && Geometry(t) && Fresh(t, pid) && Kept(row, t) && Stands(v, pid, row, t)
    requires tm.s.tick(t.symbol) >= 0.0
    modifies v
    ensures v.Valid() && Kept(after, t) && Stands(v, pid, after, t)
    ensures exists events :: tm.Passed(row, old(v.pos)[pid], Some(q), now, after, events)
  {
    hide PaperVenue.Valid, TradeManager.OwnerMoved, TradeManager.PartialClose, TradeManager.PartialVolume;
    NotMoved(tm, v, pid, row, t, now);
    ghost var p := v.pos[pid];
    after := row;
    if row.partialDone || !TradeManager.TargetHit(row, q) {
      assert tm.Passed(row, p, Some(q), now, after, []);
    } else {
      var cmds := TakeTarget(v, tm, pid, t, q);
      var at: int := *;
      after := TradeManager.Booked(row, at);
      assert tm.Passed(row, p, Some(q), now, after, cmds);
    }
  }

  /** A trade lives through bars and manager passes until a bar closes it; `row` is the manager's view of it. */
  method LiveThrough(v: PaperVenue, tm: TradeManager, pid: Pid, t: Row, ticks: seq<Tick>) returns (row: Row)
    requires v.Valid() && Geometry(t) && Fresh(t, pid) && Running(v, pid, t) && tm.s.tick(t.symbol) >= 0.0
    modifies v
    ensures v.Valid() && Kept(row, t)
    ensures if pid in v.pos then Stands(v, pid, row, t) else Settles(row, DealsOf(v.log, pid))
  {
    hide PaperVenue.Valid, Secured, Settles, Geometry;
    row := t;
    for n := 0 to |ticks|
      invariant v.Valid() && Kept(row, t)
      invariant if pid in v.pos then Stands(v, pid, row, t) else Settles(row, DealsOf(v.log, pid))
    {
      match ticks[n]
      case Minute(b) =>
        OneBar(v, pid, row, t, b);
      case Managed(q, now) =>
        if pid in v.pos {
          row := Pass(v, tm, pid, row, t, q, now);
        }
    }
  }

  /** What HandleClosed books from these deals: exactly -1R at the stop, the server target's distance at the target, and
      never a loss once the first target was taken. */
  ghost predicate Settles(row: Row, deals: seq<Deal>) {
    && Geometry(row) && TradeManager.Priceable(row, ClosingDeals(deals))
    && var r := TradeManager.Priced(row, ClosingDeals(deals));
       && r.Some?
       && (row.partialDone ==> r.value >= 0.0)
       && (!row.partialDone ==>
             r.value == -1.0
               || r.value == Sgn(row.side) * (row.tpServer.value - row.entry.value) / row.risk.value > 0.0)
  }

  lemma {:induction false} AllClosing(log: seq<(Pid, Deal)>, p: Pid)
    requires forall k :: 0 <= k < |log| ==> log[k].1.closing
    ensures ClosingDeals(DealsOf(log, p)) == DealsOf(log, p)
  {
    hide ClosingDeals;
    if log == [] {
      NoneClosing();
    } else {
      var n := |log| - 1;
      AllClosing(log[..n], p);
      assert log == log[..n] + [log[n]];
      DealsAppend(log[..n], log[n], p);
      ClosingAppend(DealsOf(log[..n], p), log[n].1);
    }
  }

  lemma NoneClosing()
    ensures ClosingDeals([]) == []
  {
  }

  lemma ClosingAppend(deals: seq<Deal>, d: Deal)
    ensures ClosingDeals(deals + [d]) == ClosingDeals(deals) + if d.closing then [d] else []
  {
    assert (deals + [d])[..|deals|] == deals;
  }

  method OneBar(v: PaperVenue, pid: Pid, row: Row, t: Row, b: Bar)
    requires v.Valid() && Geometry(t) && Kept(row, t)
    requires if pid in v.pos then Stands(v, pid, row, t) else Settles(row, DealsOf(v.log, pid))
    modifies v
    ensures v.Valid()
    ensures if pid in v.pos then Stands(v, pid, row, t) else Settles(row, DealsOf(v.log, pid))
  {
    hide Settles, Geometry, Conserved, StrikeDeal, SlHit, TpHit, ClosingDeals, DealsOf, Carries, Sgn;
    ghost var p := if pid in v.pos then Some(v.pos[pid]) else None;
    ghost var before := DealsOf(v.log, pid);
    var hit := v.OnBar(t.symbol, b);
    if pid in hit {
      AllClosing(v.log, pid);
      BarEnds(row, t, p.value, b, before);
    }
  }

  /** The bar that closes the trade, whether or not its first target was taken. */
  lemma BarEnds(row: Row, t: Row, p: Position, b: Bar, deals: seq<Deal>)
    requires Geometry(t) && Kept(row, t) && Carries(p, t) && (SlHit(p, b) || TpHit(p, b))
    requires if row.partialDone then p.sl == t.entry && AheadOfEntry(deals, t.side, t.entry.value)
             else p.sl == t.sl && deals == []
    requires ClosingDeals(deals + [StrikeDeal(p, b)]) == deals + [StrikeDeal(p, b)]
    ensures Settles(row, deals + [StrikeDeal(p, b)])
  {
    hide Settles, StrikeDeal, SlHit, TpHit, ClosingDeals, AheadOfEntry;
    if row.partialDone {
      SecuredEnds(row, p, b, deals);
    } else {
      assert [] + [StrikeDeal(p, b)] == [StrikeDeal(p, b)];
      RunningEnds(row, p, b);
    }
  }

  lemma RunningEnds(t: Row, p: Position, b: Bar)
    requires Geometry(t) && !t.partialDone && Carries(p, t) && p.sl == t.sl && (SlHit(p, b) || TpHit(p, b))
    requires ClosingDeals([StrikeDeal(p, b)]) == [StrikeDeal(p, b)]
    ensures Settles(t, [StrikeDeal(p, b)])
  {
    var d, risk := StrikeDeal(p, b), t.risk.value;
    OneDealSettles(d, t.side, t.entry.value, risk);
    if SlHit(p, b) {
      assert Sgn(t.side) * (t.sl.value - t.entry.value) == -risk;
      Cancel(risk, -1.0);
      assert risk * -1.0 == Sgn(t.side) * (t.sl.value - t.entry.value);
    } else {
      var gain := Sgn(t.side) * (t.tpServer.value - t.entry.value);
      assert gain > 0.0;
      assert gain / risk > 0.0;
    }
  }

  lemma SecuredEnds(t: Row, p: Position, b: Bar, deals: seq<Deal>)
    requires Geometry(t) && t.partialDone && Carries(p, t) && p.sl == t.entry && (SlHit(p, b) || TpHit(p, b))
    requires AheadOfEntry(deals, t.side, t.entry.value)
    requires ClosingDeals(deals + [StrikeDeal(p, b)]) == deals + [StrikeDeal(p, b)]
    ensures Settles(t, deals + [StrikeDeal(p, b)])
  {
    AheadSettles(deals + [StrikeDeal(p, b)], t.side, t.entry.value, t.risk.value);
  }
}
