/** Risk guards evaluated immediately before sending, and the counters they read. */
module Guards {
  import opened Trades
  import opened Ledger

  datatype Quote = Quote(bid: real, ask: real)

  datatype Plan = Plan(
    setupKey: string,
    symbol: string,
    side: Side,
    decisionPrice: real,
    sl: real,
    tp1: real,
    tpServer: real,
    risk: real)

  datatype Settings = Settings(
    caps: Caps,
    maxConsecutiveLosses: nat,
    dailyLossLimitR: real,
    maxSpread: map<string, real>,
    lots: map<string, real>,
    tick: string -> real,
    volumeStep: string -> nat,
    tp1ClosePct: real)

  /** What the calendar and the client say at the moment of the check. */
  datatype Conditions = Conditions(marketOpen: bool, farFromClose: bool, killzone: bool, skew: real, authOk: bool)

  datatype Reason =
    | KillSwitch | NoLot | MarketClosed | OutsideKillzone | QuoteStale | Spread | SlTpNotSane | ClockSkew | Auth
    | MaxOpenTotal | MaxOpenPerSymbol | OppositeOpen | MaxTradesPerDay | MaxConsecutiveLosses | DailyLossLimit
    | DuplicateSetupKey

  function When(cond: bool, why: Reason): seq<Reason> {
    if cond then [why] else []
  }

  predicate Sane(plan: Plan, entry: real) {
    if plan.side == Buy then plan.sl < entry < plan.tpServer else plan.tpServer < entry < plan.sl
  }

  function QuoteReasons(s: Settings, plan: Plan, quote: Option<Quote>): seq<Reason> {
    match quote
    case None => [QuoteStale]
    case Some(q) =>
      When(plan.symbol in s.maxSpread && q.ask - q.bid > s.maxSpread[plan.symbol], Spread)
      + When(!Sane(plan, if plan.side == Buy then q.ask else q.bid), SlTpNotSane)
  }

  predicate OppositeLive(rows: seq<Row>, plan: Plan) {
    exists i :: 0 <= i < |rows| && Live(rows[i].state) && rows[i].symbol == plan.symbol && rows[i].side != plan.side
  }

  function EnvironmentReasons(s: Settings, kill: bool, plan: Plan, quote: Option<Quote>, c: Conditions): seq<Reason> {
    When(kill, KillSwitch)
    + When(plan.symbol !in s.lots, NoLot)
    + When(!c.marketOpen || !c.farFromClose, MarketClosed)
    + When(!c.killzone, OutsideKillzone)
    + QuoteReasons(s, plan, quote)
    + When(c.skew > 30.0 || c.skew < -30.0, ClockSkew)
    + When(!c.authOk, Auth)
  }

  function ExposureReasons(s: Settings, rows: seq<Row>, losses: nat, plan: Plan, now: Moment): seq<Reason> {
    When(Count(rows, AnyOpen) >= s.caps.openTotal, MaxOpenTotal)
    + When(Count(rows, OpenOn(plan.symbol)) >= s.caps.openPerSymbol, MaxOpenPerSymbol)
    + When(OppositeLive(rows, plan), OppositeOpen)
    + When(Count(rows, OnDay(now.day)) >= s.caps.tradesPerDay, MaxTradesPerDay)
    + When(losses >= s.maxConsecutiveLosses, MaxConsecutiveLosses)
    + When(DayLoss(rows, now.day) <= -s.dailyLossLimitR, DailyLossLimit)
    + When(HasKey(rows, Text(plan.setupKey)), DuplicateSetupKey)
  }

  /** Every guard; an empty answer means all pass. */
  function CheckEntry(s: Settings, rows: seq<Row>, kill: bool, losses: nat, plan: Plan, quote: Option<Quote>,
                      c: Conditions, now: Moment): seq<Reason> {
    EnvironmentReasons(s, kill, plan, quote, c) + ExposureReasons(s, rows, losses, plan, now)
  }

  /** An empty answer means exactly: the day is not over its limits, there is room, and the setup is new. */
  lemma ClearMeansRoom(s: Settings, rows: seq<Row>, kill: bool, losses: nat, plan: Plan, quote: Option<Quote>,
                       c: Conditions, now: Moment, r: Row)
    requires r.symbol == plan.symbol && r.side == plan.side && r.openedAt == now
    ensures CheckEntry(s, rows, kill, losses, plan, quote, c, now) == [] <==>
              && EnvironmentReasons(s, kill, plan, quote, c) == []
              && RoomFor(s.caps, rows, r)
              && losses < s.maxConsecutiveLosses
              && DayLoss(rows, now.day) > -s.dailyLossLimitR
              && !HasKey(rows, Text(plan.setupKey))
  {
    var why := ExposureReasons(s, rows, losses, plan, now);
    assert why == [] <==>
        && Count(rows, AnyOpen) < s.caps.openTotal
        && Count(rows, OpenOn(plan.symbol)) < s.caps.openPerSymbol
        && !OppositeLive(rows, plan)
        && Count(rows, OnDay(now.day)) < s.caps.tradesPerDay
        && losses < s.maxConsecutiveLosses
        && DayLoss(rows, now.day) > -s.dailyLossLimitR
        && !HasKey(rows, Text(plan.setupKey));
  }
}
