/** The order flow: execute, manage, reconcile and flat. Their steps never interleave. */
module Broker {
  import opened Trades
  import opened Ledger
  import opened Venues
  import opened Guards
  import opened Scales
  import Decode
  import Primitives

  datatype Verdict =
    | Blocked
    | Invisible            // "open (position not visible yet)"
    | Opened               // "open": read back and verified
    | Vanished             // "open (closed during protection)"
    | ClosedVolume | ClosedVerification
    | FailedAuth | FailedRejected | FailedUnknown

  /** What protect can answer. */
  predicate Protected(v: Verdict) {
    v == Invisible || v == Opened || v == Vanished || v == ClosedVolume || v == ClosedVerification
  }

  /** The answers of protect that follow a read of the position. */
  predicate Looked(v: Verdict) {
    v == Opened || v == Vanished || v == ClosedVolume || v == ClosedVerification
  }

  const BACKOFF_TRIES := 8
  const FIRST_TRIES := 3
  const MANUAL_GRACE_S := 60
  const DEALS_LAG_S := 60
  const ADOPT_WINDOW_S := 150
  const EPS := 0.000000001

  predicate Near(a: real, b: real, tick: real) {
    Primitives.Abs(a - b) <= tick + EPS
  }

  /** The read-back check: both legs where the plan wants them, the plan's side and volume. */
  predicate Verified(p: Position, t: Row, tick: real) {
    && p.sl.Some? && p.tp.Some? && t.sl.Some? && t.tpServer.Some?
    && Near(p.sl.value, t.sl.value, tick) && Near(p.tp.value, t.tpServer.value, tick)
    && p.side == t.side && -1 <= p.volume - t.volume <= 1
  }

  /** The first labelled position with that comment, as the answer shows it. */
  function ByComment(answer: Outcome<seq<Position>>, k: Key): Outcome<Option<Position>> {
    match answer
    case Failure(e) => Failure(e)
    case Success(snap) => Success(FirstNamed(snap, k))
  }

  function FirstNamed(snap: seq<Position>, k: Key): Option<Position> {
    if snap == [] then None
    else if snap[0].mapex && snap[0].comment == k then Some(snap[0])
    else FirstNamed(snap[1..], k)
  }

  function ByPid(answer: Outcome<seq<Position>>, pid: Pid): Outcome<Option<Position>> {
    match answer
    case Failure(e) => Failure(e)
    case Success(snap) => Success(FirstNumbered(snap, pid))
  }

  function FirstNumbered(snap: seq<Position>, pid: Pid): Option<Position> {
    if snap == [] then None
    else if snap[0].pid == pid then Some(snap[0])
    else FirstNumbered(snap[1..], pid)
  }

  /** What the last message, an answer to a poll, says about the position. */
  function LastShown(log: seq<Message>, pid: Pid): Option<Outcome<Option<Position>>> {
    if log != [] && log[|log| - 1].Shown? then Some(ByPid(log[|log| - 1].answer, pid)) else None
  }

  function LastWithComment(snap: seq<Position>, k: Key): (r: Option<nat>)
    ensures r.Some? ==> r.value < |snap| && snap[r.value].comment == k
    ensures r.None? ==> forall i :: 0 <= i < |snap| ==> snap[i].comment != k
  {
    if snap == [] then None
    else if snap[|snap| - 1].comment == k then Some(|snap| - 1)
    else LastWithComment(snap[..|snap| - 1], k)
  }

  function WithPid(snap: seq<Position>, p: Option<Pid>): (r: Option<nat>)
    ensures r.Some? ==> r.value < |snap| && p == Some(snap[r.value].pid)
    ensures r.None? && p.Some? ==> forall i :: 0 <= i < |snap| ==> snap[i].pid != p.value
  {
    if snap == [] then None
    else if p == Some(snap[|snap| - 1].pid) then Some(|snap| - 1)
    else WithPid(snap[..|snap| - 1], p)
  }

  function Labelled(snap: seq<Position>): (r: seq<Position>)
    ensures forall i :: 0 <= i < |r| ==> r[i] in snap && r[i].mapex
    ensures forall p :: p in snap && p.mapex ==> p in r
  {
    if snap == [] then []
    else Labelled(snap[..|snap| - 1]) + if snap[|snap| - 1].mapex then [snap[|snap| - 1]] else []
  }

  /** The closes of /flat: one for each labelled position, for its whole volume. */
  ghost function FlatCloses(ps: seq<Position>): seq<Event> {
    if ps == [] then []
    else
      var p := ps[|ps| - 1];
      FlatCloses(ps[..|ps| - 1]) + if p.mapex then [Sent(Close(p.volume), p.pid, true)] else []
  }

  lemma NoCloses()
    ensures FlatCloses([]) == []
  {
  }

  lemma FlatStep(ps: seq<Position>, j: nat)
    requires j < |ps|
    ensures FlatCloses(ps[..j + 1]) ==
              if ps[j].mapex then FlatCloses(ps[..j]) + [Sent(Close(ps[j].volume), ps[j].pid, true)]
              else FlatCloses(ps[..j])
  {
    assert ps[..j + 1][..j] == ps[..j];
  }

  function Volume(deals: seq<Deal>): nat {
    if deals == [] then 0 else Volume(deals[..|deals| - 1]) + deals[|deals| - 1].volume
  }

  function Moved(deals: seq<Deal>, sgn: real, entry: real): Option<real> {
    if deals == [] then Some(0.0)
    else
      var d := deals[|deals| - 1];
      var before := Moved(deals[..|deals| - 1], sgn, entry);
      if before.None? || d.price.None? then None
      else Some(before.value + Gain(d, sgn, entry))
  }

  function Gain(d: Deal, sgn: real, entry: real): real
    requires d.price.Some?
  {
    d.volume as real * sgn * (d.price.value - entry)
  }

  function ClosingDeals(deals: seq<Deal>): seq<Deal> {
    if deals == [] then []
    else ClosingDeals(deals[..|deals| - 1]) + if deals[|deals| - 1].closing then [deals[|deals| - 1]] else []
  }

  /** The trade's result in R from its closing deals; None when a deal price could not be decoded. */
  function ResultR(side: Side, entry: real, risk: real, deals: seq<Deal>): Option<real>
    requires risk != 0.0
  {
    var moved := Moved(deals, if side == Buy then 1.0 else -1.0, entry);
    var total := Volume(deals);
    if moved.None? then None
    else Some(moved.value / (if total == 0 then 1 else total) as real / risk)
  }

  /** The row carries the plan it was claimed for. */
  predicate Carries(r: Row, plan: Plan, now: Moment) {
    && r.key == Text(plan.setupKey) && r.symbol == plan.symbol && r.side == plan.side && r.openedAt == now
    && r.sl == Some(plan.sl) && r.tpServer == Some(plan.tpServer) && r.tp1 == Some(plan.tp1)
    && r.entryPlanned == Some(plan.decisionPrice)
  }

  /** One order went out; a second, as MARKET, exactly when the first was refused for its type. */
  ghost predicate SentOnce(before: seq<Message>, log: seq<Message>, args: OrderArgs, answer: Outcome<Fill>) {
    var refused: Outcome<Fill> := Failure(ToolError(true));
    || (Attempts(before, log, args, answer) && !(args.range && answer == refused))
    || (args.range
        && exists mid :: Attempts(before, mid, args, refused) && Attempts(mid, log, args.(range := false), answer))
  }

  /** What the answer to the order makes of the trade. */
  predicate Follows(answer: Outcome<Fill>, r: Outcome<Verdict>) {
    match answer
    case Failure(AuthError) => r == Success(FailedAuth)
    case Failure(ToolError(_)) => r == Success(FailedRejected)
    case Failure(Fault) => r == Failure(Fault)
    case _ => r.Success? ==> Protected(r.value) || r.value == FailedUnknown
  }

  ghost predicate SentThen(before: seq<Message>, log: seq<Message>, args: OrderArgs, r: Outcome<Verdict>) {
    exists sent, answer :: SentOnce(before, sent, args, answer) && sent <= log && Follows(answer, r)
  }

  /** The last n messages asked for the positions, and no answer showed one with that comment. */
  ghost predicate PolledInVain(before: seq<Message>, log: seq<Message>, k: Key, n: nat) {
    && |log| == |before| + n && before <= log
    && forall j :: |before| <= j < |log| ==>
         log[j].Shown? && (log[j].answer.Failure? || ByComment(log[j].answer, k) == Success(None))
  }

  ghost predicate OneMore(before: set<Pid>, after: set<Pid>, p: Pid) {
    after == before + {p}
  }

  class TradeManager {
    const s: Settings
    const venue: Venue
    var rows: seq<Row>         // the trades table; a row's id is its index
    var kill: bool             // kv kill_switch
    var losses: nat            // kv consecutive_losses
    var learned: map<string, int>  // kv points_digits
    ghost var trace: seq<Event>
    ghost var adopted: nat
    ghost var orphans: nat
    ghost var intact: bool
    ghost var readings: seq<Reading>  // the first read of each new position
    ghost const scale: string -> int  // the scale at which a broker that has one reads relative points

    ghost function W(): World
      reads this, venue
    {
      World(rows, venue.labelled, venue.ours, trace, readings, adopted, orphans, losses, intact)
    }

    ghost predicate Valid()
      reads this, venue
    {
      venue.Valid() && Inv(s.caps, W()) && Taught(rows, readings, learned, venue.digits, scale)
    }

    /** What the amends and closes of a call may touch. */
    ghost predicate Free(i: nat)
      reads this, venue
    {
      i < |rows| && rows[i].pid.Some? && (Tidy(venue.labelled) ==> !rows[i].manual)
    }

    constructor (s: Settings, venue: Venue, ghost scale: string -> int)
      requires venue.Valid() && venue.labelled == map[] && venue.ours == {}
      ensures Valid() && this.s == s && this.venue == venue && rows == [] && trace == [] && this.scale == scale
    {
      this.s, this.venue, this.scale, this.readings := s, venue, scale, [];
      rows, kill, losses, learned := [], false, 0, map[];
      trace, adopted, orphans, intact := [], 0, 0, true;
      new;
      hide Inv, Taught;
      EmptyKeepsInv(s.caps, W());
      NothingTaught(venue.digits, scale);
    }

    // -------------------------------------------------------------- the venue, seen from here

    method Snapshot() returns (r: Outcome<seq<Position>>)
      requires Valid()
      modifies venue
      ensures Valid() && Quiet(old(W()), W()) && venue.log == old(venue.log) + [Shown(r)]
      ensures r.Success? ==> forall i :: 0 <= i < |r.value| && r.value[i].mapex ==>
                r.value[i].pid in venue.labelled && venue.labelled[r.value[i].pid] == r.value[i].comment
    {
      hide Inv, Taught, Tidy;
      ghost var w := W();
      r := venue.Positions();
      BrokerMoves(s.caps, w, venue.labelled);
    }

    method AmendPosition(i: nat, sl: Option<real>, tp: Option<real>) returns (r: Outcome<()>)
      requires Valid() && Free(i)
      modifies this`trace, venue
      ensures Valid() && Quiet(old(W()), W())
      ensures trace == old(trace) || (sl.Some? && tp.Some?
                && trace == old(trace) + [Sent(Amend(sl.value, tp.value), rows[i].pid.value, false)])
      ensures r != Failure(Fault) ==> trace != old(trace)
      ensures venue.log == old(venue.log) + if sl.Some? && tp.Some?
                then [Commanded(rows[i].pid.value, Amend(sl.value, tp.value))]
                                            else []
    {
      hide Inv, Taught, Tidy;
      if sl.None? || tp.None? {
        return Failure(Fault);  // amend_position requires both legs: omitting one would remove it
      }
      Announce(i, Amend(sl.value, tp.value));
      ghost var w := W();
      r := venue.Mutate(rows[i].pid.value, Amend(sl.value, tp.value));
      BrokerMoves(s.caps, w, venue.labelled);
    }

    method ClosePosition(i: nat, volume: nat) returns (r: Outcome<()>)
      requires Valid() && Free(i)
      modifies this`trace, venue
      ensures Valid() && Quiet(old(W()), W())
      ensures trace == old(trace) + [Sent(Close(volume), rows[i].pid.value, false)]
      ensures venue.log == old(venue.log) + [Commanded(rows[i].pid.value, Close(volume))]
    {
      hide Inv, Taught, Tidy;
      Announce(i, Close(volume));
      ghost var w := W();
      r := venue.Mutate(rows[i].pid.value, Close(volume));
      BrokerMoves(s.caps, w, venue.labelled);
    }

    ghost method Announce(i: nat, cmd: Command)
      requires Valid() && Free(i)
      modifies this`trace
      ensures Valid() && trace == old(trace) + [Sent(cmd, rows[i].pid.value, false)]
    {
      hide Taught, Venue.Valid;
      assert RowPid(rows[i], venue.labelled);
      if Tidy(venue.labelled) {
        NotManualHeld(s.caps, W(), i);
      }
      SendKeepsInv(s.caps, W(), cmd, rows[i].pid.value, false);
      trace := trace + [Sent(cmd, rows[i].pid.value, false)];
    }

    /** An UPDATE of row i that keeps its position id. */
    method Update(i: nat, r: Row)
      requires Valid() && i < |rows| && Edits(rows[i], r)
      modifies this`rows
      ensures Valid() && rows == old(rows)[i := r] && Quiet(old(W()), W())
    {
      hide Inv, Venue.Valid, Taught;
      EditKeepsInv(s.caps, W(), i, r);
      RowKeepsTaught(rows, i, r, readings, learned, venue.digits, scale);
      rows := rows[i := r];
    }

    /** The UPDATE that makes row i CLOSING, with the time it is made. */
    method Begin(i: nat, now: Moment)
      requires Valid() && i < |rows| && Live(rows[i].state)
      modifies this`rows, this`trace
      ensures Valid() && Quiet(old(W()), W()) && trace == old(trace) + [Began(i, now.epoch)]
      ensures rows == old(rows)[i := old(rows)[i].(state := Closing, closedAt := now.epoch)]
    {
      hide Inv, Venue.Valid, Taught;
      var r := rows[i].(state := Closing, closedAt := now.epoch);
      BeginKeepsInv(s.caps, W(), i, r);
      RowKeepsTaught(rows, i, r, readings, learned, venue.digits, scale);
      rows := rows[i := r];
      trace := trace + [Began(i, now.epoch)];
    }

    /** The UPDATE that gives row i the position p that carries its key as comment. */
    method Adopt(i: nat, p: Pid, entry: Option<real>)
      requires Valid() && i < |rows| && rows[i].state != Closed
      requires p in venue.labelled && venue.labelled[p] == rows[i].key
      requires Tidy(venue.labelled) ==> !rows[i].manual
      modifies this`rows, this`adopted
      ensures Valid() && Quiet(old(W()), W())
      ensures rows == old(rows)[i := old(rows)[i].(state := Open, pid := Some(p), entry := entry)]
      ensures adopted == old(adopted) + if old(rows)[i].state == Failed then 1 else 0
    {
      hide Inv, Venue.Valid, Taught;
      var r := rows[i].(state := Open, pid := Some(p), entry := entry);
      ghost var more := adopted + if rows[i].state == Failed then 1 else 0;
      AdoptKeepsInv(s.caps, W(), i, r, p, more);
      RowKeepsTaught(rows, i, r, readings, learned, venue.digits, scale);
      rows := rows[i := r];
      adopted := more;
    }

    // -------------------------------------------------------------- entry

    /** MARKET only after a rejected MARKET_RANGE: at most one of the two orders is ever filled. */
    method Send(symbol: string, args: OrderArgs) returns (r: Outcome<Fill>, ghost filled: Option<Pid>)
      requires Valid() && HasKey(rows, args.comment)
      requires forall q :: q in venue.ours ==> venue.labelled[q] != args.comment
      modifies venue
      ensures Valid() && Grows(old(W()), W())
      ensures filled.None? ==> venue.ours == old(venue.ours)
      ensures filled.Some? ==> filled.value in venue.labelled && venue.labelled[filled.value] == args.comment
                               && venue.ours == old(venue.ours) + {filled.value}
      ensures r.Success? && r.value.pid.Some? ==> filled == r.value.pid
      ensures old(venue.log) <= venue.log && SentOnce(old(venue.log), venue.log, args, r)
    {
      hide Inv, Venue.Valid, Taught, Reads;
      r, filled := SendOnce(symbol, args);
      if r == Failure(ToolError(true)) && args.range {
        // a refusal for the order's type says that nothing filled, so a second order is safe
        r, filled := SendOnce(symbol, args.(range := false));
      }
    }

    method SendOnce(symbol: string, args: OrderArgs) returns (r: Outcome<Fill>, ghost filled: Option<Pid>)
      requires Valid() && HasKey(rows, args.comment)
      requires forall q :: q in venue.ours ==> venue.labelled[q] != args.comment
      modifies venue
      ensures Valid() && Grows(old(W()), W())
      ensures filled.None? ==> venue.ours == old(venue.ours)
      ensures filled.None? ==> forall q :: q in venue.ours ==> venue.labelled[q] != args.comment
      ensures filled.Some? ==> filled.value in venue.labelled && venue.labelled[filled.value] == args.comment
                               && venue.ours == old(venue.ours) + {filled.value}
      ensures r == Failure(ToolError(true)) ==> filled.None?
      ensures r.Success? && r.value.pid.Some? ==> filled == r.value.pid
      ensures Attempts(old(venue.log), venue.log, args, r)
    {
      hide Inv, Taught, Attempts, Tidy, Find;
      var i := Find(rows, args.comment).value;
      ghost var w := W();
      r, filled := venue.CreateOrder(symbol, args);
      if filled.Some? {
        OrderFilled(s.caps, w, venue.labelled, filled.value, i);
      } else {
        BrokerMoves(s.caps, w, venue.labelled);
      }
    }

    method Execute(plan: Plan, order: Option<OrderArgs>, quote: Option<Quote>, c: Conditions, now: Moment)
      returns (r: Outcome<Verdict>, ghost seen: Option<Position>)
      requires Valid() && plan.setupKey != ""
      requires order.Some? ==> order.value.comment == Text(plan.setupKey)  // build_order sets the comment
      modifies this, venue
      ensures old(venue.log) <= venue.log
      ensures Valid() && Grows(old(W()), W())
      ensures CheckEntry(s, old(rows), old(kill), old(losses), plan, quote, c, now) != [] ==> r == Success(Blocked)
      ensures r == Success(Blocked) ==> rows == old(rows) && trace == old(trace) && venue.ours == old(venue.ours)
                                        && venue.log == old(venue.log)
      ensures r != Success(Blocked) ==>
                && |rows| == |old(rows)| + 1 && (forall j :: 0 <= j < |old(rows)| ==> rows[j] == old(rows)[j])
                && Carries(rows[|old(rows)|], plan, now) && !HasKey(old(rows), Text(plan.setupKey))
                && order.Some? && rows[|old(rows)|].volume == order.value.volume
      ensures r.Success? && r.value != Blocked ==> Answered(|old(rows)|, r.value, seen)
      ensures r != Success(Blocked) ==> SentThen(old(venue.log), venue.log, order.value, r)
      ensures r != Success(Blocked) ==> rows[|old(rows)|].pointsDigits == Some(old(PointsDigits(plan.symbol)))
      ensures r == Success(Blocked) ==> readings == old(readings) && learned == old(learned)
      ensures r != Success(Blocked) ==>
                && Lesson(old(learned), old(readings), learned, readings, rows[|old(rows)|])
                && Teaches(old(learned), old(readings), learned, readings, venue.digits, plan.symbol)
      ensures r.Success? && Looked(r.value) ==> readings != old(readings)
      ensures venue.ours == old(venue.ours) || exists p :: OneMore(old(venue.ours), venue.ours, p)
    {
      hide Inv, Venue.Valid, Taught, CheckEntry, SentThen, Answered, RoomFor, Lesson, Teaches, PointsOf, Count, Grows,
           Quiet;
      var why := CheckEntry(s, rows, kill, losses, plan, quote, c, now);
      seen := None;
      QuietStays(W());
      if why != [] || order.None? {
        return Success(Blocked), None;
      }
      var args := order.value;
      var row := Row(Text(plan.setupKey), plan.symbol, plan.side, Sending, None, args.volume, Some(plan.sl),
                     Some(plan.tpServer), Some(plan.tp1), None, Some(plan.risk), false, false, false, now, 0, 0, None,
                     Some(plan.decisionPrice), Some(PointsDigits(plan.symbol)));
      ClearMeansRoom(s, rows, kill, losses, plan, quote, c, now, row);
      var i := Claim(row);
      ghost var w := W();
      r, seen := SendClaimed(i, plan, args, now);
      GrowsSteps(old(W()), w, W());
      GrowsRow(w, W(), i);
      OrderTeaches(old(learned), old(readings), learned, readings, rows[i], venue.digits);
    }

    /** Only one caller can insert the row of a setup; every other one fails here. */
    method Claim(row: Row) returns (i: nat)
      requires Valid() && RoomFor(s.caps, rows, row) && !HasKey(rows, row.key) && row.key.Text? && row.key != Text("")
      requires row.state == Sending && row.pid.None? && !row.manual
      requires row.pointsDigits == Some(PointsDigits(row.symbol))
      modifies this`rows
      ensures Valid() && Quiet(old(W()), W()) && i == |old(rows)| && rows == old(rows) + [row]
      ensures forall q :: q in venue.ours ==> venue.labelled[q] != row.key
    {
      hide Inv, Venue.Valid, Taught, RoomFor;
      ClaimKeepsInv(s.caps, W(), row);
      InsertKeepsTaught(rows, row, readings, learned, venue.digits, scale);
      i := |rows|;
      rows := rows + [row];
    }

    /** What each answer of execute promises about the row and the last position read. */
    ghost predicate Answered(i: nat, v: Verdict, seen: Option<Position>)
      reads this
    {
      && (v == Opened ==> SeenExact(i, seen))
      && (v == ClosedVolume || v == ClosedVerification ==> SeenClosed(i, seen))
      && (v == FailedUnknown ==> i < |rows| && rows[i].state == Failed && kill)
      && (v == FailedAuth || v == FailedRejected ==> i < |rows| && rows[i].state == Failed)
    }

    /** The order of a freshly claimed row, sent once. */
    method SendClaimed(i: nat, plan: Plan, args: OrderArgs, now: Moment)
        returns (r: Outcome<Verdict>, ghost seen: Option<Position>)
      requires Valid() && i < |rows| && rows[i].key == args.comment && rows[i].state == Sending && !rows[i].manual
      requires rows[i].pid.None? && forall q :: q in venue.ours ==> venue.labelled[q] != args.comment
      modifies this, venue
      ensures old(venue.log) <= venue.log
      ensures Valid() && Grows(old(W()), W()) && OnlyRow(old(rows), rows, i)
      ensures r.Success? ==> r.value != Blocked && Answered(i, r.value, seen)
      ensures r != Success(Blocked) && SentThen(old(venue.log), venue.log, args, r)
      ensures venue.ours == old(venue.ours) || exists p :: OneMore(old(venue.ours), venue.ours, p)
      ensures Lesson(old(learned), old(readings), learned, readings, rows[i])
      ensures r.Success? && Looked(r.value) ==> readings != old(readings)
    {
      hide Inv, Venue.Valid, Taught, Answered, SentOnce, Grows, Quiet, Lesson, Follows;
      ghost var w := W();
      var sent;
      ghost var filled;
      sent, filled := Send(plan.symbol, args);
      assert filled.Some? ==> OneMore(w.ours, venue.ours, filled.value);
      ghost var mid, w1 := venue.log, W();
      r, seen := Conclude(i, sent, plan.decisionPrice, now);
      GrowsThenQuiet(w, w1, W());
      assert SentOnce(old(venue.log), mid, args, sent) && mid <= venue.log && Follows(sent, r);
    }

    /** What the answer to the order makes of the trade. */
    method Conclude(i: nat, sent: Outcome<Fill>, decisionPrice: real, now: Moment)
        returns (r: Outcome<Verdict>, ghost seen: Option<Position>)
      requires Valid() && i < |rows| && rows[i].state == Sending && !rows[i].manual && rows[i].pid.None?
      requires sent.Success? && sent.value.pid.Some? ==>
                 sent.value.pid.value in venue.labelled && venue.labelled[sent.value.pid.value] == rows[i].key
      modifies this, venue
      ensures old(venue.log) <= venue.log
      ensures Valid() && Quiet(old(W()), W()) && OnlyRow(old(rows), rows, i)
      ensures r.Success? ==> r.value != Blocked && Answered(i, r.value, seen)
      ensures r != Success(Blocked) && Follows(sent, r)
      ensures Lesson(old(learned), old(readings), learned, readings, rows[i])
      ensures r.Success? && Looked(r.value) ==> readings != old(readings)
    {
      hide Inv, Venue.Valid, Taught, Quiet, Lesson, SeenExact, SeenClosed, Attempts;
      seen := None;
      QuietStays(W());
      NoLesson(learned, readings, rows[i]);
      match sent {
        case Failure(TransportError) =>
          r, seen := ReconcileSending(i);
        case Failure(AuthError) =>
          r := GiveUp(i, FailedAuth, now);
          NoLesson(learned, readings, rows[i]);
        case Failure(ToolError(_)) =>
          r := GiveUp(i, FailedRejected, now);
          NoLesson(learned, readings, rows[i]);
        case Failure(Fault) =>
          r := Failure(Fault);
        case Success(fill) =>
          r, seen := Filled(i, fill, decisionPrice);
      }
    }

    /** The order was refused. */
    method GiveUp(i: nat, v: Verdict, now: Moment) returns (r: Outcome<Verdict>)
      requires Valid() && i < |rows| && rows[i].state == Sending && rows[i].pid.None?
      requires v == FailedAuth || v == FailedRejected
      modifies this`rows
      ensures Valid() && Quiet(old(W()), W())
      ensures rows == old(rows)[i := old(rows)[i].(state := Failed, closedAt := now.epoch)]
      ensures r == Success(v) && Answered(i, v, None)
    {
      hide Inv, Venue.Valid, Taught, SeenExact, SeenClosed;
      Update(i, rows[i].(state := Failed, closedAt := now.epoch));
      r := Success(v);
    }

    /** The venue answered with a fill, perhaps without the position's id. */
    method Filled(i: nat, fill: Fill, decisionPrice: real) returns (r: Outcome<Verdict>, ghost seen: Option<Position>)
      requires Valid() && i < |rows| && rows[i].state == Sending && !rows[i].manual && rows[i].pid.None?
      requires fill.pid.Some? ==> fill.pid.value in venue.labelled && venue.labelled[fill.pid.value] == rows[i].key
      modifies this, venue
      ensures old(venue.log) <= venue.log
      ensures Valid() && Quiet(old(W()), W()) && OnlyRow(old(rows), rows, i)
      ensures fill.pid.Some? ==> rows[i].pid == fill.pid
      ensures r.Success? ==> (Protected(r.value) || r.value == FailedUnknown) && Answered(i, r.value, seen)
      ensures Lesson(old(learned), old(readings), learned, readings, rows[i])
      ensures r.Success? && Looked(r.value) ==> readings != old(readings)
    {
      hide Inv, Venue.Valid, Taught, Answered, Quiet, Lesson;
      ghost var w := W();
      var entry := if fill.price.Some? then fill.price else Some(decisionPrice);
      if fill.pid.None? {
        Update(i, rows[i].(state := Open, entry := entry));
        ghost var w1 := W();
        r, seen := ReconcileSending(i);
        QuietSteps(w, w1, W());
      } else {
        r, seen := AdoptAndProtect(i, fill.pid.value, entry);
      }
    }

    function PointsDigits(symbol: string): int
      reads this
    {
      PointsOf(learned, venue.digits, symbol)
    }

    /** Nobody knows whether the order filled: eight looks for its position, then FAILED under the kill switch. */
    method ReconcileSending(i: nat) returns (r: Outcome<Verdict>, ghost seen: Option<Position>)
      requires Valid() && i < |rows| && rows[i].pid.None? && Live(rows[i].state)
      modifies this, venue
      ensures Valid() && Quiet(old(W()), W()) && OnlyRow(old(rows), rows, i)
      ensures r.Success? ==> (Protected(r.value) || r.value == FailedUnknown) && Answered(i, r.value, seen)
      ensures old(venue.log) <= venue.log
      ensures r == Success(FailedUnknown) ==> PolledInVain(old(venue.log), venue.log, rows[i].key, BACKOFF_TRIES)
      ensures Lesson(old(learned), old(readings), learned, readings, rows[i])
      ensures r.Success? && Looked(r.value) ==> readings != old(readings)
    {
      hide Inv, Venue.Valid, Taught, Quiet, Lesson, PolledInVain, SeenExact, SeenClosed, Tidy;
      ghost var w := W();
      RowPidsOf(s.caps, w, i);
      NoLesson(learned, readings, rows[i]);
      seen := None;
      var found := Poll(rows[i].key);
      QuietRow(w, W(), i);
      ghost var w1 := W();
      match found {
        case Failure(e) =>
          r := Failure(e);
        case Success(Some(p)) =>
          r, seen := AdoptAndProtect(i, p.pid, p.entry);
          QuietSteps(w, w1, W());
        case Success(None) =>
          r := GiveUpBlind(i);
          QuietSteps(w, w1, W());
          NoLesson(learned, readings, rows[i]);
      }
    }

    /** Eight polls, until one shows a position with that comment; a poll that fails shows none. */
    method Poll(k: Key) returns (r: Outcome<Option<Position>>)
      requires Valid()
      modifies venue
      ensures Valid() && Quiet(old(W()), W()) && old(venue.log) <= venue.log
      ensures r.Success? && r.value.Some? ==>
                r.value.value.pid in venue.labelled && venue.labelled[r.value.value.pid] == k
      ensures r == Success(None) ==> PolledInVain(old(venue.log), venue.log, k, BACKOFF_TRIES)
    {
      hide Inv, Venue.Valid, Taught, Quiet;
      ghost var w := W();
      QuietStays(w);
      r := Success(None);
      var tries := 0;
      while tries < BACKOFF_TRIES && r == Success(None)
        invariant tries <= BACKOFF_TRIES && Valid() && Quiet(w, W()) && old(venue.log) <= venue.log
        invariant r.Success? && r.value.Some? ==>
                    r.value.value.pid in venue.labelled && venue.labelled[r.value.value.pid] == k
        invariant r == Success(None) ==> PolledInVain(old(venue.log), venue.log, k, tries)
        modifies venue
      {
        ghost var w1 := W();
        r := FindByComment(k);
        QuietSteps(w, w1, W());
        if r.Failure? && !r.error.Fault? {
          r := Success(None);
        }
        tries := tries + 1;
      }
    }

    /** No position ever showed up: the order may still have run, so nothing more is sent until the owner looks. */
    method GiveUpBlind(i: nat) returns (r: Outcome<Verdict>)
      requires Valid() && i < |rows| && Live(rows[i].state) && rows[i].pid.None?
      modifies this`rows, this`kill
      ensures Valid() && Quiet(old(W()), W()) && OnlyRow(old(rows), rows, i)
      ensures rows[i] == old(rows)[i].(state := Failed, closedAt := rows[i].closedAt) && kill
      ensures r == Success(FailedUnknown)
    {
      hide Inv, Venue.Valid, Taught, Quiet;
      var now: Moment := *;
      Update(i, rows[i].(state := Failed, closedAt := now.epoch));
      kill := true;
      r := Success(FailedUnknown);
    }

    method FindByComment(k: Key) returns (r: Outcome<Option<Position>>)
      requires Valid()
      modifies venue
      ensures Valid() && Quiet(old(W()), W())
      ensures exists answer :: venue.log == old(venue.log) + [Shown(answer)] && r == ByComment(answer, k)
      ensures r.Success? && r.value.Some? ==>
                r.value.value.pid in venue.labelled && venue.labelled[r.value.value.pid] == k
    {
      hide Inv, Venue.Valid, Taught;
      var answer := Snapshot();
      if answer.Failure? {
        return Failure(answer.error);
      }
      var snap := answer.value;
      for n := 0 to |snap|
        invariant FirstNamed(snap, k) == FirstNamed(snap[n..], k)
      {
        if snap[n].mapex && snap[n].comment == k {
          return Success(Some(snap[n]));
        }
      }
      return Success(None);
    }

    method Read(pid: Pid) returns (r: Outcome<Option<Position>>)
      requires Valid()
      modifies venue
      ensures Valid() && Quiet(old(W()), W())
      ensures exists answer :: venue.log == old(venue.log) + [Shown(answer)] && r == ByPid(answer, pid)
      ensures r.Success? && r.value.Some? ==> r.value.value.pid == pid
    {
      hide Inv, Venue.Valid, Taught;
      var answer := Snapshot();
      if answer.Failure? {
        return Failure(answer.error);
      }
      var snap := answer.value;
      for n := 0 to |snap|
        invariant FirstNumbered(snap, pid) == FirstNumbered(snap[n..], pid)
      {
        if snap[n].pid == pid {
          return Success(Some(snap[n]));
        }
      }
      return Success(None);
    }

    /** The position p carries row i's key as comment: record it and protect it. */
    method AdoptAndProtect(i: nat, p: Pid, entry: Option<real>) returns (r: Outcome<Verdict>,
                                                                         ghost seen: Option<Position>)
      requires Valid() && i < |rows| && rows[i].state != Closed
      requires p in venue.labelled && venue.labelled[p] == rows[i].key
      requires Tidy(venue.labelled) ==> !rows[i].manual
      modifies this, venue
      ensures old(venue.log) <= venue.log
      ensures Valid() && Quiet(old(W()), W())
      ensures OnlyRow(old(rows), rows, i) && rows[i].pid == Some(p)
      ensures (rows[i].state == Open || rows[i].state == Closing) && rows[i].manual == old(rows)[i].manual
      ensures adopted == old(adopted) + (if old(rows)[i].state == Failed then 1 else 0) && orphans == old(orphans)
      ensures r.Success? ==> Protected(r.value) && Answered(i, r.value, seen)
      ensures Lesson(old(learned), old(readings), learned, readings, rows[i])
      ensures r.Success? && Looked(r.value) ==> readings != old(readings)
    {
      hide Inv, Venue.Valid, Taught, Answered, Quiet, Lesson, Learns;
      ghost var w := W();
      Adopt(i, p, entry);
      ghost var first, w1 := None, W();
      r, seen, first := Protect(i);
      QuietSteps(w, w1, W());
    }

    /** The position may take a few polls to show up. */
    method FirstRead(pid: Pid) returns (r: Outcome<Option<Position>>)
      requires Valid()
      modifies venue
      ensures Valid() && Quiet(old(W()), W())
      ensures r.Success? && r.value.Some? ==> r.value.value.pid == pid
      ensures old(venue.log) < venue.log && LastShown(venue.log, pid) == Some(r)
      ensures r == Success(None) ==> |venue.log| == |old(venue.log)| + 1 + FIRST_TRIES
    {
      hide Inv, Venue.Valid, Taught;
      r := Read(pid);
      var tries := 0;
      while tries < FIRST_TRIES && r == Success(None)
        invariant tries <= FIRST_TRIES && Valid() && Quiet(old(W()), W())
        invariant r.Success? && r.value.Some? ==> r.value.value.pid == pid
        invariant old(venue.log) < venue.log && LastShown(venue.log, pid) == Some(r)
        invariant r == Success(None) ==> |venue.log| == |old(venue.log)| + 1 + tries
        modifies venue
      {
        r := Read(pid);
        tries := tries + 1;
      }
    }

    /** Checks the fill, puts both legs where the plan wants them and reads them back; `seen` is the last read. */
    method Protect(i: nat) returns (r: Outcome<Verdict>, ghost seen: Option<Position>, ghost first: Option<Position>)
      requires Valid() && Free(i) && rows[i].state == Open
      modifies this, venue
      ensures old(venue.log) <= venue.log
      ensures Valid() && Quiet(old(W()), W())
      ensures OnlyRow(old(rows), rows, i) && rows[i].pid == old(rows)[i].pid
      ensures rows[i].manual == old(rows)[i].manual && adopted == old(adopted) && orphans == old(orphans)
      ensures (rows[i].state == Open || rows[i].state == Closing)
      ensures r.Success? ==> Protected(r.value) && Answered(i, r.value, seen)
      ensures r == Success(Invisible) ==> rows == old(rows) && trace == old(trace)
      ensures r.Success? && r.value != Invisible ==> first.Some? && Some(first.value.pid) == rows[i].pid
      ensures r.Success? && r.value != Invisible ==> (r.value == ClosedVolume <==> VolumeOff(first.value, rows[i]))
      ensures readings == old(readings) + if first.Some? then [Reading(old(rows)[i], first.value)] else []
      ensures if first.Some? then Learns(old(learned), old(rows)[i], first.value, learned) else learned == old(learned)
      ensures Lesson(old(learned), old(readings), learned, readings, rows[i])
    {
      hide Inv, Venue.Valid, Taught, SeenExact, SeenClosed, Learns, Quiet, Lesson, Tidy;
      ghost var w := W();
      seen, first := None, None;
      NoLesson(learned, readings, rows[i]);
      var p := FirstRead(rows[i].pid.value);
      if p.Failure? {
        r := Failure(p.error);
      } else if p.value.None? {
        r := Success(Invisible);
      } else {
        QuietRow(w, W(), i);
        ghost var w1 := W();
        first := p.value;
        r, seen := ProtectSeen(i, p.value.value);
        QuietSteps(w, w1, W());
      }
    }

    /** The position is there: its scale is learned, its volume proved, its legs set. */
    method ProtectSeen(i: nat, p: Position) returns (r: Outcome<Verdict>, ghost seen: Option<Position>)
      requires Valid() && Free(i) && rows[i].state == Open && Some(p.pid) == rows[i].pid
      modifies this, venue
      ensures old(venue.log) <= venue.log
      ensures Valid() && Quiet(old(W()), W())
      ensures OnlyRow(old(rows), rows, i) && rows[i].pid == old(rows)[i].pid
      ensures rows[i].manual == old(rows)[i].manual && adopted == old(adopted) && orphans == old(orphans)
      ensures (rows[i].state == Open || rows[i].state == Closing)
      ensures r.Success? ==> Looked(r.value) && Answered(i, r.value, seen)
      ensures r.Success? ==> (r.value == ClosedVolume <==> VolumeOff(p, rows[i]))
      ensures readings == old(readings) + [Reading(old(rows)[i], p)] && Learns(old(learned), old(rows)[i], p, learned)
      ensures Lesson(old(learned), old(readings), learned, readings, rows[i])
    {
      hide Inv, Venue.Valid, Taught, Answered, Learns, Quiet, Lesson, Tidy, VolumeOff;
      ghost var w, known, t := W(), learned, rows[i];
      LearnFrom(i, p);
      ghost var w1 := W();
      r, seen := Secure(i, p);
      QuietSteps(w, w1, W());
      QuietRow(w, W(), i);
      OneLesson(known, w.readings, t, p, learned, readings, rows[i]);
    }

    method LearnFrom(i: nat, p: Position)
      requires Valid() && i < |rows|
      modifies this`learned, this`readings
      ensures Valid() && Quiet(old(W()), W())
      ensures readings == old(readings) + [Reading(rows[i], p)] && Learns(old(learned), rows[i], p, learned)
    {
      hide Inv, Venue.Valid, Taught, Learns;
      ghost var known := learned;
      LearnPointsScale(rows[i], p);
      NoteReading(i, p, known);
    }

    /** A volume that is off is closed at once; any other position gets its exact legs. */
    method Secure(i: nat, p: Position) returns (r: Outcome<Verdict>, ghost seen: Option<Position>)
      requires Valid() && Free(i) && rows[i].state == Open && Some(p.pid) == rows[i].pid
      modifies this`rows, this`kill, this`trace, venue
      ensures old(venue.log) <= venue.log
      ensures Valid() && Quiet(old(W()), W())
      ensures OnlyRow(old(rows), rows, i) && rows[i].pid == old(rows)[i].pid && rows[i].manual == old(rows)[i].manual
      ensures rows[i].state == Open || rows[i].state == Closing
      ensures r.Success? ==> Looked(r.value) && Answered(i, r.value, seen)
      ensures r.Success? ==> (r.value == ClosedVolume <==> VolumeOff(p, rows[i]))
    {
      hide Inv, Venue.Valid, Taught, SeenExact, SeenClosed, Quiet, OneMore;
      ghost var w := W();
      if VolumeOff(p, rows[i]) {
        seen := Some(p);
        var done := CloseAndTrip(i, p.volume, p);
        r := if done.Success? then Success(ClosedVolume) else Failure(done.error);
      } else {
        r, seen := Exactify(i, p);
      }
      QuietRow(w, W(), i);
    }

    /** The fill is off the order by more than a volume step. */
    predicate VolumeOff(p: Position, t: Row) {
      p.volume - t.volume > s.volumeStep(t.symbol) || t.volume - p.volume > s.volumeStep(t.symbol)
    }

    method AmendAndRead(i: nat, sl: Option<real>, tp: Option<real>) returns (r: Outcome<Option<Position>>)
      requires Valid() && Free(i) && rows[i].state == Open
      modifies this`rows, this`trace, venue
      ensures old(venue.log) <= venue.log
      ensures Valid() && Quiet(old(W()), W())
      ensures OnlyRow(old(rows), rows, i) && rows[i] == old(rows)[i].(lastAmendAt := rows[i].lastAmendAt)
      ensures r.Success? && r.value.Some? ==> Some(r.value.value.pid) == rows[i].pid
      ensures r.Success? ==> sl.Some? && tp.Some?
      ensures r.Success? ==> trace == old(trace) + [Sent(Amend(sl.value, tp.value), rows[i].pid.value, false)]
    {
      hide Inv, Venue.Valid, Taught, Quiet, Tidy;
      ghost var w := W();
      var sent := AmendPosition(i, sl, tp);
      if sent.Failure? && (sent.error.AuthError? || sent.error.Fault?) {
        r := Failure(sent.error);
      } else {
        ghost var w1 := W();
        StampAmend(i);
        ghost var w2 := W();
        r := Read(rows[i].pid.value);
        QuietSteps(w1, w2, W());
        QuietSteps(w, w1, W());
      }
    }

    method StampAmend(i: nat)
      requires Valid() && i < |rows| && rows[i].state == Open
      modifies this`rows
      ensures Valid() && Quiet(old(W()), W())
      ensures OnlyRow(old(rows), rows, i) && rows[i] == old(rows)[i].(lastAmendAt := rows[i].lastAmendAt)
    {
      hide Inv, Venue.Valid, Taught, Quiet;
      RowPidsOf(s.caps, W(), i);
      var at: int := *;
      Update(i, rows[i].(lastAmendAt := at));
    }

    method CloseAndTrip(i: nat, volume: nat, ghost seen: Position) returns (r: Outcome<()>)
      requires Valid() && Free(i) && rows[i].state == Open && seen.volume == volume
      modifies this`rows, this`kill, this`trace, venue
      ensures old(venue.log) <= venue.log
      ensures Valid() && Quiet(old(W()), W())
      ensures OnlyRow(old(rows), rows, i) && rows[i].pid == old(rows)[i].pid
      ensures r.Failure? ==> rows == old(rows) && kill == old(kill)
                             && trace == old(trace) + [Sent(Close(volume), rows[i].pid.value, false)]
      ensures r.Success? ==> kill && rows[i] == old(rows)[i].(state := Closing, closedAt := rows[i].closedAt)
      ensures r.Success? ==>
                trace == old(trace) + [Sent(Close(volume), rows[i].pid.value, false), Began(i, rows[i].closedAt)]
      ensures r.Success? ==> SeenClosed(i, Some(seen))
    {
      hide Inv, Venue.Valid, Taught;
      var done :- ClosePosition(i, volume);
      var now: Moment := *;
      Begin(i, now);
      kill := true;
      return Success(done);
    }

    /** Two amends with both legs, each read back; then the position is closed and the kill switch trips. */
    method Exactify(i: nat, first: Position) returns (r: Outcome<Verdict>, ghost seen: Option<Position>)
      requires Valid() && Free(i) && rows[i].state == Open && Some(first.pid) == rows[i].pid
      modifies this`rows, this`kill, this`trace, venue
      ensures old(venue.log) <= venue.log
      ensures Valid() && Quiet(old(W()), W())
      ensures OnlyRow(old(rows), rows, i) && rows[i].pid == old(rows)[i].pid && rows[i].manual == old(rows)[i].manual
      ensures rows[i].state == Open || rows[i].state == Closing
      ensures r.Success? ==> r.value == Opened || r.value == Vanished || r.value == ClosedVerification
      ensures r.Success? ==> Answered(i, r.value, seen)
      ensures r == Success(ClosedVerification) ==> |trace| == |old(trace)| + 4
    {
      hide Inv, Venue.Valid, Taught, SeenExact, SeenClosed, Quiet, Tidy;
      ghost var w := W();
      var verdict, volume;
      verdict, volume, seen := AmendTwice(i, first);
      if verdict.Failure? {
        r := Failure(verdict.error);
      } else if verdict.value.Some? {
        r := Success(verdict.value.value);
      } else {
        ghost var w1 := W();
        var done := CloseAndTrip(i, volume, seen.value);
        r := if done.Success? then Success(ClosedVerification) else Failure(done.error);
        QuietSteps(w, w1, W());
      }
    }

    /** Up to two attempts; None when neither was read back as planned. */
    method AmendTwice(i: nat, first: Position)
        returns (r: Outcome<Option<Verdict>>, volume: nat, ghost seen: Option<Position>)
      requires Valid() && Free(i) && rows[i].state == Open
      modifies this`rows, this`trace, venue
      ensures old(venue.log) <= venue.log
      ensures Valid() && Quiet(old(W()), W()) && OnlyRow(old(rows), rows, i) && Free(i)
      ensures rows[i].pid == old(rows)[i].pid && rows[i].manual == old(rows)[i].manual && rows[i].state == Open
      ensures r.Success? ==> r.value == None || r.value == Some(Opened) || r.value == Some(Vanished)
      ensures r == Success(Some(Opened)) ==> SeenExact(i, seen)
      ensures r == Success(None) ==> seen.Some? && volume == seen.value.volume && |trace| == |old(trace)| + 2
    {
      hide Inv, Venue.Valid, Taught, SeenExact, Quiet, Tidy;
      ghost var w := W();
      QuietStays(w);
      r, volume, seen := Success(None), first.volume, Some(first);
      var attempt := 0;
      while attempt < 2 && r == Success(None)
        invariant 0 <= attempt <= 2
        invariant Valid() && Quiet(w, W()) && OnlyRow(old(rows), rows, i) && Free(i)
        invariant rows[i].pid == old(rows)[i].pid && rows[i].manual == old(rows)[i].manual && rows[i].state == Open
        invariant r.Success? ==> r.value == None || r.value == Some(Opened) || r.value == Some(Vanished)
        invariant r == Success(Some(Opened)) ==> SeenExact(i, seen)
        invariant r == Success(None) ==>
                    seen.Some? && volume == seen.value.volume && |trace| == |old(trace)| + attempt
        invariant old(venue.log) <= venue.log
        modifies this`rows, this`trace, venue
      {
        ghost var w1 := W();
        r, volume, seen := AmendAndVerify(i);
        QuietSteps(w, w1, W());
        QuietRow(w1, W(), i);
        attempt := attempt + 1;
      }
    }

    /** The last thing done was the close of the whole volume seen; the kill switch is on and the trade is closing. */
    ghost predicate SeenClosed(i: nat, seen: Option<Position>)
      reads this
    {
      && i < |rows| && rows[i].pid.Some? && rows[i].state == Closing && kill && seen.Some?
      && |trace| >= 2 && trace[|trace| - 2] == Sent(Close(seen.value.volume), rows[i].pid.value, false)
      && trace[|trace| - 1] == Began(i, rows[i].closedAt)
    }

    /** The last thing done was the amend to the plan's legs, and the position read after it passes the check. */
    ghost predicate SeenExact(i: nat, seen: Option<Position>)
      reads this
    {
      && i < |rows| && rows[i].pid.Some? && rows[i].state == Open
      && seen.Some? && Some(seen.value.pid) == rows[i].pid
      && Verified(seen.value, rows[i], s.tick(rows[i].symbol))
      && trace != [] && trace[|trace| - 1]
         == Sent(Amend(rows[i].sl.value, rows[i].tpServer.value), rows[i].pid.value, false)
    }

    /** One attempt: Opened, Vanished, or None when the read-back differs from the plan. */
    method AmendAndVerify(i: nat)
        returns (r: Outcome<Option<Verdict>>, volume: nat, ghost seen: Option<Position>)
      requires Valid() && Free(i) && rows[i].state == Open
      modifies this`rows, this`trace, venue
      ensures old(venue.log) <= venue.log
      ensures Valid() && Quiet(old(W()), W()) && OnlyRow(old(rows), rows, i)
      ensures rows[i].pid == old(rows)[i].pid && rows[i].manual == old(rows)[i].manual && rows[i].state == Open
      ensures r.Success? ==> r.value == None || r.value == Some(Opened) || r.value == Some(Vanished)
      ensures r == Success(Some(Opened)) ==> SeenExact(i, seen)
      ensures r == Success(None) ==> seen.Some? && volume == seen.value.volume
      ensures r == Success(None) ==> rows[i] == old(rows)[i].(lastAmendAt := rows[i].lastAmendAt)
      ensures r == Success(None) ==>
                |trace| == |old(trace)| + 1 && !Verified(seen.value, rows[i], s.tick(rows[i].symbol))
    {
      hide Inv, Venue.Valid, Taught, Quiet, Tidy, Near;
      var t := rows[i];
      ghost var w := W();
      volume, seen := 0, None;
      var again :- AmendAndRead(i, t.sl, t.tpServer);
      if again.None? {
        return Success(Some(Vanished)), 0, None;
      }
      QuietRow(w, W(), i);
      volume, seen := again.value.volume, again;
      if !Verified(again.value, t, s.tick(t.symbol)) {
        return Success(None), volume, seen;
      }
      ghost var w1 := W();
      var v := TakeEntry(i, again.value.entry);
      QuietSteps(w, w1, W());
      r := if v.Success? then Success(Some(v.value)) else Failure(v.error);
    }

    /** "open": the entry as the venue reports it, and the risk it leaves. */
    method TakeEntry(i: nat, reported: Option<real>) returns (r: Outcome<Verdict>)
      requires Valid() && Free(i) && rows[i].state == Open && rows[i].sl.Some?
      modifies this`rows
      ensures Valid() && Quiet(old(W()), W()) && OnlyRow(old(rows), rows, i)
      ensures rows[i] == old(rows)[i].(entry := rows[i].entry, risk := rows[i].risk)
      ensures r.Failure? <==> reported.None? && old(rows)[i].entry.None?
      ensures r.Success? ==> rows[i].entry == if reported.Some? then reported else old(rows)[i].entry
      ensures r.Success? ==> r.value == Opened && rows[i].entry.Some?
                             && rows[i].risk == Some(Primitives.Abs(rows[i].entry.value - rows[i].sl.value))
    {
      hide Inv, Venue.Valid, Taught, Quiet;
      var entry := if reported.Some? then reported else rows[i].entry;
      QuietStays(W());
      if entry.None? {
        return Failure(Fault);
      }
      Update(i, rows[i].(entry := entry, risk := Some(Primitives.Abs(entry.value - rows[i].sl.value))));
      r := Success(Opened);
    }

    /** Row i's position was read for the first time, and its scale learned from that. */
    ghost method NoteReading(i: nat, p: Position, before: map<string, int>)
      requires venue.Valid() && Inv(s.caps, W()) && i < |rows|
      requires Taught(rows, readings, before, venue.digits, scale) && Learns(before, rows[i], p, learned)
      modifies this`readings
      ensures Valid() && Quiet(old(W()), W()) && readings == old(readings) + [Reading(rows[i], p)]
    {
      hide Inv, Venue.Valid, Learns;
      ReadingKeepsTaught(rows, i, p, readings, before, learned, venue.digits, scale);
      ReadingsKeepInv(s.caps, W(), readings + [Reading(rows[i], p)]);
      readings := readings + [Reading(rows[i], p)];
    }

    /** What a fill shows about the broker's scale is used for the orders after it. */
    method LearnPointsScale(t: Row, p: Position)
      modifies this`learned
      ensures Learns(old(learned), t, p, learned)
    {
      // no other power of ten can be within 25 % (Decode.OneScaleOff)
      if k: int :| -308 <= k <= 308 && Shows(t, p, k) {
        forall j | Shows(t, p, j)
          ensures j == k
        {
          Decode.OneScaleOff(Actual(p), Intended(t), j, k);
        }
        learned := learned[t.symbol := t.pointsDigits.value - k];
      }
    }

    // -------------------------------------------------------------- management

    method Manage(quotes: map<string, Quote>) returns (r: Outcome<()>)
      requires Valid()
      modifies this, venue
      ensures Valid() && Quiet(old(W()), W()) && |rows| == |old(rows)|
      ensures forall j :: 0 <= j < |rows| && (!Live(old(rows)[j].state) || old(rows)[j].state == Sending) ==>
                rows[j] == old(rows)[j]
      ensures !AnyOpen(old(rows)) ==> r == Success(()) && rows == old(rows) && trace == old(trace)
                                      && venue.log == old(venue.log)
      ensures r.Success? && AnyOpen(old(rows)) ==>
                old(venue.log) < venue.log && GoneAreClosing(old(rows), rows, venue.log[|old(venue.log)|])
    {
      hide Inv, Venue.Valid, Taught, Gone, Quiet;
      ghost var w := W();
      QuietStays(w);
      if !AnyOpen(rows) {
        r := Success(());
        return;
      }
      var snap :- Snapshot();
      ghost var w1 := W();
      r := ManageAll(rows, snap, quotes);
      QuietSteps(w, w1, W());
    }

    /** Every trade open at the start, against one snapshot. */
    method ManageAll(trades: seq<Row>, snap: seq<Position>, quotes: map<string, Quote>) returns (r: Outcome<()>)
      requires Valid() && trades == rows  // the open trades are selected once
      modifies this, venue
      ensures Valid() && Quiet(old(W()), W()) && old(venue.log) <= venue.log && |rows| == |trades|
      ensures forall j :: 0 <= j < |rows| && (!Live(trades[j].state) || trades[j].state == Sending) ==>
                rows[j] == trades[j]
      ensures r.Success? ==> forall j :: 0 <= j < |rows| && Gone(trades[j], snap) ==>
                rows[j].state == Closing || rows[j].state == Closed
    {
      hide Inv, Venue.Valid, Taught, Quiet, Labelled, WithPid;
      ghost var w := W();
      QuietStays(w);
      for i := 0 to |trades|
        invariant Valid() && Quiet(w, W()) && old(venue.log) <= venue.log
        invariant |rows| == |trades| && forall j :: i <= j < |trades| ==> rows[j] == trades[j]
        invariant forall j :: 0 <= j < |trades| && (!Live(trades[j].state) || trades[j].state == Sending) ==>
                    rows[j] == trades[j]
        invariant forall j :: 0 <= j < i && Gone(trades[j], snap) ==>
                    rows[j].state == Closing || rows[j].state == Closed
      {
        if Live(trades[i].state) && trades[i].state != Sending {
          ghost var w1 := W();
          var q := if trades[i].symbol in quotes then Some(quotes[trades[i].symbol]) else None;
          var done := ManageTrade(i, snap, q);
          QuietSteps(w, w1, W());
          if done.Failure? {
            return done;
          }
        }
      }
      r := Success(());
    }

    method ManageTrade(i: nat, snap: seq<Position>, q: Option<Quote>) returns (r: Outcome<()>)
      requires Valid() && i < |rows| && Live(rows[i].state) && rows[i].state != Sending
      modifies this, venue
      ensures Valid() && Quiet(old(W()), W()) && OnlyRow(old(rows), rows, i) && old(venue.log) <= venue.log
      ensures r.Success? && Gone(old(rows)[i], snap) ==> rows[i].state == Closing || rows[i].state == Closed
    {
      hide Inv, Venue.Valid, Taught, Labelled, Quiet;
      var now: Moment := *;
      var shown := Labelled(snap);
      var n := WithPid(shown, rows[i].pid);
      if n.Some? {
        r := ManageOne(i, shown[n.value], q, now);
      } else {
        ghost var deals;
        r, deals := HandleClosed(i, now);
      }
    }

    static predicate AnyOpen(rows: seq<Row>) {
      exists t :: t in rows && Live(t.state)
    }

    /** An open trade whose position the answer does not show. */
    static predicate Gone(t: Row, snap: seq<Position>) {
      Live(t.state) && t.state != Sending && WithPid(Labelled(snap), t.pid).None?
    }

    /** After a pass every trade whose position was gone is being settled. */
    static ghost predicate GoneAreClosing(before: seq<Row>, after: seq<Row>, asked: Message) {
      && asked.Shown? && asked.answer.Success? && |after| == |before|
      && forall j :: 0 <= j < |before| && Gone(before[j], asked.answer.value) ==>
           after[j].state == Closing || after[j].state == Closed
    }

    static predicate TargetHit(t: Row, q: Quote) {
      t.tp1.Some? && if t.side == Buy then q.bid >= t.tp1.value else q.ask <= t.tp1.value
    }

    /** Comparing a leg with a missing reference raises. */
    static function Differs(have: Option<real>, want: Option<real>, tick: real): Option<bool> {
      if have.None? then Some(true)
      else if want.None? then None
      else Some(!Near(have.value, want.value, tick))
    }

    /** A leg sits where neither the plan nor the manager put it, and the manager has not amended for a minute. */
    predicate OwnerMoved(t: Row, p: Position, now: Moment) {
      && (Differs(p.sl, if t.beDone then t.entry else t.sl, s.tick(t.symbol)) == Some(true)
          || Differs(p.tp, t.tpServer, s.tick(t.symbol)) == Some(true))
      && now.epoch - t.lastAmendAt > MANUAL_GRACE_S
    }

    /** What a pass makes of trade t when its position looks like p: the owner's legs are adopted and nothing is sent;
        else the first target is taken once, and the flags say so; else nothing happens. */
    predicate Passed(t: Row, p: Position, q: Option<Quote>, now: Moment, after: Row, events: seq<Event>)
      requires t.pid.Some?
    {
      if t.manual then after == t && events == []
      else if OwnerMoved(t, p, now) then after == t.(manual := true) && events == [Event.Manual(t.pid.value)]
      else events == TargetCommands(t, p, q) && after == if events == [] then t else Booked(t, after.lastAmendAt)
    }

    static function Booked(t: Row, at: int): Row {
      t.(partialDone := true, beDone := true, state := BreakEven, lastAmendAt := at)
    }

    /** One pass over one open trade. */
    method ManageOne(i: nat, p: Position, q: Option<Quote>, now: Moment) returns (r: Outcome<()>)
      requires Valid() && i < |rows| && Live(rows[i].state) && rows[i].state != Sending && rows[i].pid == Some(p.pid)
      modifies this, venue
      ensures old(venue.log) <= venue.log
      ensures Valid() && Quiet(old(W()), W()) && OnlyRow(old(rows), rows, i)
      ensures old(rows)[i].manual ==> rows == old(rows) && trace == old(trace)
      ensures r.Success? ==> Passed(old(rows)[i], p, q, now, rows[i], trace[|old(trace)|..])
      ensures rows[i].manual && !old(rows)[i].manual ==> OwnerMoved(old(rows)[i], p, now)
      ensures r.Failure? && trace != old(trace) ==>
                q.Some? && TargetHit(old(rows)[i], q.value) && !old(rows)[i].partialDone
                && !OwnerMoved(old(rows)[i], p, now)
    {
      hide Inv, Venue.Valid, Taught, Near, Quiet, Tidy;
      QuietStays(W());
      var t := rows[i];
      if t.manual {
        return Success(());  // the trade is the owner's now
      }
      var tick := s.tick(t.symbol);
      var slDiffers := Differs(p.sl, if t.beDone then t.entry else t.sl, tick);
      var tpDiffers := Differs(p.tp, t.tpServer, tick);
      if slDiffers.None? || (slDiffers == Some(false) && tpDiffers.None?) {
        r := Failure(Fault);
      } else if (slDiffers == Some(true) || tpDiffers == Some(true)) && now.epoch - t.lastAmendAt > MANUAL_GRACE_S {
        MarkManual(i);
        r := Success(());
      } else if t.partialDone || q.None? {
        r := Success(());
      } else if t.tp1.None? {
        r := Failure(Fault);
      } else if TargetHit(t, q.value) {
        r := TakeFirstTarget(i, p);
      } else {
        r := Success(());
      }
    }

    method MarkManual(i: nat)
      requires Valid() && i < |rows| && Live(rows[i].state) && rows[i].pid.Some?
      modifies this`rows, this`trace
      ensures old(venue.log) <= venue.log
      ensures Valid() && Quiet(old(W()), W())
      ensures rows == old(rows)[i := old(rows)[i].(manual := true)]
      ensures trace == old(trace) + [Manual(rows[i].pid.value)]
    {
      hide Inv, Venue.Valid, Taught;
      MarkManualKeepsInv(s.caps, W(), i);
      RowKeepsTaught(rows, i, rows[i].(manual := true), readings, learned, venue.digits, scale);
      trace := trace + [Event.Manual(rows[i].pid.value)];
      rows := rows[i := rows[i].(manual := true)];
    }

    /** int(volume x pct / 100), in whole steps */
    function PartialVolume(volume: nat, symbol: string): nat {
      var half := (volume as real * s.tp1ClosePct / 100.0).Floor;
      Decode.RoundVolumeStep(if half < 0 then 0 else half, s.volumeStep(symbol))
    }

    function PartialClose(p: Position, t: Row): seq<Event>
      requires t.pid.Some?
    {
      var vol := PartialVolume(p.volume, t.symbol);
      if 0 < vol < p.volume then [Sent(Close(vol), t.pid.value, false)] else []
    }

    function BreakEvenAmend(p: Position, t: Row): Event
      requires t.pid.Some? && t.entry.Some? && (p.tp.Some? || t.tpServer.Some?)
    {
      Sent(Amend(t.entry.value, if p.tp.Some? then p.tp.value else t.tpServer.value), t.pid.value, false)
    }

    /** What one pass sends for an unmarked trade: at the first target, unless the partial is booked. */
    function TargetCommands(t: Row, p: Position, q: Option<Quote>): seq<Event>
      requires t.pid.Some?
    {
      if t.partialDone || q.None? || !TargetHit(t, q.value) || t.entry.None? || (p.tp.None? && t.tpServer.None?) then []
      else PartialClose(p, t) + [BreakEvenAmend(p, t)]
    }

    /** The first target is reached: half goes, the stop moves to the entry. A failure in between leaves no flag. */
    method TakeFirstTarget(i: nat, p: Position) returns (r: Outcome<()>)
      requires Valid() && Free(i) && Live(rows[i].state) && rows[i].state != Sending
      modifies this`rows, this`trace, venue
      ensures old(venue.log) <= venue.log
      ensures Valid() && Quiet(old(W()), W()) && OnlyRow(old(rows), rows, i)
      ensures r.Success? ==> rows[i] == Booked(old(rows)[i], rows[i].lastAmendAt)
      ensures r.Success? ==> old(rows)[i].entry.Some? && (p.tp.Some? || old(rows)[i].tpServer.Some?)
      ensures r.Success? ==> trace == old(trace) + PartialClose(p, old(rows)[i]) + [BreakEvenAmend(p, old(rows)[i])]
      ensures r.Failure? ==> rows == old(rows)
      ensures !rows[i].manual || old(rows)[i].manual
    {
      hide Inv, Venue.Valid, Taught, PartialVolume, PartialClose, Quiet, Tidy;
      ghost var w := W();
      r := TakePartial(i, p);
      if r.Success? {
        QuietRow(w, W(), i);
        ghost var w1 := W();
        r := AmendPosition(i, rows[i].entry, if p.tp.Some? then p.tp else rows[i].tpServer);
        ghost var w2 := W();
        QuietSteps(w, w1, w2);
        if r.Success? {
          BookTarget(i);
          QuietSteps(w, w2, W());
        }
      }
    }

    method TakePartial(i: nat, p: Position) returns (r: Outcome<()>)
      requires Valid() && Free(i)
      modifies this`trace, venue
      ensures old(venue.log) <= venue.log
      ensures Valid() && Quiet(old(W()), W())
      ensures trace == old(trace) + PartialClose(p, rows[i])
    {
      hide Inv, Venue.Valid, Taught, PartialVolume, Quiet;
      var vol := PartialVolume(p.volume, rows[i].symbol);
      if 0 < vol < p.volume {
        r := ClosePosition(i, vol);
      } else {
        r := Success(());
        QuietStays(W());
      }
    }

    method BookTarget(i: nat)
      requires Valid() && i < |rows| && Live(rows[i].state) && rows[i].state != Sending
      modifies this`rows
      ensures Valid() && Quiet(old(W()), W()) && OnlyRow(old(rows), rows, i)
      ensures rows[i] == Booked(old(rows)[i], rows[i].lastAmendAt)
    {
      hide Inv, Venue.Valid, Taught, Quiet;
      var at: int := *;
      Update(i, Booked(rows[i], at));
    }

    /** Deals that can price the trade. */
    static predicate Priceable(t: Row, deals: seq<Deal>) {
      deals != [] && t.risk.Some? && t.risk.value != 0.0 && t.entry.Some?
    }

    /** The venue was asked once for the position's deals, and these are the closing ones it told. */
    static ghost predicate Reported(before: seq<Message>, log: seq<Message>, pid: Option<Pid>,
                                    answer: Outcome<seq<Deal>>,
                                    deals: seq<Deal>) {
      && pid.Some? && log == before + [Dealt(pid.value, answer)]
      && deals == if answer.Success? then ClosingDeals(answer.value) else []
    }

    static function Priced(t: Row, deals: seq<Deal>): Option<real> {
      if Priceable(t, deals) then ResultR(t.side, t.entry.value, t.risk.value, deals) else None
    }

    /** The position is gone: settle the trade from its closing deals, once; without them only after a minute. */
    method HandleClosed(i: nat, now: Moment) returns (r: Outcome<()>, ghost deals: seq<Deal>)
      requires Valid() && i < |rows| && Live(rows[i].state) && rows[i].state != Sending
      modifies this, venue
      ensures old(venue.log) <= venue.log
      ensures Valid() && Quiet(old(W()), W()) && OnlyRow(old(rows), rows, i)
      ensures (rows[i].state == Closing || rows[i].state == Closed) && rows[i].pid == old(rows)[i].pid
      ensures old(rows)[i].state == Closing && rows[i].state == Closing ==> rows[i] == old(rows)[i]
      ensures trace == old(trace) + (if old(rows)[i].state == Closing then [] else [Began(i, now.epoch)])
                                  + (if rows[i].state == Closed then [Settled(i, rows[i].result)] else [])
      ensures rows[i].state == Closed ==> rows[i].result == Priced(rows[i], deals)
      ensures rows[i].state == Closed ==>
                exists answer :: Reported(old(venue.log), venue.log, rows[i].pid, answer, deals)
      ensures rows[i].state == Closed && !Priceable(rows[i], deals) ==>
                && old(rows)[i].state == Closing && now.epoch - old(rows)[i].closedAt >= DEALS_LAG_S
                && BeganAt(old(trace), i, old(rows)[i].closedAt)
      ensures adopted == old(adopted) && orphans == old(orphans)
    {
      hide Inv, Venue.Valid, Taught, Quiet, Priceable, Priced, Reported, BeganAt;
      ghost var w := W();
      QuietStays(w);
      if rows[i].state != Closing {
        Begin(i, now);
      } else {
        BeganOf(i);
      }
      ghost var w1 := W();
      r, deals := SettleClosing(i, now);
      QuietSteps(w, w1, W());
    }

    /** Asked for the deals of a closing trade, the venue's answer settles it, or it goes on waiting. */
    method SettleClosing(i: nat, now: Moment) returns (r: Outcome<()>, ghost deals: seq<Deal>)
      requires Valid() && i < |rows| && rows[i].state == Closing
      modifies this, venue
      ensures old(venue.log) <= venue.log
      ensures Valid() && Quiet(old(W()), W()) && OnlyRow(old(rows), rows, i) && rows[i].pid == old(rows)[i].pid
      ensures rows[i] == old(rows)[i] || rows[i].state == Closed
      ensures trace == old(trace) + if rows[i].state == Closed then [Settled(i, rows[i].result)] else []
      ensures rows[i].state == Closed ==> rows[i].result == Priced(rows[i], deals)
      ensures rows[i].state == Closed ==>
                exists answer :: Reported(old(venue.log), venue.log, rows[i].pid, answer, deals)
      ensures rows[i].state == Closed && !Priceable(rows[i], deals) ==> now.epoch - old(rows)[i].closedAt >= DEALS_LAG_S
      ensures adopted == old(adopted) && orphans == old(orphans)
    {
      hide Inv, Venue.Valid, Taught, Quiet, ResultR;
      ghost var w := W();
      QuietStays(w);
      deals := [];
      var t := rows[i];
      if t.pid.None? {
        return Failure(Fault), [];  // int(None)
      }
      var answer := Deals(t.pid.value);
      if answer == Failure(Fault) {
        return Failure(Fault), [];
      }
      var found := if answer.Success? then ClosingDeals(answer.value) else [];
      deals := found;
      assert Reported(old(venue.log), venue.log, t.pid, answer, deals);
      if found != [] && t.risk.Some? && t.risk.value != 0.0 && t.entry.None? {
        return Failure(Fault), deals;
      }
      if !Priceable(t, found) && now.epoch - t.closedAt < DEALS_LAG_S {
        return Success(()), deals;  // the deals have not propagated yet: next loop
      }
      ghost var w1 := W();
      r := Settle(i, Priced(t, found), now);
      QuietSteps(w, w1, W());
    }

    lemma BeganOf(i: nat)
      requires Valid() && i < |rows| && rows[i].state == Closing
      ensures BeganAt(trace, i, rows[i].closedAt)
    {
    }

    method Deals(pid: Pid) returns (r: Outcome<seq<Deal>>)
      requires Valid()
      modifies venue
      ensures Valid() && Quiet(old(W()), W()) && venue.log == old(venue.log) + [Dealt(pid, r)]
    {
      hide Inv, Taught, Tidy;
      ghost var w := W();
      r := venue.DealsFor(pid);
      BrokerMoves(s.caps, w, venue.labelled);
    }

    /** CLOSED, then the breakers; a crash may fall between the two. */
    method Settle(i: nat, result: Option<real>, now: Moment) returns (r: Outcome<()>)
      requires Valid() && i < |rows| && Live(rows[i].state)
      modifies this`rows, this`trace, this`losses, this`kill, this`intact
      ensures Valid() && Quiet(old(W()), W())
      ensures rows == old(rows)[i := old(rows)[i].(state := Closed, result := result, closedAt := now.epoch)]
      ensures trace == old(trace) + [Settled(i, result)]
      ensures intact == (old(intact) && r.Success?)
      ensures r.Success? ==> losses == NextLosses(old(losses), result)
      ensures r.Success? && result.Some? && result.value < 0.0 ==>
                (losses >= s.maxConsecutiveLosses || DayLoss(rows, now.day) <= -s.dailyLossLimitR ==> kill)
    {
      hide Inv, Venue.Valid, Taught, Quiet, NextLosses, DayLoss;
      var crash: bool := *;
      var b := rows[i].(state := State.Closed, result := result, closedAt := now.epoch);
      ghost var w1 := Ledger.Settle(W(), i, b, !crash);
      SettleKeepsInv(s.caps, W(), i, b, !crash);
      RowKeepsTaught(rows, i, b, readings, learned, venue.digits, scale);
      trace := trace + [Settled(i, result)];
      rows := rows[i := b];
      intact := intact && !crash;
      if crash {
        r := Failure(Fault);
      } else {
        RecordResult(result, now);
        r := Success(());
      }
      assert W() == w1;
    }

    method RecordResult(result: Option<real>, now: Moment)
      modifies this`losses, this`kill
      ensures losses == NextLosses(old(losses), result)
      ensures old(kill) ==> kill
      ensures result.Some? && losses >= s.maxConsecutiveLosses ==> kill
      ensures result.Some? && DayLoss(rows, now.day) <= -s.dailyLossLimitR ==> kill
      ensures kill ==> old(kill) || (result.Some? && (losses >= s.maxConsecutiveLosses
                                                     || DayLoss(rows, now.day) <= -s.dailyLossLimitR))
    {
      if result.None? {
        return;
      }
      var n := losses;
      if result.value < 0.0 {
        n := n + 1;
      } else if result.value > 0.0 {
        n := 0;
      }
      losses := n;
      if n >= s.maxConsecutiveLosses {
        kill := true;
      }
      if DayLoss(rows, now.day) <= -s.dailyLossLimitR {
        kill := true;
      }
    }

    // -------------------------------------------------------------- reconciliation / flat

    /** The periodic comparison with the broker: every labelled position of the snapshot ends up on a row. */
    method Reconcile() returns (r: Outcome<()>, ghost seen: seq<Position>)
      requires Valid()
      modifies this, venue
      ensures old(venue.log) <= venue.log
      ensures Valid() && Quiet(old(W()), W())
      ensures r.Success? ==> old(venue.log) + [Shown(Success(seen))] <= venue.log
      ensures r.Success? ==> forall j :: 0 <= j < |seen| && seen[j].mapex ==> HoldsPid(rows, seen[j].pid)
    {
      hide Inv, Venue.Valid, Taught, Quiet, Tidy, SnapOf, CoveredByRows, AllHeld, HoldsPid;
      ghost var w := W();
      QuietStays(w);
      seen := [];
      var all :- Snapshot();
      seen := all;
      var snap := Labelled(all);
      SnapIs(snap, venue.labelled);
      ghost var w1 := W();
      var known := ReconcileTrades(snap);
      ghost var w2 := W();
      QuietSteps(w, w1, w2);
      if known.Failure? {
        return Failure(known.error), seen;
      }
      CoveredAll(rows, snap, known.value);
      r := ReconcilePositions(snap, known.value);
      QuietSteps(w, w2, W());
      if r.Success? {
        forall j | 0 <= j < |seen| && seen[j].mapex
          ensures HoldsPid(rows, seen[j].pid)
        {
          assert seen[j] in all;
          var k :| 0 <= k < |snap| && snap[k] == seen[j];
        }
      }
    }

    /** The open trades against the snapshot: adopt by comment, fail what never showed up, settle what is gone. */
    method ReconcileTrades(snap: seq<Position>) returns (r: Outcome<set<Pid>>)
      requires Valid() && SnapOf(snap, venue.labelled)
      modifies this, venue
      ensures old(venue.log) <= venue.log
      ensures Valid() && Quiet(old(W()), W()) && SnapOf(snap, venue.labelled)
      ensures r.Success? ==> AllHeld(r.value, rows)
      ensures r.Success? && Tidy(venue.labelled) ==> Covered(rows, |rows|, snap, r.value)
    {
      hide Inv, Venue.Valid, Taught, Quiet, SnapOf, Covered, AllHeld, SeenIn, Tidy;
      ghost var w := W();
      QuietStays(w);
      NothingCovered(rows, snap);
      var trades := rows;
      var known: set<Pid> := {};
      for i := 0 to |trades|
        invariant Valid() && Quiet(w, W()) && SnapOf(snap, venue.labelled)
        invariant |rows| == |trades| && forall j :: i <= j < |trades| ==> rows[j] == trades[j]
        invariant AllHeld(known, rows) && SeenIn(known, snap) && old(venue.log) <= venue.log
        invariant Tidy(venue.labelled) ==> Covered(rows, i, snap, known)
      {
        if Live(trades[i].state) {
          ghost var w1 := W();
          var more;
          ghost var verdict;
          more, verdict := ReconcileTrade(i, snap, known);
          QuietSteps(w, w1, W());
          if more.Failure? {
            return more;
          }
          known := more.value;
        } else {
          CoveredPast(rows, i, snap, known);
        }
      }
      r := Success(known);
    }

    /** No position matches the trade: a stale SENDING row fails, any other is settled. */
    method Unmatched(i: nat, now: Moment) returns (r: Outcome<()>)
      requires Valid() && i < |rows| && Live(rows[i].state)
      modifies this, venue
      ensures old(venue.log) <= venue.log
      ensures Valid() && Quiet(old(W()), W()) && OnlyRow(old(rows), rows, i) && rows[i].pid == old(rows)[i].pid
      ensures old(rows)[i].state == Sending ==> trace == old(trace)
      ensures old(rows)[i].state == Sending ==>
                (rows[i].state == Failed <==> now.epoch - old(rows)[i].openedAt.epoch > ADOPT_WINDOW_S)
      ensures old(rows)[i].state != Sending ==> rows[i].state == Closing || rows[i].state == Closed
    {
      hide Inv, Venue.Valid, Taught, Quiet;
      RowPidsOf(s.caps, W(), i);
      QuietStays(W());
      var t := rows[i];
      if t.state != Sending {
        ghost var deals;
        r, deals := HandleClosed(i, now);
        return;
      }
      if now.epoch - t.openedAt.epoch > ADOPT_WINDOW_S {
        Update(i, t.(state := Failed, closedAt := now.epoch));
      }
      r := Success(());
    }

    /** By position id first, else by comment. */
    static function OwnPosition(snap: seq<Position>, t: Row): (r: Option<nat>)
      ensures r.Some? ==> r.value < |snap| && (t.pid == Some(snap[r.value].pid) || snap[r.value].comment == t.key)
      ensures r.None? ==> forall j :: 0 <= j < |snap| ==> t.pid != Some(snap[j].pid) && snap[j].comment != t.key
      ensures r.Some? && t.pid.Some? && t.pid.value != snap[r.value].pid ==>
                forall j :: 0 <= j < |snap| ==> snap[j].pid != t.pid.value
    {
      var byPid := WithPid(snap, t.pid);
      if byPid.Some? then byPid else LastWithComment(snap, t.key)
    }

    /** `verdict` is what adopting the trade's position came to, if it had to be adopted. */
    method ReconcileTrade(i: nat, snap: seq<Position>, known: set<Pid>)
        returns (r: Outcome<set<Pid>>, ghost verdict: Option<Verdict>)
      requires Valid() && SnapOf(snap, venue.labelled) && i < |rows| && Live(rows[i].state)
      requires AllHeld(known, rows) && SeenIn(known, snap)
      requires Tidy(venue.labelled) ==> Covered(rows, i, snap, known)
      modifies this, venue
      ensures old(venue.log) <= venue.log
      ensures Valid() && Quiet(old(W()), W()) && SnapOf(snap, venue.labelled) && OnlyRow(old(rows), rows, i)
      ensures r.Success? ==> AllHeld(r.value, rows) && SeenIn(r.value, snap)
      ensures r.Success? && Tidy(venue.labelled) ==> Covered(rows, i + 1, snap, r.value)
      ensures r.Success? ==> var found := OwnPosition(snap, old(rows)[i]);
                if found.Some? then
                  && rows[i].pid == Some(snap[found.value].pid) && r.value == known + {snap[found.value].pid}
                  && (verdict.Some? <==> old(rows)[i].state == Sending || old(rows)[i].pid != rows[i].pid)
                else
                  && r.value == known && rows[i].pid == old(rows)[i].pid
                  && (old(rows)[i].state == Sending || rows[i].state == Closing || rows[i].state == Closed)
      ensures verdict.Some? ==> r.Success?
      ensures verdict == Some(Opened) ==> exists seen :: SeenExact(i, seen)
    {
      hide Inv, Venue.Valid, Taught, Quiet, SnapOf, Covered, AllHeld, SeenIn, Tidy, SeenExact, OwnPosition;
      ghost var w := W();
      var now: Moment := *;
      var known', done := known, Success(());
      verdict := None;
      var found := OwnPosition(snap, rows[i]);
      if found.Some? {
        SnapAt(snap, venue.labelled, found.value);
        done, verdict := Recognise(i, snap[found.value]);
        known' := known + {snap[found.value].pid};
      } else {
        done := Unmatched(i, now);
      }
      SnapStays(snap, w, W());
      if done.Failure? {
        return Failure(done.error), verdict;
      }
      QuietEvolves(w, W());
      assert known + {} == known;
      KnownGrows(w.rows, rows, i, snap, known, found);
      if Tidy(venue.labelled) {
        CoverStep(s.caps, w, i, rows, snap, known, found);
      }
      r := Success(known');
    }

    /** The position of live trade i: adopted unless the trade already holds it. */
    method Recognise(i: nat, p: Position) returns (r: Outcome<()>, ghost verdict: Option<Verdict>)
      requires Valid() && i < |rows| && Live(rows[i].state)
      requires p.pid in venue.labelled && venue.labelled[p.pid] == p.comment
      requires rows[i].pid == Some(p.pid) || p.comment == rows[i].key
      modifies this, venue
      ensures old(venue.log) <= venue.log
      ensures Valid() && Quiet(old(W()), W()) && OnlyRow(old(rows), rows, i) && rows[i].pid == Some(p.pid)
      ensures r.Success? ==> (verdict.Some? <==> old(rows)[i].state == Sending || old(rows)[i].pid != Some(p.pid))
      ensures verdict.Some? ==> r.Success?
      ensures verdict == Some(Opened) ==> exists seen :: SeenExact(i, seen)
    {
      hide Inv, Venue.Valid, Taught, Quiet, Tidy, SeenExact, Lesson, SeenClosed;
      RowPidsOf(s.caps, W(), i);
      QuietStays(W());
      r, verdict := Success(()), None;
      if rows[i].state == Sending || rows[i].pid != Some(p.pid) {
        if Tidy(venue.labelled) {
          ManualNeverReadopts(s.caps, W(), i, p.pid);
        }
        var answer;
        ghost var seen;
        answer, seen := AdoptAndProtect(i, p.pid, p.entry);
        if answer.Failure? {
          r := Failure(answer.error);
        } else {
          verdict := Some(answer.value);
        }
      }
    }

    /** The positions no open trade claimed: known rows, late fills of FAILED rows, orphans. */
    method ReconcilePositions(snap: seq<Position>, known: set<Pid>) returns (r: Outcome<()>)
      requires Valid() && SnapOf(snap, venue.labelled) && AllHeld(known, rows)
      requires Tidy(venue.labelled) ==> CoveredByRows(rows, snap)
      modifies this, venue
      ensures old(venue.log) <= venue.log
      ensures Valid() && Quiet(old(W()), W())
      ensures r.Success? ==> forall j :: 0 <= j < |snap| ==> HoldsPid(rows, snap[j].pid)
    {
      hide Inv, Venue.Valid, Taught;
      for n := 0 to |snap|
        invariant Valid() && Quiet(old(W()), W()) && SnapOf(snap, venue.labelled) && AllHeld(known, rows)
        invariant Tidy(venue.labelled) ==> CoveredByRows(rows, snap)
        invariant forall j :: 0 <= j < n ==> HoldsPid(rows, snap[j].pid)
        invariant old(venue.log) <= venue.log
      {
        if snap[n].pid !in known && !HoldsPid(rows, snap[n].pid) {
          var _ :- ReconcilePosition(snap, n);
        }
      }
      r := Success(());
    }

    method ReconcilePosition(snap: seq<Position>, n: nat) returns (r: Outcome<()>)
      requires Valid() && SnapOf(snap, venue.labelled) && n < |snap| && !HoldsPid(rows, snap[n].pid)
      requires Tidy(venue.labelled) ==> CoveredByRows(rows, snap)
      modifies this, venue
      ensures old(venue.log) <= venue.log
      ensures Valid() && Quiet(old(W()), W()) && SnapOf(snap, venue.labelled)
      ensures forall q: Pid :: HoldsPid(old(rows), q) ==> HoldsPid(rows, q)
      ensures r.Success? ==> HoldsPid(rows, snap[n].pid)
      ensures r.Success? && Tidy(venue.labelled) ==> CoveredByRows(rows, snap)
    {
      hide Inv, Venue.Valid, Taught, Quiet, SnapOf, CoveredByRows, Tidy, HoldsPid;
      var f := Find(rows, snap[n].comment);
      if f.Some? {
        KeyIsOnce(s.caps, W(), f.value);
      }
      if f.Some? && rows[f.value].state == Failed {
        // an order given up as FAILED has filled after all: the row takes its position
        r := AdoptLate(f.value, snap, n);
      } else {
        r := RecordOrphan(snap, n);
      }
    }

    method AdoptLate(f: nat, snap: seq<Position>, n: nat) returns (r: Outcome<()>)
      requires Valid() && SnapOf(snap, venue.labelled) && n < |snap| && !HoldsPid(rows, snap[n].pid)
      requires f < |rows| && rows[f].state == Failed && rows[f].key == snap[n].comment
      requires Tidy(venue.labelled) ==> CoveredByRows(rows, snap)
      modifies this, venue
      ensures old(venue.log) <= venue.log
      ensures Valid() && Quiet(old(W()), W()) && SnapOf(snap, venue.labelled)
      ensures forall q: Pid :: HoldsPid(old(rows), q) ==> HoldsPid(rows, q)
      ensures HoldsPid(rows, snap[n].pid)
      ensures Tidy(venue.labelled) ==> CoveredByRows(rows, snap)
    {
      hide Inv, Venue.Valid, Taught, Quiet, SnapOf, CoveredByRows, Tidy, Answered, Lesson;
      ghost var w := W();
      RowPidsOf(s.caps, w, f);
      KeyIsOnce(s.caps, w, f);
      SnapAt(snap, venue.labelled, n);
      var verdict;
      ghost var seen;
      verdict, seen := AdoptAndProtect(f, snap[n].pid, snap[n].entry);
      QuietEvolves(w, W());
      SnapStays(snap, w, W());
      HoldsKept(w.rows, rows, f);
      assert rows[f].pid == Some(snap[n].pid);
      if Tidy(venue.labelled) {
        CoverAdopted(w.rows, rows, f, snap, n, w.labelled);
      }
      r := if verdict.Success? then Success(()) else Failure(verdict.error);
    }

    /** The orphan's row says what the venue shows, under the comment if it names one that is free. */
    static predicate Records(r: Row, p: Position) {
      && r.pid == Some(p.pid) && r.symbol == p.symbol && r.side == p.side && r.volume == p.volume
      && r.sl == p.sl && r.tpServer == p.tp && r.entry == p.entry && r.manual && r.state == Open
      && (r.key == Orphan(p.pid) || (r.key == p.comment && p.comment != Text(""))) && r.pointsDigits.None?
    }

    method RecordOrphan(snap: seq<Position>, n: nat) returns (r: Outcome<()>)
      requires Valid() && SnapOf(snap, venue.labelled) && n < |snap| && !HoldsPid(rows, snap[n].pid)
      requires Tidy(venue.labelled) ==> CoveredByRows(rows, snap)
      requires forall m :: 0 <= m < |rows| && rows[m].key == snap[n].comment ==> rows[m].state != Failed
      modifies this
      ensures Valid() && Quiet(old(W()), W()) && SnapOf(snap, venue.labelled)
      ensures forall q: Pid :: HoldsPid(old(rows), q) ==> HoldsPid(rows, q)
      ensures r.Success? ==> HoldsPid(rows, snap[n].pid) && orphans == old(orphans) + 1
      ensures r.Success? ==> |rows| == |old(rows)| + 1 && rows[..|old(rows)|] == old(rows)
      ensures r.Success? ==> Records(rows[|old(rows)|], snap[n]) && !HasKey(old(rows), rows[|old(rows)|].key)
      ensures r.Failure? ==> rows == old(rows)
      ensures Tidy(venue.labelled) ==> CoveredByRows(rows, snap)
    {
      hide Inv, Venue.Valid, Taught, CoveredByRows, Tidy, OrphanRow, SnapOf;
      var p := snap[n];
      var key := if p.comment == Text("") then Orphan(p.pid) else p.comment;
      if HasKey(rows, key) {
        key := Orphan(p.pid);
      }
      if HasKey(rows, key) {
        return Failure(Fault);  // the key is taken
      }
      var now: Moment := *;
      InsertOrphan(Row(key, p.symbol, p.side, Open, Some(p.pid), p.volume, p.sl, p.tp, None, p.entry, None, true, false,
                       false, now, 0, 0, None, None, None), snap, n);
      r := Success(());
    }

    method InsertOrphan(row: Row, ghost snap: seq<Position>, ghost n: nat)
      requires Valid() && SnapOf(snap, venue.labelled) && n < |snap| && !HoldsPid(rows, snap[n].pid)
      requires Tidy(venue.labelled) ==> CoveredByRows(rows, snap)
      requires forall m :: 0 <= m < |rows| && rows[m].key == snap[n].comment ==> rows[m].state != Failed
      requires Records(row, snap[n]) && !HasKey(rows, row.key)
      requires row.key == snap[n].comment || snap[n].comment == Text("") || HasKey(rows, snap[n].comment)
      modifies this`rows, this`trace, this`orphans
      ensures Valid() && Quiet(old(W()), W())
      ensures rows == old(rows) + [row] && orphans == old(orphans) + 1
      ensures forall q: Pid :: HoldsPid(old(rows), q) ==> HoldsPid(rows, q)
      ensures HoldsPid(rows, snap[n].pid)
      ensures Tidy(venue.labelled) ==> CoveredByRows(rows, snap)
    {
      hide Inv, Venue.Valid, Taught, CoveredByRows, Tidy, OrphanRow;
      ghost var w, p := W(), snap[n].pid;
      UniqueKeysOf(s.caps, w);
      if Tidy(venue.labelled) {
        OrphanIsDue(s.caps, w, snap, n, row);
        CoverOrphan(rows, row, snap, n, venue.labelled);
      }
      InsertKeepsRest(rows, row);
      OrphanKeepsInv(s.caps, w, row, p);
      InsertKeepsTaught(rows, row, readings, learned, venue.digits, scale);
      rows := rows + [row];
      trace := trace + [Event.Manual(p)];
      orphans := orphans + 1;
      assert rows[|rows| - 1].pid == Some(p);
    }

    /** /flat: every MAPEX-labelled position seen is closed in full, and nothing else is touched. */
    method Flat() returns (r: Outcome<nat>, ghost seen: seq<Position>)
      requires Valid()
      modifies this`trace, venue
      ensures old(venue.log) <= venue.log
      ensures Valid() && Quiet(old(W()), W())
      ensures r.Success? ==> trace == old(trace) + FlatCloses(seen) && r.value == |FlatCloses(seen)|
      ensures r.Success? ==> old(venue.log) + [Shown(Success(seen))] <= venue.log
    {
      hide Inv, Venue.Valid, Taught, Quiet, FlatCloses;
      seen := [];
      ghost var w := W();
      var snap :- Snapshot();
      seen := snap;
      var n := 0;
      assert snap[..0] == [];
      NoCloses();
      for j := 0 to |snap|
        invariant Valid() && Quiet(w, W()) && seen == snap
        invariant forall k :: 0 <= k < |snap| && snap[k].mapex ==> snap[k].pid in venue.labelled
        invariant trace == old(trace) + FlatCloses(snap[..j]) && n == |FlatCloses(snap[..j])|
        invariant old(venue.log) + [Shown(Success(seen))] <= venue.log
      {
        FlatStep(snap, j);
        if snap[j].mapex {
          ghost var w1 := W();
          var done := FlatOne(snap[j]);
          QuietSteps(w, w1, W());
          QuietEvolves(w1, W());
          if done.Failure? {
            return Failure(done.error), seen;
          }
          n := n + 1;
        }
      }
      assert snap[..|snap|] == snap;
      r := Success(n);
    }

    method FlatOne(p: Position) returns (r: Outcome<()>)
      requires Valid() && p.pid in venue.labelled
      modifies this`trace, venue
      ensures Valid() && Quiet(old(W()), W())
      ensures trace == old(trace) + [Sent(Close(p.volume), p.pid, true)]
      ensures venue.log == old(venue.log) + [Commanded(p.pid, Close(p.volume))]
    {
      hide Inv, Taught, Tidy;
      SendKeepsInv(s.caps, W(), Close(p.volume), p.pid, true);
      trace := trace + [Sent(Close(p.volume), p.pid, true)];
      ghost var w := W();
      r := venue.Mutate(p.pid, Close(p.volume));
      BrokerMoves(s.caps, w, venue.labelled);
    }

    // -------------------------------------------------------------- the rest of a run

    /** guards.daily_roll past its once-a-day check. */
    method DailyRoll()
      requires Valid()
      modifies this`losses, this`trace
      ensures Valid() && Quiet(old(W()), W()) && losses == 0
    {
      hide Inv, Venue.Valid, Taught;
      RollKeepsInv(s.caps, W());
      losses := 0;
      trace := trace + [Rolled];
    }

    /** guards.resume */
    method Resume()
      requires Valid()
      modifies this`kill
      ensures Valid() && Quiet(old(W()), W()) && !kill
    {
      kill := false;
    }
  }

  datatype Step =
    | DoExecute(plan: Plan, order: Option<OrderArgs>, quote: Option<Quote>, c: Conditions, now: Moment)
    | DoManage(quotes: map<string, Quote>)
    | DoReconcile
    | DoFlat
    | DoRoll
    | DoResume

  predicate WellFormed(step: Step) {
    step.DoExecute? ==>
      step.plan.setupKey != "" && (step.order.Some? ==> step.order.value.comment == Text(step.plan.setupKey))
  }

  function Executions(steps: seq<Step>, n: nat): nat
    requires n <= |steps|
  {
    if n == 0 then 0 else Executions(steps, n - 1) + if steps[n - 1].DoExecute? then 1 else 0
  }

  /** One step; only execute opens a position, and at most one. */
  method Advance(tm: TradeManager, step: Step)
    requires tm.Valid() && WellFormed(step)
    modifies tm, tm.venue
    ensures tm.Valid() && Grows(old(tm.W()), tm.W())
    ensures |tm.venue.ours| <= |old(tm.venue.ours)| + if step.DoExecute? then 1 else 0
  {
    hide Inv, Venue.Valid, Taught;
    match step {
      case DoExecute(plan, order, quote, c, now) =>
        var verdict;
        ghost var seen;
        verdict, seen := tm.Execute(plan, order, quote, c, now);
      case DoManage(quotes) =>
        var _ := tm.Manage(quotes);
      case DoReconcile =>
        var r;
        ghost var seen;
        r, seen := tm.Reconcile();
      case DoFlat =>
        var count;
        ghost var seen;
        count, seen := tm.Flat();
      case DoRoll => tm.DailyRoll();
      case DoResume => tm.Resume();
    }
  }

  /** Any steps in any order, each cut short wherever an exception or a crash may fall, while the owner and the market
      act on the account. */
  method Run(tm: TradeManager, steps: seq<Step>)
    requires tm.Valid()
    requires forall k :: 0 <= k < |steps| ==> WellFormed(steps[k])
    modifies tm, tm.venue
    ensures tm.Valid() && Grows(old(tm.W()), tm.W())
    ensures forall k {:trigger OpenedFor(tm.W(), k)} :: |OpenedFor(tm.W(), k)| <= 1
    ensures OnlyLabelled(tm.trace, tm.venue.labelled)
    ensures Tidy(tm.venue.labelled) ==> HandsOff(tm.trace)
    ensures |tm.venue.ours| <= |old(tm.venue.ours)| + Executions(steps, |steps|)
    ensures Exposure(tm.s.caps, tm.W())
    ensures Consistent(tm.readings, tm.scale) ==> Knows(tm.readings, tm.learned, tm.venue.digits, tm.scale)
    ensures SettledOnce(tm.rows, tm.trace)
    ensures SinceReset(tm.trace, ResetPoint(tm.trace))
    ensures tm.intact ==> tm.losses == |LosingSince(tm.trace, ResetPoint(tm.trace))|
  {
    hide Inv, Venue.Valid, Taught;
    for k := 0 to |steps|
      invariant tm.Valid() && Grows(old(tm.W()), tm.W())
      invariant |tm.venue.ours| <= |old(tm.venue.ours)| + Executions(steps, k)
    {
      Advance(tm, steps[k]);
    }
    InvMeans(tm.s.caps, tm.W());
    TaughtMeans(tm.rows, tm.readings, tm.learned, tm.venue.digits, tm.scale);
  }

  /** Hands off rests on tidy comments: when the trade's own position is gone from the snapshot, the trade takes the
      position its owner holds and amends it. */
  method AmendsTheOwners(tm: TradeManager, snap: seq<Position>)
      returns (r: Outcome<set<Pid>>, ghost verdict: Option<Verdict>)
    requires tm.Valid() && tm.W() == Untidy() && HandsOff(tm.trace)
    requires |snap| == 1 && snap[0].pid == 2 && snap[0].comment == Text("k")
    modifies tm, tm.venue
    ensures |tm.rows| == 2 && (r.Success? ==> verdict.Some? && tm.rows[0].pid == Some(2))
    ensures verdict == Some(Opened) ==> !HandsOff(tm.trace)
  {
    hide Inv, Venue.Valid, Taught, Tidy;
    ghost var w := tm.W();
    NothingCovered(tm.rows, snap);
    r, verdict := tm.ReconcileTrade(0, snap, {});
    if verdict == Some(Opened) {
      ghost var n := |tm.trace| - 1;
      assert tm.trace[0] == w.trace[0] == Event.Manual(2);
      assert tm.trace[n].Sent? && !tm.trace[n].flat && tm.trace[n].pid == 2;
    }
  }
}
