/** The `trades` table of the store, and the values the order flow exchanges with the venue. */
module Trades {

  datatype Option<+T> = None | Some(value: T)

  /** The exceptions of the client and of Python itself that cross the order flow.
      `Fault` stands for everything nobody catches: a bug-class exception, a cancelled task, a process crash. */
  datatype Exn =
    | ToolError(orderType: bool)  // orderType: the text names MARKET_RANGE, orderType or slippage
    | TransportError
    | AuthError
    | Fault

  datatype Outcome<+T> = Success(value: T) | Failure(error: Exn) {
    predicate IsFailure() {
      Failure?
    }

    function PropagateFailure<U>(): Outcome<U>
      requires Failure?
    {
      Failure(error)
    }

    function Extract(): T
      requires Success?
    {
      value
    }
  }

  type Pid = nat

  datatype Side = Buy | Sell

  /** A comment or setup key: the text "ORPHAN-<pid>", or any other text. */
  datatype Key = Text(text: string) | Orphan(pid: Pid)

  /** Seconds since the epoch together with the New York trading day they fall on. */
  datatype Moment = Moment(epoch: int, day: int)

  datatype State = Sending | Open | BreakEven | Closing | Closed | Failed

  predicate Live(s: State) {
    s != Closed && s != Failed
  }

  datatype Row = Row(
    key: Key,
    symbol: string,
    side: Side,
    state: State,
    pid: Option<Pid>,
    volume: nat,
    sl: Option<real>,
    tpServer: Option<real>,
    tp1: Option<real>,
    entry: Option<real>,
    risk: Option<real>,
    manual: bool,
    partialDone: bool,
    beDone: bool,
    openedAt: Moment,
    closedAt: int,
    lastAmendAt: int,
    result: Option<real>,
    entryPlanned: Option<real>,
    pointsDigits: Option<int>)  // the scale build_order used for the relative stop

  /** One position as the venue reports it. */
  datatype Position = Position(
    pid: Pid,
    symbol: string,
    side: Side,
    volume: nat,
    entry: Option<real>,
    sl: Option<real>,
    tp: Option<real>,
    mapex: bool,  // its label is MAPEX
    comment: Key)

  /** The first read of a new position, and the trade as it was then. */
  datatype Reading = Reading(t: Row, p: Position)

  /** An amend always carries both legs. */
  datatype Command = Amend(sl: real, tp: real) | Close(volume: nat)

  /** The record of labelled positions only grows. */
  ghost predicate Extends(before: map<Pid, Key>, after: map<Pid, Key>) {
    forall p :: p in before ==> p in after && after[p] == before[p]
  }

  // ---------------------------------------------------------------- queries

  predicate HasKey(rows: seq<Row>, k: Key) {
    exists i :: 0 <= i < |rows| && rows[i].key == k
  }

  predicate HoldsPid(rows: seq<Row>, p: Pid) {
    exists i :: 0 <= i < |rows| && rows[i].pid == Some(p)
  }

  /** SELECT ... WHERE setup_key = k */
  function Find(rows: seq<Row>, k: Key): (r: Option<nat>)
    ensures r.None? <==> !HasKey(rows, k)
    ensures r.Some? ==> r.value < |rows| && rows[r.value].key == k
  {
    if rows == [] then None
    else
      var n := |rows| - 1;
      if rows[n].key == k then Some(n) else
        var r := Find(rows[..n], k);
        assert r.Some? ==> rows[r.value] == rows[..n][r.value];
        assert forall i :: 0 <= i < n ==> rows[i] == rows[..n][i];
        r
  }

  datatype Query = AnyOpen | OpenOn(symbol: string) | OnDay(day: int)

  predicate Matches(q: Query, r: Row) {
    match q
    case AnyOpen => Live(r.state)
    case OpenOn(s) => Live(r.state) && r.symbol == s
    case OnDay(d) => r.state != Failed && r.openedAt.day == d
  }

  /** SELECT COUNT(*) FROM trades WHERE q */
  function Count(rows: seq<Row>, q: Query): nat {
    if rows == [] then 0
    else Count(rows[..|rows| - 1], q) + if Matches(q, rows[|rows| - 1]) then 1 else 0
  }

  /** SUM(result_r) over the day's losing results. */
  function DayLoss(rows: seq<Row>, day: int): real {
    if rows == [] then 0.0
    else
      var r := rows[|rows| - 1];
      DayLoss(rows[..|rows| - 1], day) +
      if Matches(OnDay(day), r) && r.result.Some? && r.result.value < 0.0 then r.result.value else 0.0
  }

  lemma CountAppend(rows: seq<Row>, r: Row, q: Query)
    ensures Count(rows + [r], q) == Count(rows, q) + if Matches(q, r) then 1 else 0
  {
    assert (rows + [r])[..|rows|] == rows;
  }

  lemma {:induction false} CountUpdate(rows: seq<Row>, i: nat, r: Row, q: Query)
    requires i < |rows|
    ensures Count(rows[i := r], q) + (if Matches(q, rows[i]) then 1 else 0)
         == Count(rows, q) + (if Matches(q, r) then 1 else 0)
  {
    var n := |rows| - 1;
    if i == n {
      assert rows[i := r][..n] == rows[..n];
    } else {
      assert rows[i := r][..n] == rows[..n][i := r];
      CountUpdate(rows[..n], i, r, q);
    }
  }
}
