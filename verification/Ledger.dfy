/** What every reachable state of the order flow keeps: one snapshot of the database and of the broker's books,
    the invariants over it, and one lemma for each kind of write the order flow performs. */
module Ledger {
  import opened Trades

  /** The history the claims about whole runs speak of. */
  datatype Event =
    | Sent(cmd: Command, pid: Pid, flat: bool)   // an amend or close left for the venue
    | Manual(pid: Pid)                            // a trade on this position was marked manual
    | Began(id: nat, at: int)                     // row id became CLOSING at that reading of the clock
    | Settled(id: nat, result: Option<real>)      // row id became CLOSED with this result
    | Rolled                                      // the 17:05 roll

  datatype Caps = Caps(openTotal: nat, openPerSymbol: nat, tradesPerDay: nat)

  datatype World = World(
    rows: seq<Row>,
    labelled: map<Pid, Key>,  // every position ever opened with the MAPEX label, with its comment
    ours: set<Pid>,           // those opened by create_order
    trace: seq<Event>,
    readings: seq<Reading>,   // what the scale of relative points was learned from
    adopted: nat,             // FAILED rows adopted so far
    orphans: nat,             // orphans recorded so far
    losses: nat,              // kv consecutive_losses
    intact: bool)             // no crash fell between closing a trade and counting it

  // ---------------------------------------------------------------- the invariants

  /** Nobody else opens MAPEX-labelled positions that collide: non-empty comments are distinct, none is ORPHAN-<n>. */
  ghost predicate Tidy(labelled: map<Pid, Key>) {
    && (forall p :: p in labelled ==> labelled[p].Text?)
    && (forall p, q :: p in labelled && q in labelled && labelled[p] == labelled[q] && labelled[p] != Text("")
          ==> p == q)
  }

  ghost predicate UniqueKeys(rows: seq<Row>) {
    && (forall i, j :: 0 <= i < j < |rows| ==> rows[i].key != rows[j].key)
    && (forall i :: 0 <= i < |rows| ==> rows[i].key != Text(""))
  }

  ghost predicate OnePerSetup(labelled: map<Pid, Key>, ours: set<Pid>) {
    && ours <= labelled.Keys
    && (forall p, q :: p in ours && q in ours && labelled[p] == labelled[q] ==> p == q)
  }

  ghost predicate Claimed(w: World) {
    forall p :: p in w.ours && p in w.labelled ==> HasKey(w.rows, w.labelled[p])
  }

  /** Where a stored position id can come from. */
  ghost predicate RowPid(r: Row, labelled: map<Pid, Key>) {
    && (r.pid.Some? ==> r.pid.value in labelled
                        && (r.key == labelled[r.pid.value] || r.key == Orphan(r.pid.value)))
    && (r.state in {Sending, Failed} ==> r.pid.None?)
    && (r.manual ==> r.pid.Some?)
  }

  ghost predicate RowPids(rows: seq<Row>, labelled: map<Pid, Key>) {
    forall i :: 0 <= i < |rows| ==> RowPid(rows[i], labelled)
  }

  ghost predicate ClosedUnder(rows: seq<Row>, k: Key) {
    exists i :: 0 <= i < |rows| && rows[i].key == k && rows[i].state == Closed
  }

  /** A row ORPHAN-<p> holds p, is manual, and was made only because the comment's own row is done with. */
  ghost predicate OrphanRow(r: Row, rows: seq<Row>, labelled: map<Pid, Key>) {
    r.key.Orphan? ==>
      && r.pid == Some(r.key.pid)
      && r.manual
      && r.key.pid in labelled
      && (labelled[r.key.pid] == Text("") || ClosedUnder(rows, labelled[r.key.pid]))
  }

  ghost predicate OneHolder(rows: seq<Row>) {
    forall i, j :: 0 <= i < |rows| && 0 <= j < |rows| && rows[i].pid.Some? && rows[i].pid == rows[j].pid ==> i == j
  }

  ghost predicate Holders(rows: seq<Row>, labelled: map<Pid, Key>) {
    Tidy(labelled) ==>
      && OneHolder(rows)
      && (forall i :: 0 <= i < |rows| ==> OrphanRow(rows[i], rows, labelled))
  }

  ghost predicate OneSide(rows: seq<Row>) {
    forall i, j :: 0 <= i < |rows| && 0 <= j < |rows| && Live(rows[i].state) && Live(rows[j].state) ==>
      rows[i].symbol == rows[j].symbol ==> rows[i].side == rows[j].side
  }

  ghost predicate Exposure(caps: Caps, w: World) {
    && Count(w.rows, AnyOpen) <= caps.openTotal + w.adopted + w.orphans
    && (w.adopted + w.orphans == 0 ==>
          && (forall s :: Count(w.rows, OpenOn(s)) <= caps.openPerSymbol)
          && (forall d :: Count(w.rows, OnDay(d)) <= caps.tradesPerDay)
          && OneSide(w.rows))
  }

  ghost predicate ManualHolder(rows: seq<Row>, p: Pid) {
    exists i :: 0 <= i < |rows| && rows[i].pid == Some(p) && rows[i].manual
  }

  /** No amend or close for a position once its trade was marked manual, except by flat. */
  ghost predicate HandsOff(trace: seq<Event>) {
    forall m, n :: 0 <= m < n < |trace| && trace[m].Manual? && trace[n].Sent? && !trace[n].flat
                   ==> trace[m].pid != trace[n].pid
  }

  ghost predicate OnlyLabelled(trace: seq<Event>, labelled: map<Pid, Key>) {
    forall n :: 0 <= n < |trace| && trace[n].Sent? ==> trace[n].pid in labelled
  }

  ghost predicate Hands(w: World) {
    && OnlyLabelled(w.trace, w.labelled)
    && (Tidy(w.labelled) ==>
          && HandsOff(w.trace)
          && (forall n :: 0 <= n < |w.trace| && w.trace[n].Manual? ==> ManualHolder(w.rows, w.trace[n].pid)))
  }

  ghost predicate SettledIn(trace: seq<Event>, id: nat, result: Option<real>) {
    exists n :: 0 <= n < |trace| && trace[n] == Settled(id, result)
  }

  /** CLOSED rows and Settled events correspond one to one. */
  ghost predicate SettledOnce(rows: seq<Row>, trace: seq<Event>) {
    && (forall n :: 0 <= n < |trace| && trace[n].Settled? ==>
          trace[n].id < |rows| && rows[trace[n].id].state == Closed)
    && (forall m, n :: 0 <= m < n < |trace| && trace[m].Settled? && trace[n].Settled? ==> trace[m].id != trace[n].id)
    && (forall i :: 0 <= i < |rows| && rows[i].state == Closed ==> SettledIn(trace, i, rows[i].result))
  }

  /** guards.record_result on the counter. */
  function NextLosses(n: nat, result: Option<real>): nat {
    if result.None? then n
    else if result.value < 0.0 then n + 1
    else if result.value > 0.0 then 0
    else n
  }

  function Streak(trace: seq<Event>): nat {
    if trace == [] then 0
    else
      var before := Streak(trace[..|trace| - 1]);
      match trace[|trace| - 1]
      case Settled(_, r) => NextLosses(before, r)
      case Rolled => 0
      case _ => before
  }

  ghost predicate BeganAt(trace: seq<Event>, id: nat, at: int) {
    exists n :: 0 <= n < |trace| && trace[n] == Began(id, at)
  }

  /** A CLOSING row's closing time is a reading of the clock when it became CLOSING. */
  ghost predicate Begun(rows: seq<Row>, trace: seq<Event>) {
    forall i :: 0 <= i < |rows| && rows[i].state == Closing ==> BeganAt(trace, i, rows[i].closedAt)
  }

  ghost predicate Books(w: World) {
    && SettledOnce(w.rows, w.trace)
    && (w.intact ==> w.losses == Streak(w.trace))
  }

  ghost predicate Inv(caps: Caps, w: World) {
    && UniqueKeys(w.rows)
    && OnePerSetup(w.labelled, w.ours)
    && Claimed(w)
    && RowPids(w.rows, w.labelled)
    && Holders(w.rows, w.labelled)
    && Exposure(caps, w)
    && Hands(w)
    && Books(w)
    && Begun(w.rows, w.trace)
  }

  /** An empty table on a fresh account. */
  lemma EmptyKeepsInv(caps: Caps, w: World)
    requires w.rows == [] && w.labelled == map[] && w.ours == {} && w.trace == [] && w.losses == 0
    ensures Inv(caps, w)
  {
  }

  // ---------------------------------------------------------------- what a run never undoes

  predicate SameTrade(a: Row, b: Row) {
    && a.key == b.key && a.symbol == b.symbol && a.side == b.side && a.openedAt == b.openedAt
    && a.volume == b.volume && a.sl == b.sl && a.tpServer == b.tpServer && a.tp1 == b.tp1
    && a.entryPlanned == b.entryPlanned && a.pointsDigits == b.pointsDigits
  }

  /** Rows are never deleted or renamed, their plan never changes, CLOSED rows never change again, and manual is never
      taken back. */
  ghost predicate Evolves(before: seq<Row>, after: seq<Row>) {
    && |before| <= |after|
    && (forall i :: 0 <= i < |before| ==> SameTrade(before[i], after[i]))
    && (forall i :: 0 <= i < |before| && before[i].state == Closed ==> after[i] == before[i])
    && (forall i :: 0 <= i < |before| && before[i].manual ==> after[i].manual)
  }

  /** What any part of a run does to the table and to the broker's record. */
  ghost predicate Grows(a: World, b: World) {
    Evolves(a.rows, b.rows) && Extends(a.labelled, b.labelled) && a.trace <= b.trace && a.readings <= b.readings
  }

  /** And no order was filled. */
  ghost predicate Quiet(a: World, b: World) {
    Grows(a, b) && b.ours == a.ours
  }

  lemma QuietStays(w: World)
    ensures Quiet(w, w) && Grows(w, w)
  {
  }

  lemma QuietSteps(a: World, b: World, c: World)
    requires Quiet(a, b) && Quiet(b, c)
    ensures Quiet(a, c)
  {
  }

  lemma GrowsRow(a: World, b: World, i: nat)
    requires Grows(a, b) && i < |a.rows|
    ensures i < |b.rows| && SameTrade(a.rows[i], b.rows[i])
  {
  }

  lemma GrowsSteps(a: World, b: World, c: World)
    requires Quiet(a, b) && Grows(b, c)
    ensures Grows(a, c) && b.ours == a.ours
  {
  }

  /** An order may have been filled first. */
  lemma GrowsThenQuiet(a: World, b: World, c: World)
    requires Grows(a, b) && Quiet(b, c)
    ensures Grows(a, c) && c.ours == b.ours
  {
  }

  lemma QuietEvolves(a: World, b: World)
    requires Quiet(a, b)
    ensures Evolves(a.rows, b.rows) && Extends(a.labelled, b.labelled)
    ensures Tidy(b.labelled) ==> Tidy(a.labelled)
  {
    TidyEarlier(a.labelled, b.labelled);
  }

  lemma QuietRow(a: World, b: World, i: nat)
    requires Quiet(a, b) && i < |a.rows|
    ensures i < |b.rows| && SameTrade(a.rows[i], b.rows[i])
    ensures Tidy(b.labelled) ==> Tidy(a.labelled)
  {
    TidyEarlier(a.labelled, b.labelled);
  }

  lemma TidyEarlier(before: map<Pid, Key>, after: map<Pid, Key>)
    requires Extends(before, after)
    ensures Tidy(after) ==> Tidy(before)
  {
  }

  // ---------------------------------------------------------------- the broker's side moves

  lemma BrokerMoves(caps: Caps, w: World, labelled: map<Pid, Key>)
    requires Inv(caps, w) && Extends(w.labelled, labelled)
    ensures Inv(caps, w.(labelled := labelled))
  {
    TidyEarlier(w.labelled, labelled);
  }

  lemma ReadingsKeepInv(caps: Caps, w: World, readings: seq<Reading>)
    requires Inv(caps, w)
    ensures Inv(caps, w.(readings := readings))
  {
  }

  lemma OrderFilled(caps: Caps, w: World, labelled: map<Pid, Key>, p: Pid, i: nat)
    requires Inv(caps, w) && Extends(w.labelled, labelled)
    requires i < |w.rows| && p !in w.labelled && p in labelled && labelled[p] == w.rows[i].key
    requires forall q :: q in w.ours ==> w.labelled[q] != w.rows[i].key
    ensures Inv(caps, w.(labelled := labelled, ours := w.ours + {p}))
  {
    BrokerMoves(caps, w, labelled);
  }

  // ---------------------------------------------------------------- writes to the table

  /** An UPDATE that keeps the position id, the manual flag and whether the trade is settled. */
  ghost predicate Edits(a: Row, b: Row) {
    && SameTrade(a, b) && a.pid == b.pid && a.manual == b.manual
    && a.state != Closed && b.state != Closed
    && (b.state == Closing ==> a.state == Closing && b.closedAt == a.closedAt)
    && (Live(b.state) ==> Live(a.state))
    && (b.state in {Sending, Failed} ==> b.pid.None?)
  }

  lemma BeganPersists(trace: seq<Event>, more: seq<Event>, id: nat, at: int)
    requires BeganAt(trace, id, at)
    ensures BeganAt(trace + more, id, at)
  {
    var n :| 0 <= n < |trace| && trace[n] == Began(id, at);
    assert (trace + more)[n] == Began(id, at);
  }

  lemma UpdateKeepsBegun(rows: seq<Row>, trace: seq<Event>, more: seq<Event>, i: nat, b: Row)
    requires i < |rows| && Begun(rows, trace)
    requires b.state == Closing ==>
               (rows[i].state == Closing && b.closedAt == rows[i].closedAt) || more == [Began(i, b.closedAt)]
    ensures Begun(rows[i := b], trace + more)
  {
    var after := rows[i := b];
    forall j | 0 <= j < |after| && after[j].state == Closing
      ensures BeganAt(trace + more, j, after[j].closedAt)
    {
      if j == i && more == [Began(i, b.closedAt)] {
        assert (trace + more)[|trace|] == Began(i, b.closedAt);
      } else {
        BeganPersists(trace, more, j, rows[j].closedAt);
      }
    }
  }

  lemma EventsKeepBegun(rows: seq<Row>, trace: seq<Event>, more: seq<Event>)
    requires Begun(rows, trace)
    ensures Begun(rows, trace + more)
  {
    forall j | 0 <= j < |rows| && rows[j].state == Closing
      ensures BeganAt(trace + more, j, rows[j].closedAt)
    {
      BeganPersists(trace, more, j, rows[j].closedAt);
    }
  }

  /** The UPDATE that gives a trade the position its comment names. */
  ghost predicate Adopts(a: Row, b: Row, p: Pid, labelled: map<Pid, Key>) {
    && SameTrade(a, b) && a.manual == b.manual
    && a.state != Closed && b.state == Open
    && b.pid == Some(p) && p in labelled && labelled[p] == a.key
    && (Tidy(labelled) ==> !a.manual)
  }

  lemma UpdateKeepsRest(rows: seq<Row>, i: nat, b: Row)
    requires i < |rows| && SameTrade(rows[i], b) && rows[i].state != Closed && (rows[i].manual ==> b.manual)
    requires UniqueKeys(rows)
    ensures UniqueKeys(rows[i := b]) && Evolves(rows, rows[i := b])
    ensures forall k :: HasKey(rows, k) ==> HasKey(rows[i := b], k)
    ensures forall k :: ClosedUnder(rows, k) ==> ClosedUnder(rows[i := b], k)
  {
    var after := rows[i := b];
    forall k | HasKey(rows, k)
      ensures HasKey(after, k)
    {
      var j :| 0 <= j < |rows| && rows[j].key == k;
      assert after[j].key == k;
    }
    forall k | ClosedUnder(rows, k)
      ensures ClosedUnder(after, k)
    {
      var j :| 0 <= j < |rows| && rows[j].key == k && rows[j].state == Closed;
      assert after[j] == rows[j];
    }
  }

  lemma UpdateKeepsExposure(caps: Caps, w: World, i: nat, b: Row, adopted: nat)
    requires i < |w.rows| && SameTrade(w.rows[i], b)
    requires Exposure(caps, w)
    requires adopted >= w.adopted && (Live(b.state) ==> Live(w.rows[i].state) || adopted > w.adopted)
    requires b.state != Failed ==> w.rows[i].state != Failed || adopted > w.adopted
    ensures Exposure(caps, w.(rows := w.rows[i := b], adopted := adopted))
  {
    var a, after := w.rows[i], w.rows[i := b];
    CountUpdate(w.rows, i, b, AnyOpen);
    if adopted + w.orphans == 0 {
      forall s
        ensures Count(after, OpenOn(s)) <= caps.openPerSymbol
      {
        CountUpdate(w.rows, i, b, OpenOn(s));
      }
      forall d
        ensures Count(after, OnDay(d)) <= caps.tradesPerDay
      {
        CountUpdate(w.rows, i, b, OnDay(d));
      }
    }
  }

  lemma UpdateKeepsHands(w: World, i: nat, b: Row)
    requires i < |w.rows| && Hands(w)
    requires Tidy(w.labelled) && w.rows[i].manual ==> b.manual && b.pid == w.rows[i].pid
    ensures Hands(w.(rows := w.rows[i := b]))
  {
    var after := w.rows[i := b];
    if Tidy(w.labelled) {
      forall n | 0 <= n < |w.trace| && w.trace[n].Manual?
        ensures ManualHolder(after, w.trace[n].pid)
      {
        var j :| 0 <= j < |w.rows| && w.rows[j].pid == Some(w.trace[n].pid) && w.rows[j].manual;
        assert after[j].pid == Some(w.trace[n].pid) && after[j].manual;
      }
    }
  }

  /** An event that neither speaks of a manual trade nor commands a position. */
  lemma EventKeepsHands(w: World, e: Event)
    requires Hands(w) && !e.Manual? && !e.Sent?
    ensures Hands(w.(trace := w.trace + [e]))
  {
  }

  lemma ManualKeepsHands(w: World, p: Pid)
    requires Hands(w) && ManualHolder(w.rows, p)
    ensures Hands(w.(trace := w.trace + [Manual(p)]))
  {
  }

  lemma CommandKeepsHands(w: World, cmd: Command, p: Pid, flat: bool)
    requires Hands(w) && p in w.labelled && (Tidy(w.labelled) && !flat ==> !ManualHolder(w.rows, p))
    ensures Hands(w.(trace := w.trace + [Sent(cmd, p, flat)]))
  {
    var trace := w.trace + [Sent(cmd, p, flat)];
    if Tidy(w.labelled) && !flat {
      forall m | 0 <= m < |w.trace| && w.trace[m].Manual?
        ensures w.trace[m].pid != p
      {
        assert ManualHolder(w.rows, w.trace[m].pid);
      }
    }
  }

  lemma UpdateKeepsBooks(w: World, i: nat, b: Row)
    requires i < |w.rows| && Books(w) && w.rows[i].state != Closed && b.state != Closed
    ensures Books(w.(rows := w.rows[i := b]))
  {
  }

  lemma UpdateKeepsClaims(w: World, i: nat, b: Row)
    requires i < |w.rows| && SameTrade(w.rows[i], b) && Claimed(w)
    ensures Claimed(w.(rows := w.rows[i := b]))
  {
    var after := w.rows[i := b];
    forall p | p in w.ours && p in w.labelled
      ensures HasKey(after, w.labelled[p])
    {
      var j :| 0 <= j < |w.rows| && w.rows[j].key == w.labelled[p];
      assert after[j].key == w.labelled[p];
    }
  }

  lemma EditKeepsHolders(rows: seq<Row>, labelled: map<Pid, Key>, i: nat, b: Row)
    requires i < |rows| && Holders(rows, labelled) && UniqueKeys(rows)
    requires SameTrade(rows[i], b) && rows[i].pid == b.pid && (rows[i].manual ==> b.manual) && rows[i].state != Closed
    ensures Holders(rows[i := b], labelled)
  {
    UpdateKeepsRest(rows, i, b);
    var after := rows[i := b];
    if Tidy(labelled) {
      forall j | 0 <= j < |after|
        ensures OrphanRow(after[j], after, labelled)
      {
        assert OrphanRow(rows[j], rows, labelled);
      }
    }
  }

  lemma EditKeepsInv(caps: Caps, w: World, i: nat, b: Row)
    requires Inv(caps, w) && i < |w.rows| && Edits(w.rows[i], b)
    ensures Inv(caps, w.(rows := w.rows[i := b])) && Evolves(w.rows, w.rows[i := b])
  {
    UpdateKeepsRest(w.rows, i, b);
    UpdateKeepsClaims(w, i, b);
    EditKeepsHolders(w.rows, w.labelled, i, b);
    UpdateKeepsExposure(caps, w, i, b, w.adopted);
    UpdateKeepsHands(w, i, b);
    UpdateKeepsBooks(w, i, b);
    UpdateKeepsBegun(w.rows, w.trace, [], i, b);
    assert w.trace + [] == w.trace;
    assert RowPid(w.rows[i], w.labelled);
  }

  /** The row becomes CLOSING, and since when is on record. */
  lemma BeginKeepsInv(caps: Caps, w: World, i: nat, b: Row)
    requires Inv(caps, w) && i < |w.rows| && Live(w.rows[i].state)
    requires b == w.rows[i].(state := Closing, closedAt := b.closedAt)
    ensures Inv(caps, w.(rows := w.rows[i := b], trace := w.trace + [Began(i, b.closedAt)]))
    ensures Evolves(w.rows, w.rows[i := b])
  {
    hide Holders, Hands, Books, Begun, UniqueKeys, Tidy, NextLosses, Count, OneSide, HasKey, Evolves;
    UpdateKeepsRest(w.rows, i, b);
    UpdateKeepsClaims(w, i, b);
    EditKeepsHolders(w.rows, w.labelled, i, b);
    UpdateKeepsExposure(caps, w, i, b, w.adopted);
    UpdateKeepsHands(w, i, b);
    EventKeepsHands(w.(rows := w.rows[i := b]), Began(i, b.closedAt));
    UpdateKeepsBooks(w, i, b);
    EventKeepsBooks(w.(rows := w.rows[i := b]), Began(i, b.closedAt));
    UpdateKeepsBegun(w.rows, w.trace, [Began(i, b.closedAt)], i, b);
    assert RowPid(w.rows[i], w.labelled);
  }

  lemma AdoptKeepsHolders(rows: seq<Row>, labelled: map<Pid, Key>, i: nat, b: Row, p: Pid)
    requires i < |rows| && UniqueKeys(rows) && RowPids(rows, labelled) && Holders(rows, labelled)
    requires Adopts(rows[i], b, p, labelled)
    ensures Holders(rows[i := b], labelled)
  {
    UpdateKeepsRest(rows, i, b);
    var after := rows[i := b];
    if Tidy(labelled) {
      // whoever else held p would be ORPHAN-p, whose comment's own row is CLOSED: but that row is i
      forall j | 0 <= j < |rows| && rows[j].pid == Some(p)
        ensures j == i
      {
        assert RowPid(rows[j], labelled);
        assert OrphanRow(rows[j], rows, labelled);
      }
      forall j | 0 <= j < |after|
        ensures OrphanRow(after[j], after, labelled)
      {
        assert OrphanRow(rows[j], rows, labelled);
      }
    }
  }

  lemma AdoptKeepsInv(caps: Caps, w: World, i: nat, b: Row, p: Pid, adopted: nat)
    requires Inv(caps, w) && i < |w.rows| && Adopts(w.rows[i], b, p, w.labelled)
    requires adopted == w.adopted + if w.rows[i].state == Failed then 1 else 0
    ensures Inv(caps, w.(rows := w.rows[i := b], adopted := adopted)) && Evolves(w.rows, w.rows[i := b])
  {
    UpdateKeepsRest(w.rows, i, b);
    UpdateKeepsClaims(w, i, b);
    AdoptKeepsHolders(w.rows, w.labelled, i, b, p);
    UpdateKeepsExposure(caps, w, i, b, adopted);
    UpdateKeepsHands(w, i, b);
    UpdateKeepsBooks(w, i, b);
    UpdateKeepsBegun(w.rows, w.trace, [], i, b);
    assert w.trace + [] == w.trace;
    assert RowPid(w.rows[i], w.labelled);
  }

  lemma MarkManualKeepsInv(caps: Caps, w: World, i: nat)
    requires Inv(caps, w) && i < |w.rows| && Live(w.rows[i].state) && w.rows[i].pid.Some?
    ensures Inv(caps, w.(rows := w.rows[i := w.rows[i].(manual := true)],
                         trace := w.trace + [Manual(w.rows[i].pid.value)]))
    ensures Evolves(w.rows, w.rows[i := w.rows[i].(manual := true)])
  {
    hide Holders, Hands, Books, Begun, UniqueKeys, Tidy, NextLosses, Count, OneSide, HasKey, Evolves;
    var b := w.rows[i].(manual := true);
    var p := w.rows[i].pid.value;
    UpdateKeepsRest(w.rows, i, b);
    UpdateKeepsClaims(w, i, b);
    EditKeepsHolders(w.rows, w.labelled, i, b);
    UpdateKeepsExposure(caps, w, i, b, w.adopted);
    UpdateKeepsHands(w, i, b);
    UpdateKeepsBooks(w, i, b);
    assert RowPid(w.rows[i], w.labelled);
    var w1 := w.(rows := w.rows[i := b]);
    assert w1.rows[i].pid == Some(p) && w1.rows[i].manual;
    ManualKeepsHands(w1, p);
    EventKeepsBooks(w1, Manual(p));
    UpdateKeepsBegun(w.rows, w.trace, [Manual(p)], i, b);
  }

  lemma RowPidsOf(caps: Caps, w: World, i: nat)
    requires Inv(caps, w) && i < |w.rows|
    ensures RowPid(w.rows[i], w.labelled)
  {
  }

  lemma SettledPersists(trace: seq<Event>, e: Event, id: nat, result: Option<real>)
    requires SettledIn(trace, id, result)
    ensures SettledIn(trace + [e], id, result)
  {
    var n :| 0 <= n < |trace| && trace[n] == Settled(id, result);
    assert (trace + [e])[n] == Settled(id, result);
  }

  lemma EventKeepsBooks(w: World, e: Event)
    requires Books(w) && (e.Manual? || e.Sent? || e.Began?)
    ensures Books(w.(trace := w.trace + [e]))
  {
    var trace := w.trace + [e];
    assert trace[..|w.trace|] == w.trace;
    forall i | 0 <= i < |w.rows| && w.rows[i].state == Closed
      ensures SettledIn(trace, i, w.rows[i].result)
    {
      SettledPersists(w.trace, e, i, w.rows[i].result);
    }
  }

  /** Any amend or close to a labelled position; outside flat, to one no manual trade holds. */
  lemma SendKeepsInv(caps: Caps, w: World, cmd: Command, p: Pid, flat: bool)
    requires Inv(caps, w) && p in w.labelled
    requires Tidy(w.labelled) && !flat ==> !ManualHolder(w.rows, p)
    ensures Inv(caps, w.(trace := w.trace + [Sent(cmd, p, flat)]))
  {
    CommandKeepsHands(w, cmd, p, flat);
    EventKeepsBooks(w, Sent(cmd, p, flat));
    EventsKeepBegun(w.rows, w.trace, [Sent(cmd, p, flat)]);
  }

  /** A trade that is not manual shares its position with no manual trade. */
  lemma NotManualHeld(caps: Caps, w: World, i: nat)
    requires Inv(caps, w) && i < |w.rows| && w.rows[i].pid.Some? && !w.rows[i].manual && Tidy(w.labelled)
    ensures !ManualHolder(w.rows, w.rows[i].pid.value)
  {
    assert OneHolder(w.rows);
  }

  /** Row i is closed as b; its result is counted unless a crash falls in between. */
  ghost function Settle(w: World, i: nat, b: Row, counted: bool): World
    requires i < |w.rows|
  {
    w.(rows := w.rows[i := b], trace := w.trace + [Settled(i, b.result)],
       losses := if counted then NextLosses(w.losses, b.result) else w.losses,
       intact := w.intact && counted)
  }

  lemma SettleKeepsInv(caps: Caps, w: World, i: nat, b: Row, counted: bool)
    requires Inv(caps, w) && i < |w.rows| && Live(w.rows[i].state)
    requires SameTrade(w.rows[i], b) && b.pid == w.rows[i].pid && b.manual == w.rows[i].manual && b.state == Closed
    ensures Inv(caps, Settle(w, i, b, counted)) && Quiet(w, Settle(w, i, b, counted))
  {
    hide Holders, HandsOff, OnlyLabelled, ManualHolder, Books, Begun, UniqueKeys, Tidy, NextLosses, Count, OneSide,
         HasKey, Evolves;
    UpdateKeepsRest(w.rows, i, b);
    UpdateKeepsClaims(w, i, b);
    EditKeepsHolders(w.rows, w.labelled, i, b);
    UpdateKeepsExposure(caps, w, i, b, w.adopted);
    UpdateKeepsHands(w, i, b);
    EventKeepsHands(w.(rows := w.rows[i := b]), Settled(i, b.result));
    SettleKeepsBooks(w, i, b, counted);
    UpdateKeepsBegun(w.rows, w.trace, [Settled(i, b.result)], i, b);
    assert RowPid(w.rows[i], w.labelled);
  }

  lemma SettleKeepsBooks(w: World, i: nat, b: Row, counted: bool)
    requires Books(w) && i < |w.rows| && w.rows[i].state != Closed && b.state == Closed
    ensures Books(Settle(w, i, b, counted))
  {
    var after, trace := w.rows[i := b], w.trace + [Settled(i, b.result)];
    assert trace[..|w.trace|] == w.trace;
    assert trace[|w.trace|] == Settled(i, b.result);
    forall j | 0 <= j < |after| && after[j].state == Closed
      ensures SettledIn(trace, j, after[j].result)
    {
      if j != i {
        SettledPersists(w.trace, Settled(i, b.result), j, w.rows[j].result);
      }
    }
  }

  lemma RollKeepsInv(caps: Caps, w: World)
    requires Inv(caps, w)
    ensures Inv(caps, w.(trace := w.trace + [Rolled], losses := 0))
  {
    hide Holders, HandsOff, OnlyLabelled, ManualHolder, Books, Begun, UniqueKeys, Tidy, Count, OneSide, HasKey;
    EventKeepsHands(w, Rolled);
    EventsKeepBegun(w.rows, w.trace, [Rolled]);
    RollKeepsBooks(w);
  }

  lemma RollKeepsBooks(w: World)
    requires Books(w)
    ensures Books(w.(trace := w.trace + [Rolled], losses := 0))
  {
    var trace := w.trace + [Rolled];
    assert trace[..|w.trace|] == w.trace;
    forall i | 0 <= i < |w.rows| && w.rows[i].state == Closed
      ensures SettledIn(trace, i, w.rows[i].result)
    {
      SettledPersists(w.trace, Rolled, i, w.rows[i].result);
    }
  }

  // ---------------------------------------------------------------- reconciliation

  /** Under tidy comments a manual trade never meets a second position under its key. */
  lemma ManualNeverReadopts(caps: Caps, w: World, i: nat, p: Pid)
    requires Inv(caps, w) && i < |w.rows| && p in w.labelled && w.labelled[p] == w.rows[i].key
    requires Tidy(w.labelled) && w.rows[i].pid != Some(p)
    ensures !w.rows[i].manual
  {
    assert RowPid(w.rows[i], w.labelled);
  }

  ghost predicate SnapOf(snap: seq<Position>, labelled: map<Pid, Key>) {
    forall j :: 0 <= j < |snap| ==> snap[j].pid in labelled && labelled[snap[j].pid] == snap[j].comment
  }

  ghost predicate AllHeld(pids: set<Pid>, rows: seq<Row>) {
    forall q :: q in pids ==> HoldsPid(rows, q)
  }

  ghost predicate SeenIn(pids: set<Pid>, snap: seq<Position>) {
    forall q :: q in pids ==> exists j :: 0 <= j < |snap| && snap[j].pid == q
  }

  /** Every position that names one of the first n trades, while that trade is live, is in `pids`. */
  ghost predicate Covered(rows: seq<Row>, n: nat, snap: seq<Position>, pids: set<Pid>) {
    forall m, j :: 0 <= m < n && m < |rows| && 0 <= j < |snap| && Live(rows[m].state) ==>
      rows[m].key == snap[j].comment ==> snap[j].pid in pids
  }

  ghost predicate CoveredByRows(rows: seq<Row>, snap: seq<Position>) {
    forall m, j :: 0 <= m < |rows| && 0 <= j < |snap| && Live(rows[m].state) ==>
      rows[m].key == snap[j].comment ==> HoldsPid(rows, snap[j].pid)
  }

  ghost predicate OnlyRow(before: seq<Row>, after: seq<Row>, i: nat) {
    |after| == |before| && forall j :: 0 <= j < |before| && j != i ==> after[j] == before[j]
  }

  lemma NothingCovered(rows: seq<Row>, snap: seq<Position>)
    ensures AllHeld({}, rows) && SeenIn({}, snap) && Covered(rows, 0, snap, {})
  {
  }

  lemma CoveredPast(rows: seq<Row>, i: nat, snap: seq<Position>, known: set<Pid>)
    requires i < |rows| && !Live(rows[i].state)
    ensures Covered(rows, i, snap, known) ==> Covered(rows, i + 1, snap, known)
  {
  }

  lemma SnapIs(snap: seq<Position>, labelled: map<Pid, Key>)
    requires forall j :: 0 <= j < |snap| ==> snap[j].pid in labelled && labelled[snap[j].pid] == snap[j].comment
    ensures SnapOf(snap, labelled)
  {
  }

  lemma CoveredAll(rows: seq<Row>, snap: seq<Position>, pids: set<Pid>)
    requires AllHeld(pids, rows)
    ensures Covered(rows, |rows|, snap, pids) ==> CoveredByRows(rows, snap)
  {
    hide HoldsPid;
  }

  lemma SnapAt(snap: seq<Position>, labelled: map<Pid, Key>, n: nat)
    requires SnapOf(snap, labelled) && n < |snap|
    ensures snap[n].pid in labelled && labelled[snap[n].pid] == snap[n].comment
  {
  }

  /** What was held stays held, and so does the position just found. */
  lemma KnownGrows(before: seq<Row>, after: seq<Row>, i: nat, snap: seq<Position>, known: set<Pid>, found: Option<nat>)
    requires i < |before| && OnlyRow(before, after, i) && AllHeld(known, before) && SeenIn(known, snap)
    requires found.Some? ==> found.value < |snap| && after[i].pid == Some(snap[found.value].pid)
    requires found.None? ==> after[i].pid == before[i].pid
    requires before[i].pid.Some? && after[i].pid != before[i].pid ==>
               forall j :: 0 <= j < |snap| ==> snap[j].pid != before[i].pid.value
    ensures var more := known + if found.Some? then {snap[found.value].pid} else {};
            AllHeld(more, after) && SeenIn(more, snap)
  {
    HeldKept(before, after, i, known);
  }

  lemma SnapStays(snap: seq<Position>, a: World, b: World)
    requires SnapOf(snap, a.labelled) && Quiet(a, b)
    ensures SnapOf(snap, b.labelled)
  {
  }

  lemma HeldKept(before: seq<Row>, after: seq<Row>, i: nat, pids: set<Pid>)
    requires i < |before| && OnlyRow(before, after, i)
    requires before[i].pid.None? || after[i].pid == before[i].pid || before[i].pid.value !in pids
    requires AllHeld(pids, before)
    ensures AllHeld(pids, after)
  {
    forall q | q in pids
      ensures HoldsPid(after, q)
    {
      var j :| 0 <= j < |before| && before[j].pid == Some(q);
      assert after[j].pid == Some(q);
    }
  }

  lemma HoldsKept(before: seq<Row>, after: seq<Row>, i: nat)
    requires i < |before| && OnlyRow(before, after, i)
    requires before[i].pid.None? || after[i].pid == before[i].pid
    ensures forall q: Pid :: HoldsPid(before, q) ==> HoldsPid(after, q)
  {
    forall q: Pid | HoldsPid(before, q)
      ensures HoldsPid(after, q)
    {
      HeldKept(before, after, i, {q});
    }
  }

  /** Under tidy comments the position whose comment is trade i's key is the one the lookup finds. */
  lemma CoverStep(caps: Caps, w: World, i: nat, after: seq<Row>, snap: seq<Position>, known: set<Pid>,
                  found: Option<nat>)
    requires Inv(caps, w) && i < |w.rows| && SnapOf(snap, w.labelled) && Tidy(w.labelled)
    requires Evolves(w.rows, after) && OnlyRow(w.rows, after, i)
    requires Covered(w.rows, i, snap, known)
    requires found.Some? ==> found.value < |snap|
    requires found.Some? ==> w.rows[i].pid == Some(snap[found.value].pid)
                             || snap[found.value].comment == w.rows[i].key
    requires found.None? ==> forall j :: 0 <= j < |snap| ==> snap[j].comment != w.rows[i].key
    ensures Covered(after, i + 1, snap, known + if found.Some? then {snap[found.value].pid} else {})
  {
    assert RowPid(w.rows[i], w.labelled);
    assert w.rows[i].key != Text("");
  }

  /** A FAILED row adopts the n-th position, or an orphan row records it: the rest stays covered. */
  lemma CoverAdopted(rows: seq<Row>, after: seq<Row>, f: nat, snap: seq<Position>, n: nat, labelled: map<Pid, Key>)
    requires f < |rows| && OnlyRow(rows, after, f) && rows[f].pid.None? && after[f].key == rows[f].key
    requires n < |snap| && after[f].pid == Some(snap[n].pid) && rows[f].key == snap[n].comment
    requires SnapOf(snap, labelled) && Tidy(labelled) && CoveredByRows(rows, snap) && UniqueKeys(rows)
    ensures CoveredByRows(after, snap)
  {
    HoldsKept(rows, after, f);
    forall m, j | 0 <= m < |after| && 0 <= j < |snap| && Live(after[m].state) && after[m].key == snap[j].comment
      ensures HoldsPid(after, snap[j].pid)
    {
      if m != f {
        assert HoldsPid(rows, snap[j].pid);
      }
    }
  }

  /** An orphan row is made only for a position without a comment, or whose comment's own row is CLOSED. */
  lemma OrphanIsDue(caps: Caps, w: World, snap: seq<Position>, n: nat, r: Row)
    requires Inv(caps, w) && SnapOf(snap, w.labelled) && Tidy(w.labelled) && CoveredByRows(w.rows, snap)
    requires n < |snap| && !HoldsPid(w.rows, snap[n].pid) && r.pid == Some(snap[n].pid) && r.manual
    requires r.key == snap[n].comment || r.key == Orphan(snap[n].pid)
    requires r.key == snap[n].comment || snap[n].comment == Text("") || HasKey(w.rows, snap[n].comment)
    requires forall m :: 0 <= m < |w.rows| && w.rows[m].key == snap[n].comment ==> w.rows[m].state != Failed
    ensures OrphanRow(r, w.rows, w.labelled)
  {
    assert w.labelled[snap[n].pid] == snap[n].comment;
    if r.key.Orphan? && snap[n].comment != Text("") {
      var m :| 0 <= m < |w.rows| && w.rows[m].key == snap[n].comment;
      assert w.rows[m].state == Closed;
    }
  }

  lemma UniqueKeysOf(caps: Caps, w: World)
    requires Inv(caps, w)
    ensures UniqueKeys(w.rows)
  {
  }

  lemma KeyIsOnce(caps: Caps, w: World, f: nat)
    requires Inv(caps, w) && f < |w.rows|
    ensures forall m :: 0 <= m < |w.rows| && w.rows[m].key == w.rows[f].key ==> m == f
    ensures UniqueKeys(w.rows)
  {
  }

  lemma CoverOrphan(rows: seq<Row>, r: Row, snap: seq<Position>, n: nat, labelled: map<Pid, Key>)
    requires UniqueKeys(rows) && !HasKey(rows, r.key) && r.key != Text("")
    requires n < |snap| && r.pid == Some(snap[n].pid) && (r.key == snap[n].comment || r.key.Orphan?)
    requires SnapOf(snap, labelled) && Tidy(labelled) && CoveredByRows(rows, snap)
    ensures CoveredByRows(rows + [r], snap)
  {
    InsertKeepsRest(rows, r);
    var after := rows + [r];
    assert after[|rows|].pid == Some(snap[n].pid);
    forall m, j | 0 <= m < |after| && 0 <= j < |snap| && Live(after[m].state) && after[m].key == snap[j].comment
      ensures HoldsPid(after, snap[j].pid)
    {
      if m < |rows| {
        assert after[m] == rows[m];
        assert HoldsPid(rows, snap[j].pid);
      }
    }
  }

  // ---------------------------------------------------------------- inserts

  lemma InsertKeepsRest(rows: seq<Row>, r: Row)
    requires UniqueKeys(rows) && !HasKey(rows, r.key) && r.key != Text("")
    ensures UniqueKeys(rows + [r]) && Evolves(rows, rows + [r])
    ensures forall k :: HasKey(rows, k) ==> HasKey(rows + [r], k)
    ensures forall k :: ClosedUnder(rows, k) ==> ClosedUnder(rows + [r], k)
    ensures forall p :: ManualHolder(rows, p) ==> ManualHolder(rows + [r], p)
    ensures forall p :: HoldsPid(rows, p) ==> HoldsPid(rows + [r], p)
  {
    var after := rows + [r];
    forall k | HasKey(rows, k)
      ensures HasKey(after, k)
    {
      var j :| 0 <= j < |rows| && rows[j].key == k;
      assert after[j] == rows[j];
    }
    forall k | ClosedUnder(rows, k)
      ensures ClosedUnder(after, k)
    {
      var j :| 0 <= j < |rows| && rows[j].key == k && rows[j].state == Closed;
      assert after[j] == rows[j];
    }
    forall p: Pid | ManualHolder(rows, p)
      ensures ManualHolder(after, p)
    {
      var j :| 0 <= j < |rows| && rows[j].pid == Some(p) && rows[j].manual;
      assert after[j] == rows[j];
    }
    forall p: Pid | HoldsPid(rows, p)
      ensures HoldsPid(after, p)
    {
      var j :| 0 <= j < |rows| && rows[j].pid == Some(p);
      assert after[j] == rows[j];
    }
  }

  /** The guards of check_entry that the exposure caps rest on. */
  ghost predicate RoomFor(caps: Caps, rows: seq<Row>, r: Row) {
    && Count(rows, AnyOpen) < caps.openTotal
    && Count(rows, OpenOn(r.symbol)) < caps.openPerSymbol
    && Count(rows, OnDay(r.openedAt.day)) < caps.tradesPerDay
    && (forall i :: 0 <= i < |rows| && Live(rows[i].state) && rows[i].symbol == r.symbol ==> rows[i].side == r.side)
  }

  lemma ClaimKeepsExposure(caps: Caps, w: World, r: Row)
    requires Exposure(caps, w) && RoomFor(caps, w.rows, r)
    ensures Exposure(caps, w.(rows := w.rows + [r]))
  {
    CountAppend(w.rows, r, AnyOpen);
    if w.adopted + w.orphans == 0 {
      forall s
        ensures Count(w.rows + [r], OpenOn(s)) <= caps.openPerSymbol
      {
        CountAppend(w.rows, r, OpenOn(s));
      }
      forall d
        ensures Count(w.rows + [r], OnDay(d)) <= caps.tradesPerDay
      {
        CountAppend(w.rows, r, OnDay(d));
      }
    }
  }

  lemma ClaimKeepsInv(caps: Caps, w: World, r: Row)
    requires Inv(caps, w) && !HasKey(w.rows, r.key) && RoomFor(caps, w.rows, r)
    requires r.key.Text? && r.key != Text("") && r.state == Sending && r.pid.None? && !r.manual
    ensures Inv(caps, w.(rows := w.rows + [r])) && Evolves(w.rows, w.rows + [r])
    ensures forall p :: p in w.ours ==> w.labelled[p] != r.key
  {
    InsertKeepsRest(w.rows, r);
    ClaimKeepsExposure(caps, w, r);
    InsertKeepsHolders(w.rows, w.labelled, r);
    InsertKeepsBooks(w, r);
    InsertKeepsBegun(w.rows, w.trace, [], r);
    assert w.trace + [] == w.trace;
  }

  lemma InsertKeepsHolders(rows: seq<Row>, labelled: map<Pid, Key>, r: Row)
    requires UniqueKeys(rows) && !HasKey(rows, r.key) && r.key != Text("")
    requires Holders(rows, labelled)
    requires r.pid.Some? ==> !HoldsPid(rows, r.pid.value)
    requires Tidy(labelled) ==> OrphanRow(r, rows, labelled)
    ensures Holders(rows + [r], labelled)
  {
    InsertKeepsRest(rows, r);
    var after := rows + [r];
    if Tidy(labelled) {
      forall j | 0 <= j < |after|
        ensures OrphanRow(after[j], after, labelled)
      {
        assert j < |rows| ==> OrphanRow(rows[j], rows, labelled);
      }
    }
  }

  lemma InsertKeepsClaims(w: World, r: Row)
    requires Claimed(w) && forall k :: HasKey(w.rows, k) ==> HasKey(w.rows + [r], k)
    ensures Claimed(w.(rows := w.rows + [r]))
  {
  }

  lemma InsertKeepsHands(w: World, r: Row)
    requires Hands(w) && forall p :: ManualHolder(w.rows, p) ==> ManualHolder(w.rows + [r], p)
    ensures Hands(w.(rows := w.rows + [r]))
  {
  }

  lemma InsertKeepsBooks(w: World, r: Row)
    requires Books(w) && r.state != Closed
    ensures Books(w.(rows := w.rows + [r]))
  {
  }

  lemma InsertKeepsBegun(rows: seq<Row>, trace: seq<Event>, more: seq<Event>, r: Row)
    requires Begun(rows, trace) && r.state != Closing
    ensures Begun(rows + [r], trace + more)
  {
    EventsKeepBegun(rows, trace, more);
  }

  lemma OrphanKeepsInv(caps: Caps, w: World, r: Row, p: Pid)
    requires Inv(caps, w) && !HasKey(w.rows, r.key) && r.key != Text("")
    requires r.pid == Some(p) && r.manual && r.state == Open
    requires p in w.labelled && !HoldsPid(w.rows, p)
    requires r.key == w.labelled[p] || r.key == Orphan(p)
    requires Tidy(w.labelled) ==> OrphanRow(r, w.rows, w.labelled)
    ensures Inv(caps, w.(rows := w.rows + [r], trace := w.trace + [Manual(p)], orphans := w.orphans + 1))
    ensures Evolves(w.rows, w.rows + [r])
  {
    hide Holders, HandsOff, OnlyLabelled, SettledOnce, Begun, UniqueKeys, Tidy, OrphanRow, OneSide, HasKey,
         ManualHolder;
    InsertKeepsRest(w.rows, r);
    InsertKeepsHolders(w.rows, w.labelled, r);
    InsertKeepsClaims(w, r);
    CountAppend(w.rows, r, AnyOpen);
    InsertKeepsBooks(w, r);
    InsertKeepsHands(w, r);
    var w1 := w.(rows := w.rows + [r]);
    EventKeepsBooks(w1, Manual(p));
    InsertKeepsBegun(w.rows, w.trace, [Manual(p)], r);
    assert w1.rows[|w.rows|].pid == Some(p) && w1.rows[|w.rows|].manual;
    ManualKeepsHands(w1, p);
  }

  // ---------------------------------------------------------------- the loss counter, said independently

  /** A winning result or the daily roll. */
  predicate Resets(e: Event) {
    e.Rolled? || (e.Settled? && e.result.Some? && e.result.value > 0.0)
  }

  /** The first event after the last winning result or daily roll. */
  function ResetPoint(trace: seq<Event>): (k: nat)
    ensures k <= |trace|
  {
    if trace == [] then 0
    else
      var n := |trace| - 1;
      if Resets(trace[n]) then n + 1 else ResetPoint(trace[..n])
  }

  predicate Losing(e: Event) {
    e.Settled? && e.result.Some? && e.result.value < 0.0
  }

  ghost function LosingSince(trace: seq<Event>, k: nat): set<nat> {
    set n: nat | k <= n < |trace| && Losing(trace[n])
  }

  /** Nothing from k on resets the counter, and what comes before k does, or nothing does. */
  ghost predicate SinceReset(trace: seq<Event>, k: nat) {
    && k <= |trace| && (forall n :: k <= n < |trace| ==> !Resets(trace[n]))
    && (k > 0 ==> Resets(trace[k - 1]))
  }

  lemma {:induction false} ResetPointIsLast(trace: seq<Event>)
    ensures SinceReset(trace, ResetPoint(trace))
  {
    if trace != [] {
      ResetPointIsLast(trace[..|trace| - 1]);
    }
  }

  /** The stored counter is the number of losing results since the last winning result or daily roll. */
  lemma {:induction false} StreakCounts(trace: seq<Event>)
    ensures Streak(trace) == |LosingSince(trace, ResetPoint(trace))|
  {
    if trace == [] {
      assert LosingSince(trace, 0) == {};
    } else {
      var n, k := |trace| - 1, ResetPoint(trace);
      var before := trace[..n];
      StreakCounts(before);
      if Resets(trace[n]) {
        assert LosingSince(trace, k) == {};
      } else {
        assert k == ResetPoint(before);
        LosingStep(trace, k);
      }
    }
  }

  lemma LosingStep(trace: seq<Event>, k: nat)
    requires trace != [] && k < |trace|
    ensures var n := |trace| - 1;
            |LosingSince(trace, k)| == |LosingSince(trace[..n], k)| + if Losing(trace[n]) then 1 else 0
  {
    hide Losing;
    var n := |trace| - 1;
    var before, after := LosingSince(trace[..n], k), LosingSince(trace, k);
    if Losing(trace[n]) {
      assert after == before + {n};
    } else {
      assert after == before;
    }
  }

  // ---------------------------------------------------------------- what the invariants mean

  /** In every reachable state: one position per setup, commands only for labelled positions, hands off what the owner
      took over, exposure within the caps, every settlement counted once. */
  lemma InvMeans(caps: Caps, w: World)
    requires Inv(caps, w)
    ensures forall k {:trigger OpenedFor(w, k)} :: |OpenedFor(w, k)| <= 1
    ensures forall k {:trigger OpenedFor(w, k)} :: OpenedFor(w, k) != {} ==> HasKey(w.rows, k)
    ensures forall n :: 0 <= n < |w.trace| && w.trace[n].Sent? ==> w.trace[n].pid in w.labelled
    ensures Tidy(w.labelled) ==> HandsOff(w.trace)
    ensures Count(w.rows, AnyOpen) <= caps.openTotal + w.adopted + w.orphans
    ensures w.adopted + w.orphans == 0 ==>
              && (forall s :: Count(w.rows, OpenOn(s)) <= caps.openPerSymbol)
              && (forall d :: Count(w.rows, OnDay(d)) <= caps.tradesPerDay)
              && OneSide(w.rows)
    ensures SettledOnce(w.rows, w.trace) && Begun(w.rows, w.trace)
    ensures SinceReset(w.trace, ResetPoint(w.trace))
    ensures w.intact ==> w.losses == |LosingSince(w.trace, ResetPoint(w.trace))|
  {
    StreakCounts(w.trace);
    ResetPointIsLast(w.trace);
    forall k
      ensures |OpenedFor(w, k)| <= 1
      ensures OpenedFor(w, k) != {} ==> HasKey(w.rows, k)
    {
      var ps := OpenedFor(w, k);
      if ps != {} {
        var p :| p in ps;
        assert HasKey(w.rows, w.labelled[p]);
        assert forall q :: q in ps ==> q == p;
        assert ps == {p};
      }
    }
  }

  /** Another terminal opened position 2 under the comment of live trade 1's setup, and it was recorded as an orphan. */
  ghost function Untidy(): World {
    var now := Moment(0, 0);
    var own := Row(Text("k"), "XAUUSD", Buy, Open, Some(1), 100, Some(90.0), Some(130.0), Some(120.0), Some(100.0),
                   Some(10.0), false, false, false, now, 0, 0, None, Some(100.0), Some(3));
    var orphan := Row(Orphan(2), "XAUUSD", Buy, Open, Some(2), 100, None, None, None, None,
                      None, true, false, false, now, 0, 0, None, None, None);
    World([own, orphan], map[1 := Text("k"), 2 := Text("k")], {1}, [Manual(2)], [], 0, 1, 0, true)
  }

  /** Without tidy comments every invariant can hold while a live trade names a position the owner holds. */
  lemma UntidyHolds(caps: Caps)
    requires caps.openTotal >= 1
    ensures Inv(caps, Untidy()) && HandsOff(Untidy().trace) && !Tidy(Untidy().labelled)
    ensures var w := Untidy();
            ManualHolder(w.rows, 2) && w.labelled[2] == w.rows[0].key && !w.rows[0].manual && Live(w.rows[0].state)
  {
    hide Exposure, Count;
    var w := Untidy();
    assert w.rows[0].key == Text("k") && w.labelled[1] == w.labelled[2] == Text("k");
    assert w.rows[1].pid == Some(2) && w.rows[1].manual;
    assert HasKey(w.rows, Text("k"));
    UntidyExposure(caps);
  }

  lemma UntidyExposure(caps: Caps)
    requires caps.openTotal >= 1
    ensures Exposure(caps, Untidy())
  {
    var w := Untidy();
    CountAppend([w.rows[0]], w.rows[1], AnyOpen);
    CountAppend([], w.rows[0], AnyOpen);
    assert w.rows == [w.rows[0]] + [w.rows[1]] && [] + [w.rows[0]] == [w.rows[0]];
  }

  /** The positions create_order ever opened for a setup. */
  ghost function OpenedFor(w: World, k: Key): set<Pid> {
    set p | p in w.ours && p in w.labelled && w.labelled[p] == k
  }
}
