/** The paper venue: cTrader's order semantics simulated over quotes and closed M1 bars. */
module Paper {
  import opened Trades
  import opened Venues
  import opened Guards
  import opened Broker
  import opened Primitives
  import Decode

  /** The deals of one position, oldest first. */
  function DealsOf(log: seq<(Pid, Deal)>, p: Pid): seq<Deal> {
    if log == [] then []
    else DealsOf(log[..|log| - 1], p) + if log[|log| - 1].0 == p then [log[|log| - 1].1] else []
  }

  lemma DealsAppend(log: seq<(Pid, Deal)>, e: (Pid, Deal), p: Pid)
    ensures DealsOf(log + [e], p) == if e.0 == p then DealsOf(log, p) + [e.1] else DealsOf(log, p)
  {
    assert (log + [e])[..|log|] == log;
  }

  lemma VolumeAppend(deals: seq<Deal>, d: Deal)
    ensures Volume(deals + [d]) == Volume(deals) + d.volume
  {
    assert (deals + [d])[..|deals|] == deals;
  }

  predicate SlHit(p: Position, b: Bar) {
    p.sl.Some? && if p.side == Buy then b.l <= p.sl.value else b.h >= p.sl.value
  }

  predicate TpHit(p: Position, b: Bar) {
    p.tp.Some? && if p.side == Buy then b.h >= p.tp.value else b.l <= p.tp.value
  }

  predicate Struck(p: Position, symbol: string, b: Bar) {
    p.symbol == symbol && (SlHit(p, b) || TpHit(p, b))
  }

  /** The stop goes first when a bar reaches both. */
  function StrikeDeal(p: Position, b: Bar): Deal
    requires SlHit(p, b) || TpHit(p, b)
  {
    Deal(if SlHit(p, b) then p.sl else p.tp, p.volume, true)
  }

  /** Each position of hit has one more deal, at its stop or its target, for all its volume; the others have none. */
  ghost predicate OneDealEach(was: map<Pid, Position>, before: seq<(Pid, Deal)>, log: seq<(Pid, Deal)>, hit: set<Pid>,
                              b: Bar) {
    && (forall p :: p in hit ==> p in was && (SlHit(was[p], b) || TpHit(was[p], b)))
    && (forall p :: p in hit ==> DealsOf(log, p) == DealsOf(before, p) + [StrikeDeal(was[p], b)])
    && (forall p: Pid :: p !in hit ==> DealsOf(log, p) == DealsOf(before, p))
  }

  lemma NoDeals(was: map<Pid, Position>, log: seq<(Pid, Deal)>, b: Bar)
    ensures OneDealEach(was, log, log, {}, b)
  {
  }

  lemma OneDealStep(was: map<Pid, Position>, before: seq<(Pid, Deal)>, log: seq<(Pid, Deal)>, hit: set<Pid>, b: Bar,
                    pid: Pid)
    requires OneDealEach(was, before, log, hit, b) && pid !in hit && pid in was
              && (SlHit(was[pid], b) || TpHit(was[pid], b))
    ensures OneDealEach(was, before, log + [(pid, StrikeDeal(was[pid], b))], hit + {pid}, b)
  {
    forall p: Pid
      ensures DealsOf(log + [(pid, StrikeDeal(was[pid], b))], p)
              == if p == pid then DealsOf(log, p) + [StrikeDeal(was[pid], b)] else DealsOf(log, p)
    {
      DealsAppend(log, (pid, StrikeDeal(was[pid], b)), p);
    }
  }

  /** hit is what bar b strikes among the positions not in todo. */
  ghost predicate StruckAmong(was: map<Pid, Position>, todo: set<Pid>, hit: set<Pid>, symbol: string, b: Bar) {
    && hit <= was.Keys && hit !! todo
    && forall p :: p in was && p !in todo ==> (p in hit <==> Struck(was[p], symbol, b))
  }

  lemma StruckNone(was: map<Pid, Position>, symbol: string, b: Bar)
    ensures StruckAmong(was, was.Keys, {}, symbol, b)
  {
  }

  lemma StruckStep(was: map<Pid, Position>, todo: set<Pid>, hit: set<Pid>, symbol: string, b: Bar, pid: Pid)
    requires StruckAmong(was, todo, hit, symbol, b) && pid in todo && pid in was
    ensures pid !in hit
    ensures Struck(was[pid], symbol, b) ==>
              (SlHit(was[pid], b) || TpHit(was[pid], b)) && StruckAmong(was, todo - {pid}, hit + {pid}, symbol, b)
    ensures !Struck(was[pid], symbol, b) ==> StruckAmong(was, todo - {pid}, hit, symbol, b)
  {
  }

  lemma StruckAll(was: map<Pid, Position>, hit: set<Pid>, symbol: string, b: Bar)
    requires StruckAmong(was, {}, hit, symbol, b)
    ensures forall p :: p in hit <==> p in was && Struck(was[p], symbol, b)
  {
  }

  /** Amends and partial closes change the legs and the volume, nothing else. */
  ghost predicate Same(was: Position, p: Position) {
    p == was.(sl := p.sl, tp := p.tp, volume := p.volume)
  }

  function Left(pos: map<Pid, Position>, p: Pid): nat {
    if p in pos then pos[p].volume else 0
  }

  /** Opened volume is what is left plus what was dealt, for every position ever opened. */
  ghost predicate Conserved(birth: map<Pid, Position>, pos: map<Pid, Position>, log: seq<(Pid, Deal)>) {
    forall p :: p in birth ==> birth[p].volume == Left(pos, p) + Volume(DealsOf(log, p))
  }

  ghost predicate Traced(birth: map<Pid, Position>, pos: map<Pid, Position>, log: seq<(Pid, Deal)>, next: Pid) {
    && (forall p :: p in birth ==> p < next)
    && (forall p :: p in pos ==> p in birth && pos[p].pid == p && Same(birth[p], pos[p]))
    && (forall k :: 0 <= k < |log| ==> log[k].0 in birth && log[k].1.closing && log[k].1.price.Some?)
  }

  lemma ConservedClose(birth: map<Pid, Position>, pos: map<Pid, Position>, log: seq<(Pid, Deal)>, pid: Pid, d: Deal,
      after: map<Pid, Position>)
    requires Conserved(birth, pos, log) && pid in pos && d.volume <= pos[pid].volume
    requires after == pos - {pid} || after == pos[pid := pos[pid].(volume := pos[pid].volume - d.volume)]
    requires Left(after, pid) == pos[pid].volume - d.volume
    ensures Conserved(birth, after, log + [(pid, d)])
  {
    forall p | p in birth
      ensures birth[p].volume == Left(after, p) + Volume(DealsOf(log + [(pid, d)], p))
    {
      DealsAppend(log, (pid, d), p);
      VolumeAppend(DealsOf(log, pid), d);
      assert p != pid ==> Left(after, p) == Left(pos, p);
    }
  }

  lemma ConservedOpen(birth: map<Pid, Position>, pos: map<Pid, Position>, log: seq<(Pid, Deal)>, next: Pid, p: Position)
    requires Conserved(birth, pos, log) && Traced(birth, pos, log, next) && p.pid == next
    ensures Conserved(birth[next := p], pos[next := p], log)
  {
    NoDealsYet(log, next);
  }

  function Opening(pid: Pid, symbol: string, args: OrderArgs, digits: int, q: Quote): (p: Position)
    ensures p.pid == pid && p.volume == args.volume && p.side == args.side && p.mapex && p.comment == args.comment
    ensures p.entry == Some(if args.side == Buy then q.ask else q.bid) && p.sl.Some? && p.tp.Some?
    ensures if args.side == Buy then p.sl.value <= p.entry.value <= p.tp.value
            else p.sl.value >= p.entry.value >= p.tp.value
  {
    var fill, unit := if args.side == Buy then q.ask else q.bid, Decode.Pow10(-digits);
    var sgn := if args.side == Buy then 1.0 else -1.0;
    Position(pid, symbol, args.side, args.volume, Some(fill), Some(fill - sgn * args.relativeSl as real * unit),
             Some(fill + sgn * args.relativeTp as real * unit), true, args.comment)
  }

  class PaperVenue {
    var pos: map<Pid, Position>
    var log: seq<(Pid, Deal)>
    var next: Pid
    ghost var birth: map<Pid, Position>  // every position as it was opened

    ghost predicate Valid()
      reads this
    {
      Traced(birth, pos, log, next) && Conserved(birth, pos, log)
    }

    constructor ()
      ensures Valid() && pos == map[] && log == []
    {
      pos, log, next, birth := map[], [], 5000, map[];
    }

    /** Filled at the ask or the bid, legs at the relative distances; an order without a quote is refused. */
    method CreateOrder(symbol: string, args: OrderArgs, digits: int, quote: Option<Quote>) returns (r: Outcome<Fill>)
      requires Valid()
      modifies this
      ensures Valid() && log == old(log)
      ensures r.Failure? <==> quote.None?
      ensures r.Failure? ==> r.error.ToolError? && pos == old(pos)
      ensures r.Success? ==> r.value.pid == Some(old(next)) && old(next) !in old(birth)
      ensures r.Success? ==> pos == old(pos)[old(next) := Opening(old(next), symbol, args, digits, quote.value)]
      ensures r.Success? ==> r.value.price == pos[old(next)].entry
    {
      hide Conserved, Opening;
      if quote.None? {
        return Failure(ToolError(false));
      }
      var pid, p := next, Opening(next, symbol, args, digits, quote.value);
      ConservedOpen(birth, pos, log, pid, p);
      pos := pos[pid := p];
      birth := birth[pid := p];
      next := next + 2;  // the position's id and the order's
      r := Success(Fill(Some(pid), p.entry));
    }

    /** Both legs or neither. */
    method AmendPosition(pid: Pid, sl: Option<real>, tp: Option<real>) returns (r: Outcome<()>)
      requires Valid()
      modifies this`pos
      ensures Valid()
      ensures r.Success? <==> sl.Some? && tp.Some? && pid in old(pos)
      ensures pos == if r.Success? then old(pos)[pid := old(pos)[pid].(sl := sl, tp := tp)] else old(pos)
    {
      if sl.None? || tp.None? || pid !in pos {
        return Failure(Fault);
      }
      pos := pos[pid := pos[pid].(sl := sl, tp := tp)];
      r := Success(());
    }

    method Close(pid: Pid, volume: nat, price: real)
      requires Valid() && pid in pos
      modifies this`pos, this`log
      ensures Valid()
      ensures var p := old(pos)[pid]; var vol := if volume < p.volume then volume else p.volume;
              && log == old(log) + [(pid, Deal(Some(price), vol, true))]
              && pos == if vol == p.volume then old(pos) - {pid} else old(pos)[pid := p.(volume := p.volume - vol)]
    {
      hide Conserved;
      var p := pos[pid];
      var vol := if volume < p.volume then volume else p.volume;
      var d := Deal(Some(price), vol, true);
      var after := if p.volume - vol <= 0 then pos - {pid} else pos[pid := p.(volume := p.volume - vol)];
      ConservedClose(birth, pos, log, pid, d, after);
      log := log + [(pid, d)];
      pos := after;
    }

    /** At the bid or the ask; without a quote at the entry price. */
    method ClosePosition(pid: Pid, volume: nat, quote: Option<Quote>) returns (r: Outcome<()>)
      requires Valid() && (pid in pos ==> pos[pid].entry.Some?)
      modifies this`pos, this`log
      ensures Valid() && (r.Success? <==> pid in old(pos))
      ensures r.Failure? ==> pos == old(pos) && log == old(log)
      ensures r.Success? ==>
                var p := old(pos)[pid];
                var vol := if volume < p.volume then volume else p.volume;
                && log == old(log) + [(pid, Deal(Some(MarketPrice(p, quote)), vol, true))]
                && pos == if vol == p.volume then old(pos) - {pid} else old(pos)[pid := p.(volume := p.volume - vol)]
    {
      if pid !in pos {
        return Failure(Fault);
      }
      Close(pid, volume, MarketPrice(pos[pid], quote));
      r := Success(());
    }

    static function MarketPrice(p: Position, quote: Option<Quote>): real
      requires p.entry.Some?
    {
      if quote.None? then p.entry.value else if p.side == Buy then quote.value.bid else quote.value.ask
    }

    /** Every position of the symbol against one closed bar, in whatever order. */
    method OnBar(symbol: string, b: Bar) returns (hit: set<Pid>)
      requires Valid()
      modifies this`pos, this`log
      ensures Valid()
      ensures forall p :: p in hit <==> p in old(pos) && Struck(old(pos)[p], symbol, b)
      ensures pos == old(pos) - hit
      ensures OneDealEach(old(pos), old(log), log, hit, b)
    {
      hide Valid, OneDealEach, StrikeDeal, StruckAmong, Struck;
      NoDeals(pos, log, b);
      StruckNone(pos, symbol, b);
      hit := {};
      var todo := pos.Keys;
      while todo != {}
        invariant Valid() && todo <= old(pos).Keys && pos == old(pos) - hit
        invariant StruckAmong(old(pos), todo, hit, symbol, b)
        invariant OneDealEach(old(pos), old(log), log, hit, b)
        decreases |todo|
      {
        var pid :| pid in todo;
        StruckStep(old(pos), todo, hit, symbol, b, pid);
        todo := todo - {pid};
        if Struck(pos[pid], symbol, b) {
          OneDealStep(old(pos), old(log), log, hit, b, pid);
          Strike(pid, b);
          hit := hit + {pid};
        }
      }
      StruckAll(old(pos), hit, symbol, b);
    }

    method Strike(pid: Pid, b: Bar)
      requires Valid() && pid in pos && (SlHit(pos[pid], b) || TpHit(pos[pid], b))
      modifies this`pos, this`log
      ensures Valid() && pos == old(pos) - {pid}
      ensures log == old(log) + [(pid, StrikeDeal(old(pos)[pid], b))]
    {
      var p := pos[pid];
      Close(pid, p.volume, StrikeDeal(p, b).price.value);
    }
  }

  lemma {:induction false} NoDealsYet(log: seq<(Pid, Deal)>, p: Pid)
    requires forall k :: 0 <= k < |log| ==> log[k].0 != p
    ensures DealsOf(log, p) == []
  {
    if log != [] {
      NoDealsYet(log[..|log| - 1], p);
    }
  }
}
