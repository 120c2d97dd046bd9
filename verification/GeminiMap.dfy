/** Intake of a submitted map: every zone is repaired or dropped, every kept zone gets a root. Prices are ticks. */
module GeminiMap {
  import opened Trades

  // ---------------------------------------------------------------- what was sent

  /** A field read as a number: a price in ticks or a score without its fraction; JSON also has numbers beyond every
      float (1e999 reads as infinity), NaN, and integers too long to become a float. */
  datatype Number = Absent | Finite(n: int) | Infinite(positive: bool) | NotANumber | TooLong

  /** A field iterated over; its items that are not objects are skipped. */
  datatype Listing<T> = Items(items: seq<T>) | NotIterable

  datatype SentPool = SentPool(id: string, price: Number, lps: Number)

  datatype SentZone = SentZone(id: string, direction: string, low: Number, high: Number, tp1: Number, tp2: Number,
                               anchor: Number, root: string, lps: Number, validation: Number)

  datatype SentMap = SentMap(bias: string, registry: Listing<SentPool>, zones: Listing<SentZone>, final: Number,
                             alerts: Listing<Number>)

  /** int(num(x) or 0) does not raise. */
  predicate Converts(x: Number) {
    x.Absent? || x.Finite?
  }

  function Score(x: Number): int {
    if x.Finite? then x.n else 0
  }

  /** Only a finite price can lie in a band. */
  function Ticks(x: Number): Option<int> {
    if x.Finite? then Some(x.n) else None
  }

  function ReadPools(ps: seq<SentPool>): (r: seq<RawPool>)
    ensures |r| == |ps| && forall k :: 0 <= k < |ps| ==> r[k] == RawPool(ps[k].id, Ticks(ps[k].price), Score(ps[k].lps))
  {
    seq(|ps|, k requires 0 <= k < |ps| => RawPool(ps[k].id, Ticks(ps[k].price), Score(ps[k].lps)))
  }

  function ReadZone(z: SentZone): RawZone {
    RawZone(z.id, z.direction, Ticks(z.low), Ticks(z.high), Ticks(z.tp1), Ticks(z.tp2), z.root, Score(z.lps))
  }

  function ReadZones(zs: seq<SentZone>): (r: seq<RawZone>)
    ensures |r| == |zs| && forall k :: 0 <= k < |zs| ==> r[k] == ReadZone(zs[k])
  {
    seq(|zs|, k requires 0 <= k < |zs| => ReadZone(zs[k]))
  }

  function ReadMap(g: SentMap): RawMap {
    RawMap(g.bias, ReadPools(if g.registry.Items? then g.registry.items else []),
           ReadZones(if g.zones.Items? then g.zones.items else []), Ticks(g.final))
  }

  // ---------------------------------------------------------------- what was read

  datatype RawPool = RawPool(id: string, price: Option<int>, lps: int)

  /** id in upper case and direction in lower case, as the intake reads them; numbers no band can hold are None. */
  datatype RawZone = RawZone(
    id: string,
    direction: string,
    low: Option<int>,
    high: Option<int>,
    tp1: Option<int>,
    tp2: Option<int>,
    root: string,
    lps: int)

  datatype RawMap = RawMap(bias: string, registry: seq<RawPool>, zones: seq<RawZone>, final: Option<int>)

  /** The symbol's band, the live price, and the D1 ATR; enough says there are candles to measure with. */
  datatype Live = Live(bandLow: int, bandHigh: int, price: int, atrD1: real, enough: bool)

  datatype Entry = Entry(id: string, price: int, lps: int)

  datatype KeyZone = KeyZone(id: string, low: int, high: int, tp1: int, tp2: int, root: string, rootLps: int)

  datatype StrategicMap = StrategicMap(buy: bool, zones: seq<KeyZone>, registry: seq<Entry>, rootZone: KeyZone,
                                       final: Number)

  datatype Rejection = BadBias | NoPrice | FewCandles | NoChain

  datatype Intake = Accepted(map_: StrategicMap) | Rejected(why: Rejection) | Raised

  // ---------------------------------------------------------------- one zone

  predicate InBand(v: Live, x: Option<int>) {
    x.Some? && v.bandLow <= x.value <= v.bandHigh
  }

  predicate IsChain(id: string) {
    id == "CHAIN_A" || id == "CHAIN_B" || id == "CHAIN_C"
  }

  function Lower(z: RawZone): int
    requires z.low.Some? && z.high.Some?
  {
    if z.low.value < z.high.value then z.low.value else z.high.value
  }

  function Upper(z: RawZone): int
    requires z.low.Some? && z.high.Some?
  {
    if z.low.value < z.high.value then z.high.value else z.low.value
  }

  /** In band, with a width, in the bias direction, on the side price retraces to and within three D1 ATR. */
  predicate Placed(v: Live, buy: bool, z: RawZone) {
    && z.direction == (if buy then "buy" else "sell")
    && InBand(v, z.low) && InBand(v, z.high) && z.low != z.high
    && (if buy then Lower(z) <= v.price else v.price <= Upper(z))
    && (if buy then v.price - Upper(z) else Lower(z) - v.price) as real <= 3.0 * v.atrD1
    && 0.0 <= 3.0 * v.atrD1
  }

  predicate Beyond(v: Live, buy: bool, z: RawZone, x: Option<int>)
    requires z.low.Some? && z.high.Some?
  {
    InBand(v, x) && if buy then x.value > Upper(z) else x.value < Lower(z)
  }

  /** The second target: the zone's own, else the map's final objective. */
  function FarTarget(v: Live, buy: bool, z: RawZone, final: Option<int>): Option<int>
    requires z.low.Some? && z.high.Some?
  {
    if Beyond(v, buy, z, z.tp2) then z.tp2 else if Beyond(v, buy, z, final) then final else None
  }

  predicate Keepable(v: Live, buy: bool, z: RawZone, final: Option<int>) {
    IsChain(z.id) && Placed(v, buy, z) && FarTarget(v, buy, z, final).Some?
  }

  /** A usable first target without a second one reaches a comparison with None. */
  predicate Raises(v: Live, buy: bool, z: RawZone, final: Option<int>) {
    IsChain(z.id) && Placed(v, buy, z) && FarTarget(v, buy, z, final).None? && Beyond(v, buy, z, z.tp1)
  }

  datatype Verdict = Keep(low: int, high: int, tp1: int, tp2: int) | Drop | Raise

  /** What a kept zone promises, with the targets in order. */
  ghost predicate Targets(v: Live, buy: bool, low: int, high: int, tp1: int, tp2: int) {
    && v.bandLow <= low < high <= v.bandHigh
    && v.bandLow <= tp1 <= v.bandHigh && v.bandLow <= tp2 <= v.bandHigh
    && (if buy then high < tp1 <= tp2 else tp2 <= tp1 < low)
  }

  method Screen(v: Live, buy: bool, z: RawZone, final: Option<int>) returns (r: Verdict)
    requires IsChain(z.id)
    ensures r.Keep? <==> Keepable(v, buy, z, final)
    ensures r.Raise? <==> Raises(v, buy, z, final)
    ensures r.Keep? ==> r.low == Lower(z) && r.high == Upper(z) && Targets(v, buy, r.low, r.high, r.tp1, r.tp2)
    ensures r.Keep? ==> OwnTargets(v, buy, z, FarTarget(v, buy, z, final).value, r.tp1, r.tp2)
  {
    hide Targets, Beyond, InBand;
    var placed := Place(v, buy, z);
    if placed.None? {
      return Drop;
    }
    r := Aim(v, buy, z, final);
  }

  /** The zone's edges in order, or None when it fails a check. */
  method Place(v: Live, buy: bool, z: RawZone) returns (edges: Option<(int, int)>)
    ensures edges.Some? <==> Placed(v, buy, z)
    ensures edges.Some? ==> edges.value == (Lower(z), Upper(z))
  {
    var good := z.direction == if buy then "buy" else "sell";
    if !(InBand(v, z.low) && InBand(v, z.high)) {
      return None;
    }
    var lo, hi := z.low.value, z.high.value;
    if lo > hi {
      lo, hi := hi, lo;
    }
    if lo == hi || (buy && lo > v.price) || (!buy && hi < v.price) {
      good := false;
    }
    var gap := if buy then v.price - hi else lo - v.price;
    if (if gap > 0 then gap as real else 0.0) > 3.0 * v.atrD1 {
      good := false;
    }
    edges := if good then Some((lo, hi)) else None;
  }

  /** Targets beyond the zone, nearer one first. */
  method Aim(v: Live, buy: bool, z: RawZone, final: Option<int>) returns (r: Verdict)
    requires Placed(v, buy, z)
    ensures r.Keep? <==> FarTarget(v, buy, z, final).Some?
    ensures r.Raise? <==> FarTarget(v, buy, z, final).None? && Beyond(v, buy, z, z.tp1)
    ensures r.Keep? ==> r.low == Lower(z) && r.high == Upper(z) && Targets(v, buy, r.low, r.high, r.tp1, r.tp2)
    ensures r.Keep? ==> OwnTargets(v, buy, z, FarTarget(v, buy, z, final).value, r.tp1, r.tp2)
  {
    hide IsChain;
    var low, high := Lower(z), Upper(z);
    var tp1, tp2 := z.tp1, z.tp2;
    if !Beyond(v, buy, z, tp2) {
      tp2 := if Beyond(v, buy, z, final) then final else None;
    }
    if !Beyond(v, buy, z, tp1) {
      tp1 := tp2;
    }
    if tp1.None? {
      r := Drop;
    } else if tp2.None? {
      r := Raise;  // tp1 compared with None
    } else if (buy && tp1.value > tp2.value) || (!buy && tp1.value < tp2.value) {
      r := Keep(low, high, tp2.value, tp1.value);
    } else {
      r := Keep(low, high, tp1.value, tp2.value);
    }
  }

  // ---------------------------------------------------------------- the registry

  /** The executor's dictionary: the last entry of an id. */
  function Lookup(registry: seq<Entry>, id: string): (r: Option<Entry>)
    ensures r.Some? ==> r.value in registry && r.value.id == id
    ensures r.None? ==> forall e :: e in registry ==> e.id != id
  {
    if registry == [] then None
    else if registry[|registry| - 1].id == id then Some(registry[|registry| - 1])
    else Lookup(registry[..|registry| - 1], id)
  }

  lemma LookupAppend(registry: seq<Entry>, e: Entry, id: string)
    ensures Lookup(registry + [e], id) == if e.id == id then Some(e) else Lookup(registry, id)
  {
    assert (registry + [e])[..|registry|] == registry;
  }

  function Clamp(x: int): int {
    if x < 0 then 0 else if x > 100 then 100 else x
  }

  /** Submitted pools inside the band, in their order. */
  function Pools(v: Live, pools: seq<RawPool>): seq<Entry> {
    if pools == [] then []
    else
      var p := pools[|pools| - 1];
      Pools(v, pools[..|pools| - 1])
      + if p.id != "" && InBand(v, p.price) then [Entry(p.id, p.price.value, Clamp(p.lps))] else []
  }

  lemma {:induction false} PoolsAre(v: Live, pools: seq<RawPool>, e: Entry)
    ensures e in Pools(v, pools) <==>
              exists k :: 0 <= k < |pools| && pools[k].id != "" && InBand(v, pools[k].price)
                          && e == Entry(pools[k].id, pools[k].price.value, Clamp(pools[k].lps))
  {
    if pools != [] {
      PoolsAre(v, pools[..|pools| - 1], e);
    }
  }

  /** A pool with an id whose price is too long, or whose score does not convert though its price is in the band. */
  predicate PoolRaises(v: Live, p: SentPool) {
    p.id != "" && (p.price.TooLong? || (InBand(v, Ticks(p.price)) && !Converts(p.lps)))
  }

  method ReadRegistry(v: Live, sent: Listing<SentPool>) returns (raised: bool, registry: seq<Entry>)
    ensures raised <==> PoolsRaise(v, sent)
    ensures !raised ==> sent.Items? && registry == Pools(v, ReadPools(sent.items))
  {
    registry := [];
    if sent.NotIterable? {
      return true, [];
    }
    ghost var ps := ReadPools(sent.items);
    raised := false;
    for k := 0 to |sent.items|
      invariant !raised && registry == Pools(v, ps[..k])
      invariant forall j :: 0 <= j < k ==> !PoolRaises(v, sent.items[j])
    {
      var p := sent.items[k];
      assert ps[..k + 1][..k] == ps[..k];
      if p.id == "" {
        continue;
      }
      if p.price.TooLong? {
        return true, [];
      }
      if !InBand(v, Ticks(p.price)) {
        continue;
      }
      if !Converts(p.lps) {
        return true, [];
      }
      registry := registry + [Entry(p.id, p.price.n, Clamp(Score(p.lps)))];
    }
    assert ps[..|ps|] == ps;
  }

  function EdgeId(zid: string): string {
    "LIQ_" + zid
  }

  lemma EdgeIdsDiffer(a: string, b: string)
    requires a != b
    ensures EdgeId(a) != EdgeId(b)
  {
    assert EdgeId(a)[4..] == a && EdgeId(b)[4..] == b;
  }

  /** The swept pool lies at or behind the zone's far edge. */
  predicate RootSide(buy: bool, low: int, high: int, price: int) {
    if buy then price <= high else price >= low
  }

  // ---------------------------------------------------------------- the whole map

  ghost predicate DistinctChains(zones: seq<RawZone>) {
    forall i, j :: 0 <= i < j < |zones| && IsChain(zones[i].id) ==> zones[i].id != zones[j].id
  }

  ghost predicate NoReserved(pools: seq<RawPool>) {
    forall k, zid :: 0 <= k < |pools| && IsChain(zid) ==> pools[k].id != EdgeId(zid)
  }

  /** zones are the keepable ones of the first n, in order: origin[k] is where the k-th came from. */
  ghost predicate KeptFrom(v: Live, buy: bool, g: RawMap, n: nat, zones: seq<KeyZone>, origin: seq<nat>)
    requires n <= |g.zones|
  {
    && |origin| == |zones|
    && (forall i, j :: 0 <= i < j < |origin| ==> origin[i] < origin[j])
    && (forall i :: 0 <= i < n ==> (i in origin <==> Keepable(v, buy, g.zones[i], g.final)))
    && (forall k :: 0 <= k < |zones| ==> origin[k] < n && FromRaw(v, buy, g.final, g.zones[origin[k]], zones[k]))
  }

  ghost predicate FromRaw(v: Live, buy: bool, final: Option<int>, raw: RawZone, z: KeyZone) {
    && Placed(v, buy, raw) && z.id == raw.id && z.low == Lower(raw) && z.high == Upper(raw)
    && Targets(v, buy, z.low, z.high, z.tp1, z.tp2)
    && FarTarget(v, buy, raw, final).Some? && OwnTargets(v, buy, raw, FarTarget(v, buy, raw, final).value, z.tp1, z.tp2)
  }

  /** The zone's own targets where they are usable, in whatever order. */
  ghost predicate OwnTargets(v: Live, buy: bool, z: RawZone, far: int, tp1: int, tp2: int)
    requires z.low.Some? && z.high.Some?
  {
    multiset{tp1, tp2} == multiset{far, if Beyond(v, buy, z, z.tp1) then z.tp1.value else far}
  }

  /** Every kept zone names an entry of the registry, with its score. */
  ghost predicate Rooted(registry: seq<Entry>, z: KeyZone) {
    Lookup(registry, z.root).Some?
  }

  ghost predicate WellRooted(buy: bool, registry: seq<Entry>, z: KeyZone) {
    Rooted(registry, z) && RootSide(buy, z.low, z.high, Lookup(registry, z.root).value.price)
    && z.rootLps == Lookup(registry, z.root).value.lps
  }

  /** Ids of the registry are submitted ones or edges of zones already read. */
  ghost predicate KnownIds(g: RawMap, n: nat, registry: seq<Entry>)
    requires n <= |g.zones|
  {
    forall e :: e in registry ==>
      (exists k :: 0 <= k < |g.registry| && e.id == g.registry[k].id)
      || (exists i :: 0 <= i < n && IsChain(g.zones[i].id) && e.id == EdgeId(g.zones[i].id))
  }

  predicate OwnRoot(buy: bool, registry: seq<Entry>, root: string, low: int, high: int) {
    Lookup(registry, root).Some? && RootSide(buy, low, high, Lookup(registry, root).value.price)
  }

  function Edge(buy: bool, raw: RawZone, low: int, high: int): Entry {
    Entry(EdgeId(raw.id), if buy then low else high, Clamp(raw.lps))
  }

  /** The registry when zone n is read: the pools, and the edges of the kept zones before it that had no pool. */
  function RegistryAt(v: Live, buy: bool, g: RawMap, n: nat): seq<Entry>
    requires n <= |g.zones|
  {
    if n == 0 then Pools(v, g.registry)
    else
      var before, z := RegistryAt(v, buy, g, n - 1), g.zones[n - 1];
      if Keepable(v, buy, z, g.final) && !OwnRoot(buy, before, z.root, Lower(z), Upper(z))
      then before + [Edge(buy, z, Lower(z), Upper(z))] else before
  }

  /** A price too long; a first target compared with None; or, once kept, an anchor too long, a validation score or, for
      an edge, an LPS that does not convert. */
  predicate ZoneRaises(v: Live, buy: bool, sent: SentZone, final: Option<int>, registry: seq<Entry>) {
    var z := ReadZone(sent);
    && IsChain(z.id)
    && (sent.low.TooLong? || sent.high.TooLong? || sent.tp1.TooLong? || sent.tp2.TooLong?
        || Raises(v, buy, z, final)
        || (Keepable(v, buy, z, final)
            && (sent.anchor.TooLong? || !Converts(sent.validation)
                || (!OwnRoot(buy, registry, z.root, Lower(z), Upper(z)) && !Converts(sent.lps)))))
  }

  /** The zone's own pool if it is registered on the right side; otherwise the zone's far edge joins the registry. */
  method Root(buy: bool, registry: seq<Entry>, raw: RawZone, low: int, high: int)
      returns (root: string, more: seq<Entry>)
    ensures more == registry || more == registry + [Edge(buy, raw, low, high)]
    ensures more == registry <==> OwnRoot(buy, registry, raw.root, low, high)
    ensures root == if more == registry then raw.root else EdgeId(raw.id)
    ensures Lookup(more, root).Some?
    ensures low <= high ==> RootSide(buy, low, high, Lookup(more, root).value.price)
  {
    var e := Lookup(registry, raw.root);
    if e.None? || !RootSide(buy, low, high, e.value.price) {
      var edge := Edge(buy, raw, low, high);
      LookupAppend(registry, edge, edge.id);
      return edge.id, registry + [edge];
    }
    root, more := raw.root, registry;
  }

  lemma KeptStep(v: Live, buy: bool, g: RawMap, n: nat, zones: seq<KeyZone>, origin: seq<nat>, z: KeyZone)
    requires n < |g.zones| && KeptFrom(v, buy, g, n, zones, origin)
    ensures !Keepable(v, buy, g.zones[n], g.final) ==> KeptFrom(v, buy, g, n + 1, zones, origin)
    ensures Keepable(v, buy, g.zones[n], g.final) && FromRaw(v, buy, g.final, g.zones[n], z) ==>
              KeptFrom(v, buy, g, n + 1, zones + [z], origin + [n])
  {
    hide Keepable, FromRaw;
  }

  /** No zone read so far has its root under the name the next one would use for its edge. */
  lemma NotTheEdge(g: RawMap, n: nat, registry: seq<Entry>, root: string)
    requires DistinctChains(g.zones) && NoReserved(g.registry) && n < |g.zones| && KnownIds(g, n, registry)
    requires IsChain(g.zones[n].id) && Lookup(registry, root).Some?
    ensures root != EdgeId(g.zones[n].id)
  {
    hide EdgeId, IsChain;
    var e := Lookup(registry, root).value;
    forall i | 0 <= i < n && IsChain(g.zones[i].id)
      ensures EdgeId(g.zones[i].id) != EdgeId(g.zones[n].id)
    {
      EdgeIdsDiffer(g.zones[i].id, g.zones[n].id);
    }
  }

  /** A zone rooted before stays rooted when the registry grows by another id. */
  lemma RootStays(buy: bool, registry: seq<Entry>, e: Entry, z: KeyZone)
    requires Rooted(registry, z)
    ensures Rooted(registry + [e], z)
    ensures WellRooted(buy, registry, z) && z.root != e.id ==> WellRooted(buy, registry + [e], z)
  {
    LookupAppend(registry, e, z.root);
  }

  /** All zones rooted, and on the right side unless the submitted ids get in the way. */
  ghost predicate AllRooted(buy: bool, g: RawMap, registry: seq<Entry>, zones: seq<KeyZone>) {
    && (forall z :: z in zones ==> Rooted(registry, z))
    && (DistinctChains(g.zones) && NoReserved(g.registry) ==> forall z :: z in zones ==> WellRooted(buy, registry, z))
  }

  lemma AllRootedStep(buy: bool, g: RawMap, n: nat, registry: seq<Entry>, zones: seq<KeyZone>, more: seq<Entry>,
                      z: KeyZone)
    requires n < |g.zones| && IsChain(g.zones[n].id) && KnownIds(g, n, registry) && AllRooted(buy, g, registry, zones)
    requires more == registry || exists e :: more == registry + [e] && e.id == EdgeId(g.zones[n].id)
    requires WellRooted(buy, more, z)
    ensures AllRooted(buy, g, more, zones + [z])
  {
    hide WellRooted, Rooted, DistinctChains, NoReserved, KnownIds, EdgeId, IsChain;
    if more != registry {
      var e :| more == registry + [e] && e.id == EdgeId(g.zones[n].id);
      forall y | y in zones
        ensures Rooted(more, y)
        ensures DistinctChains(g.zones) && NoReserved(g.registry) ==> WellRooted(buy, more, y)
      {
        RootStays(buy, registry, e, y);
        if DistinctChains(g.zones) && NoReserved(g.registry) {
          RootedLookup(registry, y);
          NotTheEdge(g, n, registry, y.root);
        }
      }
    }
    WellRootedIsRooted(buy, more, z);
  }

  lemma RootedLookup(registry: seq<Entry>, z: KeyZone)
    requires Rooted(registry, z)
    ensures Lookup(registry, z.root).Some?
  {
  }

  lemma WellRootedIsRooted(buy: bool, registry: seq<Entry>, z: KeyZone)
    requires WellRooted(buy, registry, z)
    ensures Rooted(registry, z)
  {
  }

  lemma KnownIdsStep(g: RawMap, n: nat, registry: seq<Entry>, more: seq<Entry>)
    requires n < |g.zones| && KnownIds(g, n, registry)
    requires more == registry
             || (IsChain(g.zones[n].id) && exists e :: more == registry + [e] && e.id == EdgeId(g.zones[n].id))
    ensures KnownIds(g, n + 1, more)
  {
    hide EdgeId, IsChain;
  }

  predicate Ready(v: Live, g: RawMap) {
    (g.bias == "buy" || g.bias == "sell") && v.price != 0 && v.bandLow <= v.price <= v.bandHigh && v.enough
  }

  /** The kept zones with their roots, and the registry that grew with them. */
  method Collect(v: Live, buy: bool, g: RawMap, sent: seq<SentZone>, pools: seq<Entry>)
      returns (raised: bool, zones: seq<KeyZone>, registry: seq<Entry>, ghost origin: seq<nat>)
    requires g.zones == ReadZones(sent) && pools == Pools(v, g.registry)
    ensures raised <==> ZonesRaise(v, buy, sent, g)
    ensures !raised ==> KeptFrom(v, buy, g, |g.zones|, zones, origin) && AllRooted(buy, g, registry, zones)
    ensures !raised ==> registry == RegistryAt(v, buy, g, |g.zones|)
    ensures !raised ==> forall z :: z in zones ==> Lookup(registry, z.root).Some?
  {
    hide Keepable, Raises, KnownIds, AllRooted, KeptFrom, Pools, Targets, WellRooted, ZoneRaises, RegistryAt, ReadZone;
    raised, zones, origin := false, [], [];
    registry := pools;
    Start(v, buy, g);
    for n := 0 to |sent|
      invariant !raised
      invariant forall i :: 0 <= i < n ==> !ZoneRaises(v, buy, sent[i], g.final, RegistryAt(v, buy, g, i))
      invariant KeptFrom(v, buy, g, n, zones, origin) && AllRooted(buy, g, registry, zones)
      invariant KnownIds(g, n, registry) && registry == RegistryAt(v, buy, g, n)
    {
      raised, zones, registry, origin := CollectOne(v, buy, g, sent[n], n, zones, registry, origin);
      if raised {
        return;
      }
    }
    AllRootedMeans(buy, g, registry, zones);
  }

  lemma AllRootedMeans(buy: bool, g: RawMap, registry: seq<Entry>, zones: seq<KeyZone>)
    requires AllRooted(buy, g, registry, zones)
    ensures forall z :: z in zones ==> Lookup(registry, z.root).Some?
  {
  }

  lemma Start(v: Live, buy: bool, g: RawMap)
    ensures KeptFrom(v, buy, g, 0, [], []) && AllRooted(buy, g, Pools(v, g.registry), [])
    ensures KnownIds(g, 0, Pools(v, g.registry)) && RegistryAt(v, buy, g, 0) == Pools(v, g.registry)
  {
    forall e | e in Pools(v, g.registry)
      ensures exists k :: 0 <= k < |g.registry| && e.id == g.registry[k].id
    {
      PoolsAre(v, g.registry, e);
    }
  }

  method CollectOne(v: Live, buy: bool, g: RawMap, sent: SentZone, n: nat, zones: seq<KeyZone>, registry: seq<Entry>,
      ghost origin: seq<nat>) returns (raised: bool, zones': seq<KeyZone>, more: seq<Entry>, ghost origin': seq<nat>)
    requires n < |g.zones| && KeptFrom(v, buy, g, n, zones, origin) && AllRooted(buy, g, registry, zones)
    requires KnownIds(g, n, registry) && registry == RegistryAt(v, buy, g, n) && g.zones[n] == ReadZone(sent)
    ensures raised <==> ZoneRaises(v, buy, sent, g.final, registry)
    ensures !raised ==> KeptFrom(v, buy, g, n + 1, zones', origin') && AllRooted(buy, g, more, zones')
    ensures !raised ==> KnownIds(g, n + 1, more) && more == RegistryAt(v, buy, g, n + 1)
  {
    hide KnownIds, AllRooted, KeptFrom, Targets, OwnTargets, Placed, FarTarget, Lookup, EdgeId;
    raised, zones', more, origin' := false, zones, registry, origin;
    var raw := g.zones[n];
    KnownIdsStep(g, n, registry, registry);
    if !IsChain(raw.id) {
      KeptStep(v, buy, g, n, zones, origin, KeyZone("", 0, 0, 0, 0, "", 0));
      return;
    }
    if sent.low.TooLong? || sent.high.TooLong? || sent.tp1.TooLong? || sent.tp2.TooLong? {
      raised := true;
      return;
    }
    var r := Screen(v, buy, raw, g.final);
    if r.Raise? {
      raised := true;
      return;
    }
    if r.Drop? {
      KeptStep(v, buy, g, n, zones, origin, KeyZone("", 0, 0, 0, 0, "", 0));
      return;
    }
    TargetsOrdered(v, buy, r.low, r.high, r.tp1, r.tp2);
    var root: string;
    root, more := Root(buy, registry, raw, r.low, r.high);
    if sent.anchor.TooLong? || (more != registry && !Converts(sent.lps)) || !Converts(sent.validation) {
      raised := true;
      return;
    }
    var z := KeyZone(raw.id, r.low, r.high, r.tp1, r.tp2, root, Lookup(more, root).value.lps);
    KeptStep(v, buy, g, n, zones, origin, z);
    KnownIdsStep(g, n, registry, more);
    AllRootedStep(buy, g, n, registry, zones, more, z);
    zones', origin' := zones + [z], origin + [n];
  }

  lemma TargetsOrdered(v: Live, buy: bool, low: int, high: int, tp1: int, tp2: int)
    requires Targets(v, buy, low, high, tp1, tp2)
    ensures low <= high
  {
  }

  function FirstChainA(zones: seq<KeyZone>): (z: KeyZone)
    requires zones != []
    ensures z in zones && (z.id == "CHAIN_A" || z == zones[0])
    ensures (exists y :: y in zones && y.id == "CHAIN_A") ==> z.id == "CHAIN_A"
  {
    if exists k :: 0 <= k < |zones| && zones[k].id == "CHAIN_A" then FindChainA(zones) else zones[0]
  }

  function FindChainA(zones: seq<KeyZone>): (z: KeyZone)
    requires exists k :: 0 <= k < |zones| && zones[k].id == "CHAIN_A"
    ensures z in zones && z.id == "CHAIN_A"
  {
    if zones[0].id == "CHAIN_A" then zones[0]
    else
      assert forall k :: 1 <= k < |zones| ==> zones[k] == zones[1..][k - 1];
      FindChainA(zones[1..])
  }

  /** The farthest second target in the bias direction. */
  function Farthest(buy: bool, zones: seq<KeyZone>): (x: int)
    requires zones != []
    ensures exists z :: z in zones && z.tp2 == x
    ensures forall z :: z in zones ==> if buy then z.tp2 <= x else z.tp2 >= x
  {
    if |zones| == 1 then zones[0].tp2
    else
      var rest := Farthest(buy, zones[1..]);
      assert zones == [zones[0]] + zones[1..];
      if (if buy then zones[0].tp2 > rest else zones[0].tp2 < rest) then zones[0].tp2 else rest
  }

  /** x is no nearer than some zone's second target: infinity is not, NaN always is. */
  predicate Reaches(buy: bool, zones: seq<KeyZone>, x: Number) {
    match x
    case Finite(n) => exists k :: 0 <= k < |zones| && if buy then n >= zones[k].tp2 else n <= zones[k].tp2
    case Infinite(positive) => zones != [] && positive == buy
    case _ => false
  }

  /** A keepable CHAIN_A or CHAIN_B. */
  ghost predicate Executable(v: Live, buy: bool, g: RawMap) {
    exists i :: 0 <= i < |g.zones| && Keepable(v, buy, g.zones[i], g.final) && g.zones[i].id != "CHAIN_C"
  }

  predicate PoolsRaise(v: Live, sent: Listing<SentPool>) {
    sent.NotIterable? || exists k :: 0 <= k < |sent.items| && PoolRaises(v, sent.items[k])
  }

  /** A zone raises, with the registry as it is when its turn comes. */
  predicate ZonesRaise(v: Live, buy: bool, sent: seq<SentZone>, g: RawMap)
    requires |g.zones| == |sent|
  {
    exists i :: 0 <= i < |sent| && ZoneRaises(v, buy, sent[i], g.final, RegistryAt(v, buy, g, i))
  }

  predicate AlertsRaise(sent: Listing<Number>) {
    sent.NotIterable? || exists k :: 0 <= k < |sent.items| && sent.items[k].TooLong?
  }

  /** Somewhere on its way the map makes the intake raise. */
  ghost predicate Trips(v: Live, buy: bool, g: SentMap) {
    || PoolsRaise(v, g.registry) || g.final.TooLong?
    || g.zones.NotIterable? || ZonesRaise(v, buy, g.zones.items, ReadMap(g))
    || (Executable(v, buy, ReadMap(g)) && AlertsRaise(g.alerts))
  }

  lemma ReadMapIs(g: SentMap)
    ensures ReadMap(g).bias == g.bias && ReadMap(g).final == Ticks(g.final)
    ensures g.registry.Items? ==> ReadMap(g).registry == ReadPools(g.registry.items)
    ensures g.zones.Items? ==> ReadMap(g).zones == ReadZones(g.zones.items)
  {
  }

  method Accept(v: Live, g: SentMap) returns (r: Intake, ghost origin: seq<nat>)
    ensures r.Raised? <==> Ready(v, ReadMap(g)) && Trips(v, g.bias == "buy", g)
    ensures r.Accepted? <==> Ready(v, ReadMap(g)) && !r.Raised? && Executable(v, g.bias == "buy", ReadMap(g))
    ensures r.Accepted? ==> Guaranteed(v, g, r.map_, origin)
  {
    hide Trips, Executable, Guaranteed, ReadMap;
    ReadMapIs(g);
    origin := [];
    if g.bias != "buy" && g.bias != "sell" {
      return Rejected(BadBias), [];
    }
    if v.price == 0 || !InBand(v, Some(v.price)) {
      return Rejected(NoPrice), [];
    }
    if !v.enough {
      return Rejected(FewCandles), [];
    }
    r, origin := Build(v, g.bias == "buy", g);
  }

  /** The intake past its gates. */
  method Build(v: Live, buy: bool, g: SentMap) returns (r: Intake, ghost origin: seq<nat>)
    requires buy == (g.bias == "buy")
    ensures r.Raised? <==> Trips(v, buy, g)
    ensures r.Accepted? <==> !r.Raised? && Executable(v, buy, ReadMap(g))
    ensures r.Accepted? ==> Guaranteed(v, g, r.map_, origin)
  {
    hide PoolsRaise, ZonesRaise, AlertsRaise, Executable, Guaranteed, ReadMap, KeptFrom, AllRooted, Pools, RegistryAt;
    ReadMapIs(g);
    ghost var raw := ReadMap(g);
    var raised, pools, zones, registry;
    raised, pools := ReadRegistry(v, g.registry);
    if raised || g.final.TooLong? || g.zones.NotIterable? {
      return Raised, [];
    }
    raised, zones, registry, origin := Collect(v, buy, ReadMap(g), g.zones.items, pools);
    if raised {
      return Raised, origin;
    }
    ChainKept(v, buy, raw, zones, origin);
    if !exists k :: 0 <= k < |zones| && zones[k].id != "CHAIN_C" {
      return Rejected(NoChain), origin;
    }
    if AlertsRaise(g.alerts) {
      return Raised, origin;
    }
    var map_ := Assemble(buy, zones, registry, g.final);
    r := Accepted(map_);
    AssembledIsGood(v, g, map_, origin);
  }

  /** The causal chain's root zone and the final objective. */
  method Assemble(buy: bool, zones: seq<KeyZone>, registry: seq<Entry>, final: Number) returns (m: StrategicMap)
    requires zones != []
    ensures m.buy == buy && m.zones == zones && m.registry == registry
    ensures m.rootZone in zones && Reaches(buy, zones, m.final) && (Reaches(buy, zones, final) ==> m.final == final)
    ensures m.rootZone.id != "CHAIN_A" ==> m.rootZone == zones[0] && forall z :: z in zones ==> z.id != "CHAIN_A"
  {
    var objective := if Reaches(buy, zones, final) then final else Finite(Farthest(buy, zones));
    m := StrategicMap(buy, zones, registry, FirstChainA(zones), objective);
  }

  lemma AssembledIsGood(v: Live, g: SentMap, m: StrategicMap, origin: seq<nat>)
    requires m.buy == (g.bias == "buy") && KeptFrom(v, m.buy, ReadMap(g), |ReadMap(g).zones|, m.zones, origin)
    requires AllRooted(m.buy, ReadMap(g), m.registry, m.zones)
    requires m.registry == RegistryAt(v, m.buy, ReadMap(g), |ReadMap(g).zones|)
    requires exists k :: 0 <= k < |m.zones| && m.zones[k].id != "CHAIN_C"
    requires m.rootZone in m.zones && Reaches(m.buy, m.zones, m.final)
              && (Reaches(m.buy, m.zones, g.final) ==> m.final == g.final)
    requires m.rootZone.id != "CHAIN_A" ==> m.rootZone == m.zones[0] && forall z :: z in m.zones ==> z.id != "CHAIN_A"
    ensures Guaranteed(v, g, m, origin)
  {
    hide KeptFrom, RegistryAt, Reaches, DistinctChains, NoReserved, WellRooted;
    ReadMapIs(g);
  }

  ghost predicate Guaranteed(v: Live, sent: SentMap, m: StrategicMap, origin: seq<nat>) {
    var g := ReadMap(sent);
    && m.buy == (g.bias == "buy")
    && KeptFrom(v, m.buy, g, |g.zones|, m.zones, origin)
    && AllRooted(m.buy, g, m.registry, m.zones)
    && m.registry == RegistryAt(v, m.buy, g, |g.zones|)
    && (exists k :: 0 <= k < |m.zones| && m.zones[k].id != "CHAIN_C")
    && m.rootZone in m.zones && Lookup(m.registry, m.rootZone.root).Some?
    && (m.rootZone.id != "CHAIN_A" ==> m.rootZone == m.zones[0] && forall z :: z in m.zones ==> z.id != "CHAIN_A")
    && Reaches(m.buy, m.zones, m.final)
    && (Reaches(m.buy, m.zones, sent.final) ==> m.final == sent.final)
  }

  /** A chain the executor runs was kept exactly when one was keepable. */
  lemma ChainKept(v: Live, buy: bool, g: RawMap, zones: seq<KeyZone>, origin: seq<nat>)
    requires KeptFrom(v, buy, g, |g.zones|, zones, origin)
    ensures (exists k :: 0 <= k < |zones| && zones[k].id != "CHAIN_C") <==> Executable(v, buy, g)
  {
    hide Targets, Placed, FarTarget;
    forall i | 0 <= i < |g.zones| && Keepable(v, buy, g.zones[i], g.final) && g.zones[i].id != "CHAIN_C"
      ensures exists k :: 0 <= k < |zones| && zones[k].id != "CHAIN_C"
    {
      assert i in origin;
      var k :| 0 <= k < |origin| && origin[k] == i;
      assert zones[k].id == g.zones[i].id;
    }
    forall k | 0 <= k < |zones| && zones[k].id != "CHAIN_C"
      ensures Executable(v, buy, g)
    {
      assert origin[k] in origin;
      assert Keepable(v, buy, g.zones[origin[k]], g.final);
    }
  }

  /** What the executor can count on for each zone of an accepted map. */
  lemma GuaranteeMeans(v: Live, sent: SentMap, m: StrategicMap, origin: seq<nat>, z: KeyZone)
    requires Guaranteed(v, sent, m, origin) && z in m.zones
    requires DistinctChains(ReadMap(sent).zones) && NoReserved(ReadMap(sent).registry)
    ensures v.bandLow <= z.low < z.high <= v.bandHigh
    ensures if m.buy then z.low <= v.price && (v.price - z.high) as real <= 3.0 * v.atrD1
            else v.price <= z.high && (z.low - v.price) as real <= 3.0 * v.atrD1
    ensures if m.buy then z.high < z.tp1 <= z.tp2 else z.tp2 <= z.tp1 < z.low
    ensures Lookup(m.registry, z.root).Some?
    ensures RootSide(m.buy, z.low, z.high, Lookup(m.registry, z.root).value.price)
  {
    hide Lookup, Pools, DistinctChains, NoReserved, Keepable, RegistryAt;
    var g := ReadMap(sent);
    var k :| 0 <= k < |m.zones| && m.zones[k] == z;
    assert FromRaw(v, m.buy, g.final, g.zones[origin[k]], z);
    assert WellRooted(m.buy, m.registry, z);
  }

  /** The intake is not total: a usable first target, no second one, no objective; or a score beyond every float. */
  lemma AcceptCanRaise()
    ensures Raises(Live(1, 1000, 120, 10.0, true), true,
                   RawZone("CHAIN_A", "buy", Some(100), Some(110), Some(130), None, "", 0), None)
    ensures PoolRaises(Live(1, 1000, 120, 10.0, true), SentPool("LIQ_1", Finite(105), Infinite(true)))
  {
  }
}
