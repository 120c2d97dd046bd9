/** Price scales and volumes: display floats, pipettes, relative points, cents. */
module Decode {
  import opened Trades
  import opened Primitives

  function Pow10(k: int): (r: real)
    ensures r > 0.0
    decreases if k < 0 then -k else k
  {
    if k == 0 then 1.0 else if k > 0 then 10.0 * Pow10(k - 1) else Pow10(k + 1) / 10.0
  }

  function RoundVolumeStep(cents: nat, step: nat): nat {
    var s := if step < 1 then 1 else step;
    var down := (cents / s) * s;
    if down > s then down else s
  }

  /** The largest whole number of steps in the volume, and at least one step. */
  lemma RoundedVolume(cents: nat, step: nat)
    requires step >= 1
    ensures exists n: nat :: n >= 1 && RoundVolumeStep(cents, step) == n * step
    ensures cents >= step ==> RoundVolumeStep(cents, step) <= cents < RoundVolumeStep(cents, step) + step
    ensures cents < step ==> RoundVolumeStep(cents, step) == step
  {
    var n := cents / step;
    assert cents == n * step + cents % step;
    if n >= 1 {
      assert n * step >= step by { MulAtLeast(n, step); }
      assert RoundVolumeStep(cents, step) == n * step;
    } else {
      assert RoundVolumeStep(cents, step) == 1 * step;
    }
  }

  lemma MulAtLeast(n: nat, step: nat)
    requires n >= 1
    ensures n * step >= step
  {
    assert n * step == (n - 1) * step + step;
  }

  // ---------------------------------------------------------------- powers of ten

  lemma Pow10Up(k: int)
    ensures Pow10(k + 1) == 10.0 * Pow10(k)
  {
    if k < 0 {
      assert Pow10(k) == Pow10(k + 1) / 10.0;
    }
  }

  lemma {:induction false} Pow10Add(a: int, b: int)
    ensures Pow10(a + b) == Pow10(a) * Pow10(b)
    decreases if b < 0 then -b else b
  {
    hide Pow10;
    if b > 0 {
      Pow10Add(a, b - 1);
      Pow10Up(a + b - 1);
      Pow10Up(b - 1);
      TenTimes(Pow10(a + b - 1), Pow10(a), Pow10(b - 1));
    } else if b < 0 {
      Pow10Add(a, b + 1);
      Pow10Up(a + b);
      Pow10Up(b);
      TenTimes(Pow10(a + b), Pow10(a), Pow10(b));
    } else {
      Pow10Zero();
    }
  }

  lemma Pow10Zero()
    ensures Pow10(0) == 1.0
  {
  }

  lemma TenTimes(z: real, x: real, y: real)
    ensures z == x * y <==> 10.0 * z == x * (10.0 * y)
  {
    assert x * (10.0 * y) == 10.0 * (x * y);
  }

  lemma {:induction false} Pow10Big(n: int)
    requires n >= 1
    ensures Pow10(n) >= 10.0 && Pow10(-n) <= 0.1
  {
    Pow10Up(n - 1);
    Pow10Up(-n);
    if n > 1 {
      Pow10Big(n - 1);
    }
  }

  /** Encoding at one scale and decoding at another moves the price by the difference. */
  lemma Shift(p: real, k: int, d: int)
    ensures ToDisplay(Encoded(p, k), d) == Pow10(k - d) * p
  {
    hide Pow10;
    Pow10Add(k - d, d);
    var x, y := Pow10(k - d), Pow10(d);
    assert p * (x * y) == (x * p) * y;
    QuotientOf(x * p, y);
  }

  lemma ShiftQuotient(x: real, k: int, d: int)
    ensures x / Pow10(d) == Pow10(k - d) * (x / Pow10(k))
  {
    hide Pow10;
    var y := x / Pow10(k);
    assert Encoded(y, k) == x;
    Shift(y, k, d);
    assert ToDisplay(x, d) == Pow10(k - d) * y;
  }

  lemma QuotientOf(x: real, y: real)
    requires y > 0.0
    ensures x * y / y == x
  {
  }

  lemma MulMono(a: real, b: real, y: real)
    requires a <= b && y >= 0.0
    ensures a * y <= b * y
  {
    assert (b - a) * y >= 0.0;
  }

  // ---------------------------------------------------------------- price scales

  datatype Band = Band(low: real, high: real)

  predicate InBand(x: real, b: Band) {
    b.low <= x <= b.high
  }

  /** raw / 10**digits */
  function ToDisplay(raw: real, digits: int): real {
    raw / Pow10(digits)
  }

  /** A price as a venue that scales by 10**digits reports it. */
  function Encoded(price: real, digits: int): real {
    price * Pow10(digits)
  }

  predicate Fits(v: real, d: int, b: Band) {
    InBand(ToDisplay(v, d), b)
  }

  /** The first listed digits that fit. */
  function FirstFit(v: real, candidates: seq<Option<int>>, b: Band): (r: Option<int>)
    ensures r.Some? ==> r in candidates && Fits(v, r.value, b)
    ensures r.None? ==> forall k :: 0 <= k < |candidates| && candidates[k].Some? ==> !Fits(v, candidates[k].value, b)
  {
    if candidates == [] then None
    else if candidates[0].Some? && Fits(v, candidates[0].value, b) then candidates[0]
    else
      var r := FirstFit(v, candidates[1..], b);
      assert forall k :: 1 <= k < |candidates| ==> candidates[k] == candidates[1..][k - 1];
      r
  }

  /** The scales 0..n-1 that fit. */
  function FitsBelow(v: real, n: nat, b: Band): (r: seq<int>)
    ensures forall d :: d in r <==> 0 <= d < n && Fits(v, d, b)
    ensures forall i, j :: 0 <= i < j < |r| ==> r[i] < r[j]
  {
    if n == 0 then []
    else
      var r := FitsBelow(v, n - 1, b);
      assert forall i :: 0 <= i < |r| ==> r[i] in r;
      if Fits(v, n - 1, b) then r + [n - 1] else r
  }

  const SCALES := 9

  /** None stands for DecodeError: no unique answer, never a guess. */
  function CalibrateDigits(v: real, candidates: seq<Option<int>>, b: Band): Option<int> {
    var listed := FirstFit(v, candidates, b);
    if listed.Some? then listed
    else
      var fits := FitsBelow(v, SCALES, b);
      if b.high < 10.0 * b.low && |fits| == 1 then Some(fits[0]) else None
  }

  function DecodePositionPrice(value: Option<real>, digits: int, b: Band): Option<real> {
    if value.None? || value.value == 0.0 then None
    else
      var v := value.value;
      if Fits(v, 0, b) then Some(ToDisplay(v, 0))
      else if Fits(v, digits, b) then Some(ToDisplay(v, digits))
      else
        var d := CalibrateDigits(v, [], b);
        if d.Some? then Some(ToDisplay(v, d.value)) else None
  }

  predicate Narrow(b: Band) {
    0.0 < b.low && b.high < 10.0 * b.low
  }

  /** Ten times as much, or a tenth, leaves a narrow band. */
  lemma Scaled(p: real, x: real, m: real, b: Band)
    requires Narrow(b) && InBand(p, b) && (x >= 10.0 || x <= 0.1) && m == x * p
    ensures !InBand(m, b)
  {
    if x >= 10.0 {
      TenFold(x, p, m);
    } else {
      TenthPart(x, p, m);
    }
  }

  lemma TenFold(x: real, p: real, m: real)
    requires x >= 10.0 && p >= 0.0 && m == x * p
    ensures m >= 10.0 * p
  {
    MulMono(10.0, x, p);
  }

  lemma TenthPart(x: real, p: real, m: real)
    requires x <= 0.1 && p >= 0.0 && m == x * p
    ensures m <= 0.1 * p
  {
    MulMono(x, 0.1, p);
  }

  lemma OtherScaleMisfits(p: real, k: int, d: int, b: Band)
    requires Narrow(b) && InBand(p, b) && d != k
    ensures !Fits(Encoded(p, k), d, b)
  {
    hide Pow10, Narrow, InBand, ToDisplay, Encoded;
    Shift(p, k, d);
    if d < k {
      Pow10Big(k - d);
    } else {
      Pow10Big(d - k);
      assert -(d - k) == k - d;
    }
    Scaled(p, Pow10(k - d), ToDisplay(Encoded(p, k), d), b);
  }

  lemma OwnScale(p: real, k: int)
    ensures ToDisplay(Encoded(p, k), k) == p
  {
    QuotientOf(p, Pow10(k));
  }

  /** In a band narrower than a power of ten, an encoded price fits its own scale and no other. */
  lemma OneScaleFits(p: real, k: int, d: int, b: Band)
    requires Narrow(b) && InBand(p, b)
    ensures Fits(Encoded(p, k), d, b) <==> d == k
    ensures ToDisplay(Encoded(p, k), k) == p
  {
    hide Narrow, InBand, ToDisplay, Encoded;
    OwnScale(p, k);
    if d != k {
      OtherScaleMisfits(p, k, d, b);
    }
  }

  /** Whatever digits are listed, a price encoded at any of the nine scales comes back exactly. */
  lemma DecodedExactly(p: real, k: nat, digits: int, b: Band)
    requires Narrow(b) && InBand(p, b) && k < SCALES
    ensures DecodePositionPrice(Some(Encoded(p, k)), digits, b) == Some(p)
  {
    hide Fits, CalibrateDigits, InBand, Narrow, ToDisplay, Encoded;
    OneScaleFits(p, k, 0, b);
    OneScaleFits(p, k, digits, b);
    NonZero(p, k, b);
    CalibratedExactly(p, k, [], b);
  }

  lemma NonZero(p: real, k: int, b: Band)
    requires Narrow(b) && InBand(p, b)
    ensures Encoded(p, k) != 0.0
  {
  }

  lemma CalibratedExactly(p: real, k: nat, candidates: seq<Option<int>>, b: Band)
    requires Narrow(b) && InBand(p, b) && k < SCALES
    ensures CalibrateDigits(Encoded(p, k), candidates, b) == Some(k)
  {
    hide Encoded, Fits, FirstFit, FitsBelow;
    var v := Encoded(p, k);
    forall d: int
      ensures Fits(v, d, b) <==> d == k
    {
      OneScaleFits(p, k, d, b);
    }
    OnlyOne(FitsBelow(v, SCALES, b), k);
  }

  lemma OnlyOne(s: seq<int>, k: int)
    requires k in s && forall i, j :: 0 <= i < j < |s| ==> s[i] < s[j]
    ensures s == [k] || exists x :: x in s && x != k
  {
    if |s| >= 2 {
      assert s[0] in s && s[1] in s;
    }
  }

  ghost predicate ReadsBack(b: Band, p: real, k: nat, digits: int) {
    InBand(p, b) && k < SCALES ==> DecodePositionPrice(Some(Encoded(p, k)), digits, b) == Some(p)
  }

  /** The band's width is what makes it work: in a wider band the low end, one scale up, reads as another price. */
  lemma NarrowIsNeeded(b: Band)
    requires 0.0 < b.low <= b.high
    ensures (forall p: real, k: nat, digits: int :: ReadsBack(b, p, k, digits)) <==> Narrow(b)
  {
    if Narrow(b) {
      forall p: real, k: nat, digits: int
        ensures ReadsBack(b, p, k, digits)
      {
        if InBand(p, b) && k < SCALES {
          DecodedExactly(p, k, digits, b);
        }
      }
    } else {
      WideMisreads(b);
    }
  }

  lemma WideMisreads(b: Band)
    requires 0.0 < b.low && 10.0 * b.low <= b.high
    ensures !ReadsBack(b, b.low, 1, 0)
  {
    assert Pow10(0) == 1.0;
    Pow10Up(0);
    var v := Encoded(b.low, 1);
    assert v == 10.0 * b.low && ToDisplay(v, 0) == v;
  }

  // ---------------------------------------------------------------- relative points

  /** Python's round: the nearest integer, the even one at a tie. */
  function Round(x: real): (r: int)
    ensures -0.5 <= r as real - x <= 0.5
  {
    var f := x.Floor;
    if x - f as real < 0.5 then f
    else if x - f as real > 0.5 then f + 1
    else if f % 2 == 0 then f else f + 1
  }

  /** None stands for DecodeError. */
  function ToPoints(distance: real, digits: int): Option<nat> {
    var points := Round(Encoded(Abs(distance), digits));
    if points <= 0 then None else Some(points)
  }

  /** The broker placed the stop at `actual` instead of `intended`: off by the power of ten k, within 25 %. */
  predicate ScaleOff(actual: real, intended: real, k: int)
    requires intended > 0.0
  {
    Abs(actual / intended / Pow10(k) - 1.0) <= 0.25
  }

  /** No two powers of ten are that close. */
  lemma OneScaleOff(actual: real, intended: real, j: int, k: int)
    requires intended > 0.0 && ScaleOff(actual, intended, j) && ScaleOff(actual, intended, k)
    ensures j == k
  {
    var x := actual / intended;
    if j < k {
      FarScales(x, j, k);
    } else if k < j {
      FarScales(x, k, j);
    }
  }

  lemma FarScales(x: real, j: int, k: int)
    requires j < k
    ensures x / Pow10(j) > 1.25 || x / Pow10(k) < 0.75
  {
    hide Pow10;
    ShiftQuotient(x, k, j);
    Pow10Big(k - j);
    var y, z := x / Pow10(k), Pow10(k - j);
    if y >= 0.75 {
      MulMono(10.0, z, y);
    }
  }

  /** Where a broker that reads relative points at `scale` digits puts a stop ordered with `used` digits. */
  function Applied(intended: real, used: int, scale: int): Option<real> {
    var points := ToPoints(intended, used);
    if points.None? then None else Some(ToDisplay(points.value as real, scale))
  }

  /** How far rounding to points moves a distance, in parts of it. */
  predicate PointsClose(intended: real, used: int)
    requires intended > 0.0
  {
    ToPoints(intended, used).Some? &&
    Abs(ToPoints(intended, used).value as real / Encoded(intended, used) - 1.0) <= 0.25
  }

  /** One fill shows the broker's scale exactly when rounding moved the distance by at most 25 %. */
  lemma LearnedInOneFill(intended: real, used: int, scale: int)
    requires intended > 0.0 && Applied(intended, used, scale).Some?
    ensures ScaleOff(Applied(intended, used, scale).value, intended, used - scale) <==> PointsClose(intended, used)
  {
    hide Pow10, ToPoints, Abs;
    var n, k := ToPoints(intended, used).value as real, used - scale;
    Pow10Add(scale, k);
    assert scale + k == used;
    Regroup(n, Pow10(scale), intended, Pow10(k), Pow10(used));
    SameError(ToDisplay(n, scale) / intended / Pow10(k), n / Encoded(intended, used));
  }

  lemma SameError(x: real, y: real)
    requires x == y
    ensures Abs(x - 1.0) == Abs(y - 1.0)
  {
  }

  /** Two points or more are always close enough. */
  lemma TwoPointsAreEnough(intended: real, used: int)
    requires intended > 0.0 && Encoded(intended, used) >= 2.0
    ensures PointsClose(intended, used)
  {
    hide Encoded, Round;
    assert Abs(intended) == intended;
    RelativeError(Round(Encoded(intended, used)) as real, Encoded(intended, used));
  }

  lemma RelativeError(n: real, x: real)
    requires x >= 2.0 && -0.5 <= n - x <= 0.5
    ensures Abs(n / x - 1.0) <= 0.25
  {
    var e := n / x - 1.0;
    assert e * x == n - x;
    assert e > 0.25 ==> e * x > 0.25 * x >= 0.5;
    assert e < -0.25 ==> e * x < -0.25 * x <= -0.5;
  }

  lemma Regroup(n: real, a: real, x: real, b: real, c: real)
    requires a > 0.0 && x > 0.0 && b > 0.0 && c == a * b
    ensures n / a / x / b == n / (x * c)
  {
    var q := n / a / x / b;
    assert n == n / a * a;
    assert n / a == n / a / x * x;
    assert n / a / x == q * b;
    assert n == q * b * x * a;
    assert q * b * x * a == q * (x * c);
    QuotientOf(q, x * c);
  }

  /** What is learned is the broker's scale, and an order that uses it teaches nothing more. */
  lemma LearnedScaleIsRight(intended: real, used: int, scale: int, k: int)
    requires intended > 0.0 && Applied(intended, used, scale).Some? && PointsClose(intended, used)
    requires ScaleOff(Applied(intended, used, scale).value, intended, k)
    ensures used - k == scale
    ensures used == scale ==> k == 0
  {
    LearnedInOneFill(intended, used, scale);
    OneScaleOff(Applied(intended, used, scale).value, intended, k, used - scale);
  }

  // ---------------------------------------------------------------- volume

  function Cents(lots: real, contract: real): real {
    lots * contract * 100.0
  }

  function Lots(cents: real, contract: real): real
    requires contract > 0.0
  {
    cents / 100.0 / contract
  }

  /** Cents of base asset; None stands for DecodeError. */
  function CheckVolume(lots: Option<real>, contract: real, maxLot: real): (r: Option<nat>)
    requires contract > 0.0
    ensures r.Some? ==> lots.Some? && 0.0 < lots.value <= maxLot && r.value >= 1
    ensures r.Some? ==> Abs(Lots(r.value as real, contract) - lots.value) <= 0.000000001
  {
    if lots.None? || lots.value <= 0.0 || lots.value > maxLot then None
    else
      var cents := Round(Cents(lots.value, contract));
      if cents < 1 || Abs(Lots(cents as real, contract) - lots.value) > 0.000000001 then None else Some(cents)
  }

  lemma CentsOfLots(cents: real, contract: real)
    requires contract > 0.0 && cents > 0.0
    ensures Cents(Lots(cents, contract), contract) == cents && Lots(cents, contract) > 0.0
  {
    var lots := cents / 100.0 / contract;
    assert lots * contract == cents / 100.0;
  }

  /** A lot that is a whole number of cents is accepted as that number. */
  lemma WholeCents(cents: nat, contract: real, maxLot: real)
    requires contract > 0.0 && cents >= 1 && Lots(cents as real, contract) <= maxLot
    ensures CheckVolume(Some(Lots(cents as real, contract)), contract, maxLot) == Some(cents)
  {
    hide Lots, Cents;
    CentsOfLots(cents as real, contract);
  }
}
