/** Trend strength from closing prices: Wilder's directional index and its bounds. */
module Adx {
  import opened Common

  // ---- the raw series ----

  /** The i-th bar lies between the i-th close and the one after it. */
  function High(p: seq<real>, i: nat): real
    requires i + 1 < |p|
  {
    Max(p[i + 1], p[i])
  }

  function Low(p: seq<real>, i: nat): real
    requires i + 1 < |p|
  {
    Min(p[i + 1], p[i])
  }

  function TrueRange(p: seq<real>, i: nat): real
    requires i + 1 < |p|
  {
    Max(High(p, i) - Low(p, i), Max(Abs(High(p, i) - p[i]), Abs(Low(p, i) - p[i])))
  }

  function UpMove(p: seq<real>, i: nat): real
    requires i + 2 < |p|
  {
    High(p, i + 1) - High(p, i)
  }

  function DownMove(p: seq<real>, i: nat): real
    requires i + 2 < |p|
  {
    Low(p, i) - Low(p, i + 1)
  }

  /** The larger of the two moves counts, if it is a move at all. */
  function Winning(move: real, other: real): real {
    if move > other && move > 0.0 then move else 0.0
  }

  datatype Series = PlusDm | MinusDm | Range

  function Element(s: Series, p: seq<real>, i: nat): real
    requires i + 2 < |p|
  {
    match s
    case PlusDm => Winning(UpMove(p, i), DownMove(p, i))
    case MinusDm => Winning(DownMove(p, i), UpMove(p, i))
    case Range => TrueRange(p, i + 1)
  }

  /** One element per bar after the first, so that ranges and movements line up. */
  function Elements(s: Series, p: seq<real>): (r: seq<real>)
    requires |p| >= 2
    ensures |r| == |p| - 2 && forall i | 0 <= i < |r| :: r[i] == Element(s, p, i)
  {
    seq(|p| - 2, i requires 0 <= i < |p| - 2 => Element(s, p, i))
  }

  /** A bar cannot move further than its range, and moves one way only. */
  lemma MovesWithinRange(p: seq<real>, i: nat)
    requires i + 2 < |p|
    ensures Element(PlusDm, p, i) >= 0.0 && Element(MinusDm, p, i) >= 0.0
    ensures Element(PlusDm, p, i) == 0.0 || Element(MinusDm, p, i) == 0.0
    ensures Element(PlusDm, p, i) + Element(MinusDm, p, i) <= Element(Range, p, i)
  {
  }

  // ---- Wilder smoothing ----

  function Average(data: seq<real>, n: nat): real
    requires 0 < n <= |data|
  {
    Sum(data[..n]) / n as real
  }

  function Blend(before: real, x: real, alpha: real): real {
    before * (1.0 - alpha) + x * alpha
  }

  function Alpha(period: nat): real
    requires period > 0
  {
    1.0 / period as real
  }

  function SmoothAt(data: seq<real>, period: nat, k: nat): real
    requires 0 < period <= |data| && k + period <= |data|
  {
    if k == 0 then Average(data, period)
    else Blend(SmoothAt(data, period, k - 1), data[period - 1 + k], Alpha(period))
  }

  function Smoothed(data: seq<real>, period: nat): (r: seq<real>)
    requires period > 0
    ensures |r| == if |data| < period then |data| else |data| - period + 1
  {
    if |data| < period then data
    else seq(|data| - period + 1, k requires 0 <= k < |data| - period + 1 => SmoothAt(data, period, k))
  }

  /** Wilder's rule without a division: the average moves by one part in `period` towards the next value. */
  ghost predicate Wilder(data: seq<real>, period: nat, r: seq<real>) {
    && 0 < period <= |data| && |r| == |data| - period + 1
    && Parts(r[0], period) == Sum(data[..period])
    && forall k | 0 < k < |r| :: Parts(r[k], period) == Parts(r[k - 1], period - 1) + data[period - 1 + k]
  }

  function Parts(x: real, n: nat): real {
    x * n as real
  }

  lemma SmoothedIsWilder(data: seq<real>, period: nat)
    requires 0 < period <= |data|
    ensures Wilder(data, period, Smoothed(data, period))
  {
    var r := Smoothed(data, period);
    AverageParts(Sum(data[..period]), period);
    forall k | 0 < k < |r|
      ensures Parts(r[k], period) == Parts(r[k - 1], period - 1) + data[period - 1 + k]
    {
      assert r[k] == SmoothAt(data, period, k) && r[k - 1] == SmoothAt(data, period, k - 1);
      BlendParts(r[k - 1], data[period - 1 + k], period);
    }
  }

  lemma AverageParts(total: real, n: nat)
    requires n > 0
    ensures Parts(total / n as real, n) == total
  {
  }

  lemma BlendParts(before: real, x: real, n: nat)
    requires n > 0
    ensures Parts(Blend(before, x, Alpha(n)), n) == Parts(before, n - 1) + x
  {
    var a, m := Alpha(n), n as real;
    assert a * m == 1.0;
    Spread(before, x, a, m);
  }

  lemma Spread(before: real, x: real, a: real, m: real)
    requires a * m == 1.0
    ensures (before * (1.0 - a) + x * a) * m == before * (m - 1.0) + x
  {
    assert (before * (1.0 - a) + x * a) * m == before * (m - a * m) + x * (a * m);
  }

  method WilderSmooth(data: array<real>, period: nat) returns (result: array<real>)
    requires period > 0
    ensures result[..] == Smoothed(data[..], period)
    ensures data.Length < period ==> result == data
    ensures data.Length >= period ==> Wilder(data[..], period, result[..])
  {
    if data.Length < period {
      return data;
    }
    result := new real[data.Length - period + 1];
    result[0] := Average(data[..], period);
    ghost var whole := data[..];
    for i := 1 to result.Length
      invariant fresh(result) && result.Length == data.Length - period + 1 && data[..] == whole
      invariant forall k | 0 <= k < i :: result[k] == SmoothAt(whole, period, k)
    {
      assert data[period - 1 + i] == whole[period - 1 + i];
      result[i] := Blend(result[i - 1], data[period - 1 + i], Alpha(period));
    }
    SmoothedIsWilder(whole, period);
    assert result[..] == Smoothed(whole, period);
  }

  lemma AlphaInRange(period: nat)
    requires period > 0
    ensures 0.0 < Alpha(period) <= 1.0
  {
  }

  lemma BlendLinear(a: real, b: real, c: real, x: real, y: real, z: real, alpha: real)
    requires 0.0 <= alpha <= 1.0 && a + b <= c && x + y <= z
    ensures Blend(a, x, alpha) + Blend(b, y, alpha) <= Blend(c, z, alpha)
  {
    var keep := 1.0 - alpha;
    Scaled(c - a - b, keep);
    Scaled(z - x - y, alpha);
    assert (c - a - b) * keep == c * keep - a * keep - b * keep;
    assert (z - x - y) * alpha == z * alpha - x * alpha - y * alpha;
  }

  lemma Scaled(x: real, k: real)
    requires x >= 0.0 && k >= 0.0
    ensures x * k >= 0.0
  {
  }

  lemma {:induction false} SumOrder(a: seq<real>, b: seq<real>, c: seq<real>)
    requires |a| == |b| == |c| && forall i | 0 <= i < |a| :: a[i] + b[i] <= c[i]
    ensures Sum(a) + Sum(b) <= Sum(c)
  {
    if |a| > 0 {
      SumOrder(a[1..], b[1..], c[1..]);
    }
  }

  /** Two series that together stay under a third do so after smoothing. */
  lemma {:induction false} SmoothKeepsOrder(a: seq<real>, b: seq<real>, c: seq<real>, period: nat, k: nat)
    requires 0 < period && k + period <= |a| == |b| == |c|
    requires forall i | 0 <= i < |a| :: a[i] + b[i] <= c[i]
    ensures SmoothAt(a, period, k) + SmoothAt(b, period, k) <= SmoothAt(c, period, k)
  {
    if k == 0 {
      SumOrder(a[..period], b[..period], c[..period]);
      QuotientOrder(Sum(a[..period]) + Sum(b[..period]), Sum(c[..period]), period as real);
      SplitQuotient(Sum(a[..period]), Sum(b[..period]), period as real);
    } else {
      SmoothKeepsOrder(a, b, c, period, k - 1);
      AlphaInRange(period);
      var i := period - 1 + k;
      BlendLinear(SmoothAt(a, period, k - 1), SmoothAt(b, period, k - 1), SmoothAt(c, period, k - 1),
                  a[i], b[i], c[i], Alpha(period));
    }
  }

  lemma SplitQuotient(x: real, y: real, n: real)
    requires n > 0.0
    ensures (x + y) / n == x / n + y / n
  {
  }

  function Constant(x: real, n: nat): (r: seq<real>)
    ensures |r| == n && forall i | 0 <= i < n :: r[i] == x
  {
    seq(n, _ => x)
  }

  lemma {:induction false} SmoothConstant(x: real, n: nat, period: nat, k: nat)
    requires 0 < period && k + period <= n
    ensures SmoothAt(Constant(x, n), period, k) == x
  {
    if k == 0 {
      assert Constant(x, n)[..period] == Constant(x, period);
      SumConstant(x, period);
      QuotientIs(x * period as real, period as real, x);
    } else {
      SmoothConstant(x, n, period, k - 1);
      var alpha := Alpha(period);
      assert x * (1.0 - alpha) + x * alpha == x;
    }
  }

  lemma {:induction false} SumConstant(x: real, n: nat)
    ensures Sum(Constant(x, n)) == x * n as real
  {
    if n > 0 {
      SumConstant(x, n - 1);
      assert Constant(x, n)[1..] == Constant(x, n - 1);
      assert x * n as real == x + x * (n - 1) as real;
    }
  }

  /** Smoothing stays within any bounds of the data. */
  lemma SmoothKeepsBounds(data: seq<real>, lo: real, hi: real, period: nat, k: nat)
    requires 0 < period && k + period <= |data|
    requires forall i | 0 <= i < |data| :: lo <= data[i] <= hi
    ensures lo <= SmoothAt(data, period, k) <= hi
  {
    var n := |data|;
    SmoothKeepsOrder(data, Constant(0.0, n), Constant(hi, n), period, k);
    SmoothKeepsOrder(Constant(lo, n), Constant(0.0, n), data, period, k);
    SmoothConstant(0.0, n, period, k);
    SmoothConstant(lo, n, period, k);
    SmoothConstant(hi, n, period, k);
  }

  // ---- the index ----

  function Di(moved: real, range: real): real {
    if range > 0.0 then 100.0 * moved / range else 0.0
  }

  function Dx(plus: real, minus: real): real {
    if plus + minus > 0.0 then 100.0 * Abs(plus - minus) / (plus + minus) else 0.0
  }

  /** The directional indicator of one side. */
  function DiAt(side: Series, p: seq<real>, period: nat, k: nat): real
    requires 0 < period && k + period <= |p| - 2
  {
    Di(SmoothAt(Elements(side, p), period, k), SmoothAt(Elements(Range, p), period, k))
  }

  function DxAt(p: seq<real>, period: nat, k: nat): real
    requires 0 < period && k + period <= |p| - 2
  {
    Dx(DiAt(PlusDm, p, period, k), DiAt(MinusDm, p, period, k))
  }

  function DxSeries(p: seq<real>, period: nat): (r: seq<real>)
    requires 0 < period <= |p| - 2
    ensures |r| == |p| - 2 - period + 1
  {
    seq(|p| - 2 - period + 1, k requires 0 <= k < |p| - 2 - period + 1 => DxAt(p, period, k))
  }

  /** With exactly one price more than the period there is still too little data: it takes two more. */
  function Index(p: seq<real>, period: nat): real
    requires period > 0
  {
    if |p| < period + 2 then 0.0 else Final(DxSeries(p, period), period)
  }

  function Final(dx: seq<real>, period: nat): real
    requires period > 0 && |dx| > 0
  {
    if |dx| < period then Average(dx, |dx|) else SmoothAt(dx, period, |dx| - period)
  }

  lemma DiBounds(plus: real, minus: real, range: real)
    requires plus >= 0.0 && minus >= 0.0 && plus + minus <= range
    ensures Di(plus, range) >= 0.0 && Di(minus, range) >= 0.0
    ensures Di(plus, range) + Di(minus, range) <= 100.0
  {
  }

  lemma DxBounds(plus: real, minus: real)
    requires plus >= 0.0 && minus >= 0.0
    ensures 0.0 <= Dx(plus, minus) <= 100.0
  {
    var total := plus + minus;
    if total > 0.0 {
      QuotientOrder(0.0, 100.0 * Abs(plus - minus), total);
      QuotientOrder(100.0 * Abs(plus - minus), 100.0 * total, total);
      QuotientIs(100.0 * total, total, 100.0);
    }
  }

  /** Smoothed movements stay within the smoothed range. */
  lemma MovesSmoothed(p: seq<real>, period: nat, k: nat)
    requires 0 < period && k + period <= |p| - 2
    ensures var a, b := SmoothAt(Elements(PlusDm, p), period, k), SmoothAt(Elements(MinusDm, p), period, k);
      a >= 0.0 && b >= 0.0 && a + b <= SmoothAt(Elements(Range, p), period, k)
  {
    var a, b, c := Elements(PlusDm, p), Elements(MinusDm, p), Elements(Range, p);
    forall i | 0 <= i < |a| ensures a[i] >= 0.0 && b[i] >= 0.0 && a[i] + b[i] <= c[i] {
      MovesWithinRange(p, i);
    }
    SmoothKeepsOrder(a, b, c, period, k);
    SmoothNotNegative(a, period, k);
    SmoothNotNegative(b, period, k);
  }

  /** The two directional indicators share at most 100 between them. */
  lemma DirectionsWithinHundred(p: seq<real>, period: nat, k: nat)
    requires 0 < period && k + period <= |p| - 2
    ensures var plus, minus := DiAt(PlusDm, p, period, k), DiAt(MinusDm, p, period, k);
      plus >= 0.0 && minus >= 0.0 && plus + minus <= 100.0
  {
    var a, b, c := Elements(PlusDm, p), Elements(MinusDm, p), Elements(Range, p);
    MovesSmoothed(p, period, k);
    DiBounds(SmoothAt(a, period, k), SmoothAt(b, period, k), SmoothAt(c, period, k));
  }

  lemma SmoothNotNegative(data: seq<real>, period: nat, k: nat)
    requires 0 < period && k + period <= |data| && forall i | 0 <= i < |data| :: data[i] >= 0.0
    ensures SmoothAt(data, period, k) >= 0.0
  {
    var zeros := Constant(0.0, |data|);
    SmoothKeepsOrder(zeros, zeros, data, period, k);
    SmoothConstant(0.0, |data|, period, k);
  }

  lemma FinalBounds(dx: seq<real>, period: nat, lo: real, hi: real)
    requires period > 0 && |dx| > 0 && forall k | 0 <= k < |dx| :: lo <= dx[k] <= hi
    ensures lo <= Final(dx, period) <= hi
  {
    if |dx| < period {
      SmoothKeepsBounds(dx, lo, hi, |dx|, 0);
    } else {
      SmoothKeepsBounds(dx, lo, hi, period, |dx| - period);
    }
  }

  /** Whatever the prices, the index is a percentage. */
  lemma IndexBounds(p: seq<real>, period: nat)
    requires period > 0
    ensures 0.0 <= Index(p, period) <= 100.0
  {
    if |p| >= period + 2 {
      var dx := DxSeries(p, period);
      forall k | 0 <= k < |dx| ensures 0.0 <= dx[k] <= 100.0 {
        DirectionsWithinHundred(p, period, k);
        DxBounds(DiAt(PlusDm, p, period, k), DiAt(MinusDm, p, period, k));
      }
      FinalBounds(dx, period, 0.0, 100.0);
    }
  }

  /** A market that rises with every close scores the full hundred as soon as there is data. */
  lemma SteadyRiseIsHundred(p: seq<real>, period: nat)
    requires period > 0 && |p| >= period + 2
    requires forall i | 0 <= i < |p| - 1 :: p[i] < p[i + 1]
    ensures Index(p, period) == 100.0
  {
    var dx := DxSeries(p, period);
    forall k | 0 <= k < |dx| ensures 100.0 <= dx[k] <= 100.0 {
      OnlyUp(p, period, k);
    }
    FinalBounds(dx, period, 100.0, 100.0);
  }

  lemma OnlyUp(p: seq<real>, period: nat, k: nat)
    requires 0 < period && k + period <= |p| - 2
    requires forall i | 0 <= i < |p| - 1 :: p[i] < p[i + 1]
    ensures DxAt(p, period, k) == 100.0
  {
    var a, b, c := Elements(PlusDm, p), Elements(MinusDm, p), Elements(Range, p);
    assert b == Constant(0.0, |p| - 2);
    assert a == c;
    SmoothConstant(0.0, |p| - 2, period, k);
    SmoothPositive(a, period, k);
    var x := SmoothAt(a, period, k);
    QuotientIs(100.0 * x, x, 100.0);
    QuotientIs(0.0, x, 0.0);
    QuotientIs(10000.0, 100.0, 100.0);
  }

  lemma {:induction false} SmoothPositive(data: seq<real>, period: nat, k: nat)
    requires 0 < period && k + period <= |data| && forall i | 0 <= i < |data| :: data[i] > 0.0
    ensures SmoothAt(data, period, k) > 0.0
  {
    AlphaInRange(period);
    if k == 0 {
      SumPositive(data[..period]);
      QuotientOrder(0.0, Sum(data[..period]), period as real);
    } else {
      SmoothPositive(data, period, k - 1);
      BlendPositive(SmoothAt(data, period, k - 1), data[period - 1 + k], Alpha(period));
    }
  }

  lemma BlendPositive(before: real, x: real, alpha: real)
    requires before > 0.0 && x > 0.0 && 0.0 < alpha <= 1.0
    ensures Blend(before, x, alpha) > 0.0
  {
    ProductSign(x, alpha);
    Scaled(before, 1.0 - alpha);
  }

  lemma {:induction false} SumPositive(s: seq<real>)
    requires |s| > 0 && forall i | 0 <= i < |s| :: s[i] > 0.0
    ensures Sum(s) > 0.0
  {
    if |s| > 1 {
      SumPositive(s[1..]);
    }
  }

  function Mirrored(p: seq<real>): (r: seq<real>)
    ensures |r| == |p| && forall i | 0 <= i < |p| :: r[i] == -p[i]
  {
    seq(|p|, i requires 0 <= i < |p| => -p[i])
  }

  /** The index says how strong a trend is, not which way it goes. */
  lemma BlindToDirection(p: seq<real>, period: nat)
    requires period > 0
    ensures Index(Mirrored(p), period) == Index(p, period)
  {
    if |p| >= period + 2 {
      var q := Mirrored(p);
      forall i: nat | i + 2 < |p|
        ensures Element(PlusDm, q, i) == Element(MinusDm, p, i)
        ensures Element(MinusDm, q, i) == Element(PlusDm, p, i)
        ensures Element(Range, q, i) == Element(Range, p, i)
      {
        MirroredBar(p, i);
        MirroredBar(p, i + 1);
      }
      assert Elements(PlusDm, q) == Elements(MinusDm, p);
      assert Elements(MinusDm, q) == Elements(PlusDm, p);
      assert Elements(Range, q) == Elements(Range, p);
      var n := |p| - 2 - period + 1;
      forall k | 0 <= k < n ensures DxAt(q, period, k) == DxAt(p, period, k) {
        DxSymmetric(DiAt(PlusDm, p, period, k), DiAt(MinusDm, p, period, k));
      }
      assert DxSeries(q, period) == DxSeries(p, period);
    }
  }

  lemma DxSymmetric(plus: real, minus: real)
    ensures Dx(plus, minus) == Dx(minus, plus)
  {
  }

  lemma MirroredBar(p: seq<real>, i: nat)
    requires i + 1 < |p|
    ensures var q := Mirrored(p);
      High(q, i) == -Low(p, i) && Low(q, i) == -High(p, i) && TrueRange(q, i) == TrueRange(p, i)
  {
  }

  // ---- the whole index, told by the prices ----

  /** How far the newest of three closes lies above, or below, both before it. */
  function Past(a: real, b: real, c: real, up: bool): real {
    if up then if c > a && c > b then Min(c - a, c - b) else 0.0
    else if c < a && c < b then Min(a - c, b - c) else 0.0
  }

  function Pasts(p: seq<real>, up: bool): (r: seq<real>)
    requires |p| >= 2
    ensures |r| == |p| - 2
  {
    seq(|p| - 2, i requires 0 <= i < |p| - 2 => Past(p[i], p[i + 1], p[i + 2], up))
  }

  function Change(p: seq<real>): (r: seq<real>)
    requires |p| >= 2
    ensures |r| == |p| - 2 && forall i | 0 <= i < |r| :: r[i] == Abs(p[i + 2] - p[i + 1])
  {
    seq(|p| - 2, i requires 0 <= i < |p| - 2 => Abs(p[i + 2] - p[i + 1]))
  }

  lemma MovesAre(a: real, b: real, c: real)
    ensures var up, down := Max(c, b) - Max(b, a), Min(b, a) - Min(c, b);
      Winning(up, down) == Past(a, b, c, true) && Winning(down, up) == Past(a, b, c, false)
  {
  }

  lemma RangeIs(b: real, c: real)
    ensures var high, low := Max(c, b), Min(c, b);
      Max(high - low, Max(Abs(high - b), Abs(low - b))) == Abs(c - b)
  {
  }

  lemma ElementTold(p: seq<real>, i: nat)
    requires i + 2 < |p|
    ensures Element(PlusDm, p, i) == Past(p[i], p[i + 1], p[i + 2], true)
    ensures Element(MinusDm, p, i) == Past(p[i], p[i + 1], p[i + 2], false)
    ensures Element(Range, p, i) == Abs(p[i + 2] - p[i + 1])
  {
    MovesAre(p[i], p[i + 1], p[i + 2]);
    RangeIs(p[i + 1], p[i + 2]);
  }

  lemma ElementsTold(p: seq<real>)
    requires |p| >= 2
    ensures Elements(PlusDm, p) == Pasts(p, true) && Elements(MinusDm, p) == Pasts(p, false)
    ensures Elements(Range, p) == Change(p)
  {
    forall i: nat | i + 2 < |p|
      ensures Elements(PlusDm, p)[i] == Pasts(p, true)[i] && Elements(MinusDm, p)[i] == Pasts(p, false)[i]
      ensures Elements(Range, p)[i] == Change(p)[i]
    {
      ElementTold(p, i);
    }
  }

  /** One directional index: the share by which the two sides differ, when there is any movement. */
  predicate DxTold(up: real, down: real, range: real, dx: real) {
    if range > 0.0 && up + down > 0.0 then dx * (up + down) == 100.0 * Abs(up - down) else dx == 0.0
  }

  /** The averages and the index of each position, and the index at the end. */
  ghost predicate Told(
    p: seq<real>, period: nat, up: seq<real>, down: seq<real>, range: seq<real>, dx: seq<real>, adx: real)
  {
    && |p| >= 2 && Wilder(Pasts(p, true), period, up) && Wilder(Pasts(p, false), period, down)
    && Wilder(Change(p), period, range)
    && |dx| == |range| && (forall k | 0 <= k < |dx| :: DxTold(up[k], down[k], range[k], dx[k]))
    && if |dx| < period then Parts(adx, |dx|) == Sum(dx)
       else exists smooth :: Wilder(dx, period, smooth) && adx == smooth[|smooth| - 1]
  }

  lemma DxIsTold(up: real, down: real, range: real)
    requires up >= 0.0 && down >= 0.0 && up + down <= range
    ensures DxTold(up, down, range, Dx(Di(up, range), Di(down, range)))
  {
    if range > 0.0 {
      SharesOf(up, down, range);
      var a, b := Di(up, range), Di(down, range);
      if up + down > 0.0 {
        SameShare(a, b, up, down, range);
      }
    }
  }

  lemma SharesOf(up: real, down: real, range: real)
    requires range > 0.0
    ensures Di(up, range) * range == 100.0 * up && Di(down, range) * range == 100.0 * down
  {
  }

  lemma SameShare(a: real, b: real, up: real, down: real, range: real)
    requires range > 0.0 && up + down > 0.0 && a * range == 100.0 * up && b * range == 100.0 * down
    ensures Dx(a, b) * (up + down) == 100.0 * Abs(up - down)
  {
    assert (a + b) * range == 100.0 * (up + down);
    ProductSign(a + b, range);
    assert (a - b) * range == 100.0 * (up - down);
    ProductSign(a - b, range);
    var x, t := Dx(a, b), a + b;
    assert x * t == 100.0 * Abs(a - b);
    assert x * (t * range) == (x * t) * range;
    assert Abs(a - b) * range == 100.0 * Abs(up - down);
  }

  /** The index is what the closes say it is. */
  lemma IndexIsTold(p: seq<real>, period: nat)
    requires period > 0 && |p| >= period + 2
    ensures exists up, down, range, dx :: Told(p, period, up, down, range, dx, Index(p, period))
  {
    ElementsTold(p);
    SmoothedIsWilder(Pasts(p, true), period);
    SmoothedIsWilder(Pasts(p, false), period);
    SmoothedIsWilder(Change(p), period);
    var up, down := Smoothed(Pasts(p, true), period), Smoothed(Pasts(p, false), period);
    var range, dx := Smoothed(Change(p), period), DxSeries(p, period);
    forall k | 0 <= k < |dx| ensures DxTold(up[k], down[k], range[k], dx[k]) {
      SidesWithin(p, period, k);
      DxIsTold(up[k], down[k], range[k]);
    }
    FinalIsTold(dx, period);
    assert Told(p, period, up, down, range, dx, Index(p, period));
  }

  lemma SidesWithin(p: seq<real>, period: nat, k: nat)
    requires 0 < period && k + period <= |p| - 2
    ensures var up, down := SmoothAt(Pasts(p, true), period, k), SmoothAt(Pasts(p, false), period, k);
      up >= 0.0 && down >= 0.0 && up + down <= SmoothAt(Change(p), period, k)
  {
    ElementsTold(p);
    MovesSmoothed(p, period, k);
  }

  lemma FinalIsTold(dx: seq<real>, period: nat)
    requires period > 0 && |dx| > 0
    ensures if |dx| < period then Parts(Final(dx, period), |dx|) == Sum(dx)
            else exists smooth :: Wilder(dx, period, smooth) && Final(dx, period) == smooth[|smooth| - 1]
  {
    if |dx| < period {
      assert dx[..|dx|] == dx;
      AverageParts(Sum(dx), |dx|);
    } else {
      SmoothedIsWilder(dx, period);
      var smooth := Smoothed(dx, period);
      assert Wilder(dx, period, smooth) && Final(dx, period) == smooth[|smooth| - 1];
    }
  }

  method ComputeAdx(prices: seq<real>, period: nat) returns (adx: real)
    requires period > 0
    ensures adx == Index(prices, period)
    ensures 0.0 <= adx <= 100.0
    ensures if |prices| < period + 2 then adx == 0.0
            else exists up, down, range, dx :: Told(prices, period, up, down, range, dx, adx)
  {
    IndexBounds(prices, period);
    if |prices| >= period + 2 {
      IndexIsTold(prices, period);
    }
    if |prices| < period + 1 {
      return 0.0;
    }
    if |prices| - 2 < period {
      return 0.0;
    }
    var dx := Directional(prices, period);
    if dx.Length < period {
      return Average(dx[..], dx.Length);
    }
    var series := WilderSmooth(dx, period);
    return series[series.Length - 1];
  }

  /** The raw series, smoothed, and the directional index of each position. */
  method Directional(prices: seq<real>, period: nat) returns (dx: array<real>)
    requires 0 < period <= |prices| - 2
    ensures dx[..] == DxSeries(prices, period)
  {
    var atr := SmoothSeries(Range, prices, period);
    var plus := SmoothSeries(PlusDm, prices, period);
    var minus := SmoothSeries(MinusDm, prices, period);
    var n := |atr|;
    dx := new real[n](k requires 0 <= k < n => Dx(Di(plus[k], atr[k]), Di(minus[k], atr[k])));
  }

  method SmoothSeries(s: Series, prices: seq<real>, period: nat) returns (r: seq<real>)
    requires 0 < period <= |prices| - 2
    ensures r == Smoothed(Elements(s, prices), period)
  {
    var n := |prices| - 2;
    var raw := new real[n](i requires 0 <= i < n => Element(s, prices, i));
    assert raw[..] == Elements(s, prices);
    var smooth := WilderSmooth(raw, period);
    r := smooth[..];
  }
}
