/** Candles built tick by tick, and the trend read off their closes. */
module Candles {
  import opened Common
  import opened Ledger

  const MAX_CANDLES: nat := 20
  const EMA_PERIOD: nat := 5
  const FLAT_THRESHOLD: real := 0.00000001

  datatype Tick = Tick(price: real, ts: real)

  /** The start of the interval of `seconds` that holds the moment. */
  function Bucket(ts: real, seconds: nat): int
    requires seconds > 0
  {
    (ts / seconds as real).Floor * seconds
  }

  /** What a bounded deque keeps of everything appended to it. */
  function LastOf(s: seq<real>, n: nat): (r: seq<real>)
    ensures |r| <= n
  {
    if |s| <= n then s else s[|s| - n..]
  }

  lemma LastOfAppend(s: seq<real>, n: nat, x: real)
    requires n > 0
    ensures LastOf(s + [x], n) == (if |LastOf(s, n)| < n then LastOf(s, n) else LastOf(s, n)[1..]) + [x]
  {
  }

  /**
   The closes of a tick history: the price of every tick that is followed by one in another bucket,
   which is the last price of each completed run of equal buckets.  Bucket 0 is the builder's mark
   for "no tick yet", so a run in it is never closed.
   */
  function Closed(ticks: seq<Tick>, seconds: nat): seq<real>
    requires seconds > 0
  {
    if |ticks| < 2 then []
    else
      var last, next := ticks[|ticks| - 2], ticks[|ticks| - 1];
      Closed(ticks[..|ticks| - 1], seconds)
      + if Bucket(last.ts, seconds) != Bucket(next.ts, seconds) && Bucket(last.ts, seconds) != 0
        then [last.price] else []
  }

  /** The last price of every completed run, with no exception. */
  function RunEnds(ticks: seq<Tick>, seconds: nat): seq<real>
    requires seconds > 0
  {
    if |ticks| < 2 then []
    else
      var last, next := ticks[|ticks| - 2], ticks[|ticks| - 1];
      RunEnds(ticks[..|ticks| - 1], seconds)
      + if Bucket(last.ts, seconds) != Bucket(next.ts, seconds) then [last.price] else []
  }

  ghost predicate LeavesZero(ticks: seq<Tick>, seconds: nat, i: nat)
    requires seconds > 0 && i + 1 < |ticks|
  {
    Bucket(ticks[i].ts, seconds) == 0 != Bucket(ticks[i + 1].ts, seconds)
  }

  /** No candle is lost exactly when no run in bucket 0, the first interval of 1970, was ever completed. */
  lemma {:induction false} NoCandleLostExactlyWhen(ticks: seq<Tick>, seconds: nat)
    requires seconds > 0
    ensures |Closed(ticks, seconds)| <= |RunEnds(ticks, seconds)|
    ensures Closed(ticks, seconds) == RunEnds(ticks, seconds)
       <==> forall i: nat | i + 1 < |ticks| :: !LeavesZero(ticks, seconds, i)
  {
    if |ticks| >= 2 {
      var n := |ticks| - 1;
      NoCandleLostExactlyWhen(ticks[..n], seconds);
      assert forall i: nat | i + 1 < n :: LeavesZero(ticks[..n], seconds, i) == LeavesZero(ticks, seconds, i);
      var a, b := Closed(ticks[..n], seconds), RunEnds(ticks[..n], seconds);
      var x := ticks[n - 1].price;
      if LeavesZero(ticks, seconds, n - 1) {
        assert |RunEnds(ticks, seconds)| == |b| + 1 && Closed(ticks, seconds) == a;
      } else if Bucket(ticks[n - 1].ts, seconds) != Bucket(ticks[n].ts, seconds) {
        assert a + [x] == b + [x] <==> a == b by {
          if a + [x] == b + [x] {
            assert (a + [x])[..|a|] == a && (b + [x])[..|b|] == b && |a| == |b|;
          }
        }
      } else {
        assert a + [] == a && b + [] == b;
      }
    }
  }

  function Intervals(k: int, n: nat): int {
    k * n
  }

  /** A bucket starts a whole number of intervals from 0 and holds its moment. */
  lemma BucketHolds(ts: real, seconds: nat)
    requires seconds > 0
    ensures Bucket(ts, seconds) as real <= ts < (Bucket(ts, seconds) + seconds) as real
    ensures exists k :: Bucket(ts, seconds) == Intervals(k, seconds)
  {
    var q := ts / seconds as real;
    assert q * seconds as real == ts;
    FloorTimes(q, q.Floor, seconds, ts);
    assert Bucket(ts, seconds) == Intervals(q.Floor, seconds);
  }

  lemma FloorTimes(q: real, k: int, n: nat, x: real)
    requires n > 0 && k as real <= q < k as real + 1.0 && q * n as real == x
    ensures Intervals(k, n) as real <= x < (Intervals(k, n) + n) as real
  {
    IntervalsCast(k, n);
    GapWithin(q, k as real, n as real, x);
  }

  lemma IntervalsCast(k: int, n: nat)
    ensures Intervals(k, n) as real == k as real * n as real
  {
  }

  lemma GapWithin(q: real, f: real, m: real, x: real)
    requires m > 0.0 && f <= q < f + 1.0 && q * m == x
    ensures f * m <= x < f * m + m
  {
    GapSplit(q, f, m);
    PastStart(q - f, f, m, x);
  }

  lemma GapSplit(q: real, f: real, m: real)
    ensures q * m == f * m + (q - f) * m
  {
  }

  lemma PastStart(part: real, f: real, m: real, x: real)
    requires m > 0.0 && 0.0 <= part < 1.0 && x == f * m + part * m
    ensures f * m <= x < f * m + m
  {
    var rest := 1.0 - part;
    ProductSign(part, m);
    ProductSign(rest, m);
    assert rest * m == m - part * m;
  }

  /** The tick is the last of a run that is over, and the run does not carry the builder's mark. */
  ghost predicate Completes(ticks: seq<Tick>, seconds: nat, i: nat)
    requires seconds > 0
  {
    && i + 1 < |ticks| && Bucket(ticks[i].ts, seconds) != Bucket(ticks[i + 1].ts, seconds)
    && Bucket(ticks[i].ts, seconds) != 0
  }

  /** The positions, in order, of exactly those ticks. */
  ghost predicate Completed(ticks: seq<Tick>, seconds: nat, at: seq<nat>)
    requires seconds > 0
  {
    && (forall j, k | 0 <= j < k < |at| :: at[j] < at[k])
    && (forall k | 0 <= k < |at| :: Completes(ticks, seconds, at[k]))
    && (forall i: nat | Completes(ticks, seconds, i) :: i in at)
  }

  lemma ClosedNext(ticks: seq<Tick>, seconds: nat, n: nat)
    requires seconds > 0 && n + 1 == |ticks| && n > 0
    ensures Closed(ticks, seconds)
         == Closed(ticks[..n], seconds) + if Completes(ticks, seconds, n - 1) then [ticks[n - 1].price] else []
  {
  }

  ghost predicate PricedAt(ticks: seq<Tick>, at: seq<nat>, closes: seq<real>) {
    |at| == |closes| && forall k | 0 <= k < |at| :: at[k] < |ticks| && closes[k] == ticks[at[k]].price
  }

  lemma PricedNext(ticks: seq<Tick>, at: seq<nat>, closes: seq<real>, n: nat)
    requires 0 < n < |ticks| && PricedAt(ticks[..n], at, closes)
    ensures PricedAt(ticks, at + [n - 1], closes + [ticks[n - 1].price])
    ensures PricedAt(ticks, at + [], closes + [])
  {
  }

  lemma CompletedNext(ticks: seq<Tick>, seconds: nat, at: seq<nat>)
    requires seconds > 0 && |ticks| >= 2 && Completed(ticks[..|ticks| - 1], seconds, at)
    ensures Completed(ticks, seconds, at + if Completes(ticks, seconds, |ticks| - 2) then [|ticks| - 2] else [])
  {
    var n := |ticks| - 1;
    var next := at + if Completes(ticks, seconds, n - 1) then [n - 1] else [];
    forall i: nat | i + 1 < n ensures Completes(ticks[..n], seconds, i) <==> Completes(ticks, seconds, i) {
    }
    forall k | 0 <= k < |at| ensures at[k] + 1 < n && Completes(ticks, seconds, at[k]) {
      assert Completes(ticks[..n], seconds, at[k]);
    }
    forall i: nat | Completes(ticks, seconds, i) ensures i in next {
      if i + 1 < n {
        assert Completes(ticks[..n], seconds, i);
      }
    }
  }

  /** The closes are the prices of exactly those ticks, in order. */
  lemma {:induction false} ClosesAre(ticks: seq<Tick>, seconds: nat) returns (at: seq<nat>)
    requires seconds > 0
    ensures Completed(ticks, seconds, at) && PricedAt(ticks, at, Closed(ticks, seconds))
  {
    if |ticks| < 2 {
      at := [];
    } else {
      var n := |ticks| - 1;
      var before := ClosesAre(ticks[..n], seconds);
      ClosedNext(ticks, seconds, n);
      CompletedNext(ticks, seconds, before);
      PricedNext(ticks, before, Closed(ticks[..n], seconds), n);
      at := before + if Completes(ticks, seconds, n - 1) then [n - 1] else [];
    }
  }

  class CandleBuilder {
    const duration: nat
    const maxlen: nat
    var closes: seq<real>
    var curBucket: int
    var curPrices: seq<real>
    /** Every tick ever fed. */
    ghost var ticks: seq<Tick>

    ghost predicate Valid()
      reads this
    {
      && duration > 0 && maxlen > 0
      && closes == LastOf(Closed(ticks, duration), maxlen)
      && if |ticks| == 0 then curBucket == 0
         else
           && curBucket == Bucket(ticks[|ticks| - 1].ts, duration)
           && |curPrices| > 0 && curPrices[|curPrices| - 1] == ticks[|ticks| - 1].price
    }

    constructor (duration: nat, maxlen: nat)
      requires duration > 0 && maxlen > 0
      ensures Valid() && ticks == [] && this.duration == duration && this.maxlen == maxlen
    {
      this.duration, this.maxlen := duration, maxlen;
      closes, curBucket, curPrices := [], 0, [];
      ticks := [];
    }

    method Update(price: real, ts: real)
      requires Valid()
      modifies this
      ensures Valid() && ticks == old(ticks) + [Tick(price, ts)]
    {
      var bucket := Bucket(ts, duration);
      ghost var before := ticks;
      assert (before + [Tick(price, ts)])[..|before|] == before;
      ticks := ticks + [Tick(price, ts)];
      if curBucket == 0 {
        curBucket := bucket;
        curPrices := [price];
        return;
      }
      if bucket == curBucket {
        curPrices := curPrices + [price];
      } else {
        if |curPrices| > 0 {
          LastOfAppend(Closed(before, duration), maxlen, curPrices[|curPrices| - 1]);
          Append(curPrices[|curPrices| - 1]);
        }
        curBucket := bucket;
        curPrices := [price];
      }
    }

    /** A bounded deque drops its oldest element when it is full. */
    method Append(close: real)
      requires maxlen > 0
      modifies this`closes
      ensures closes == (if |old(closes)| < maxlen then old(closes) else old(closes)[1..]) + [close]
    {
      if |closes| >= maxlen {
        closes := closes[1..];
      }
      closes := closes + [close];
    }
  }

  // ---- moving average ----

  function Weight(period: nat): real {
    2.0 / (period + 1) as real
  }

  function Mixed(v: real, before: real, k: real): real {
    v * k + before * (1.0 - k)
  }

  function EmaAt(values: seq<real>, period: nat, i: nat): real
    requires i < |values|
  {
    if i == 0 then values[0] else Mixed(values[i], EmaAt(values, period, i - 1), Weight(period))
  }

  method Ema(values: seq<real>, period: nat) returns (r: seq<real>)
    ensures |r| == |values| && forall i | 0 <= i < |r| :: r[i] == EmaAt(values, period, i)
  {
    if |values| == 0 {
      return [];
    }
    var k := Weight(period);
    r := [values[0]];
    for i := 1 to |values|
      invariant |r| == i && forall j | 0 <= j < i :: r[j] == EmaAt(values, period, j)
    {
      r := r + [Mixed(values[i], r[i - 1], k)];
    }
  }

  lemma WeightInRange(period: nat)
    requires period > 0
    ensures 0.0 < Weight(period) <= 1.0
  {
  }

  /** A mix lies between its parts, and moves towards the new value. */
  lemma MixedBetween(v: real, before: real, k: real)
    requires 0.0 < k <= 1.0
    ensures before <= v ==> before <= Mixed(v, before, k) <= v
    ensures v <= before ==> v <= Mixed(v, before, k) <= before
    ensures Mixed(v, before, k) - before == k * (v - before)
  {
    var gap := v - before;
    assert Mixed(v, before, k) == before + gap * k;
    Fraction(gap, k);
  }

  /** A fraction of a distance lies between nothing and all of it. */
  lemma Fraction(gap: real, k: real)
    requires 0.0 < k <= 1.0
    ensures gap >= 0.0 ==> 0.0 <= gap * k <= gap
    ensures gap <= 0.0 ==> gap <= gap * k <= 0.0
  {
    ProductSign(gap, k);
    if k < 1.0 {
      ProductSign(gap, 1.0 - k);
      assert gap * (1.0 - k) == gap - gap * k;
    }
  }

  lemma {:induction false} EmaBounds(values: seq<real>, period: nat, i: nat, lo: real, hi: real)
    requires period > 0 && i < |values| && forall j | 0 <= j <= i :: lo <= values[j] <= hi
    ensures lo <= EmaAt(values, period, i) <= hi
  {
    if i > 0 {
      EmaBounds(values, period, i - 1, lo, hi);
      WeightInRange(period);
      MixedBetween(values[i], EmaAt(values, period, i - 1), Weight(period));
    }
  }

  function Shares(x: real, n: int): real {
    x * n as real
  }

  /** The average told without a division: the newest value has two parts in `period` and one. */
  lemma EmaRule(values: seq<real>, period: nat, i: nat)
    requires 0 < i < |values|
    ensures EmaAt(values, period, 0) == values[0]
    ensures Shares(EmaAt(values, period, i), period + 1)
         == 2.0 * values[i] + Shares(EmaAt(values, period, i - 1), period - 1)
  {
    MixedShares(values[i], EmaAt(values, period, i - 1), period);
  }

  lemma MixedShares(v: real, before: real, period: nat)
    ensures Shares(Mixed(v, before, Weight(period)), period + 1) == 2.0 * v + Shares(before, period - 1)
  {
    var k, m := Weight(period), (period + 1) as real;
    assert k * m == 2.0;
    assert v * k * m == v * (k * m) && before * (1.0 - k) * m == before * m - before * (k * m);
    assert m - 2.0 == (period - 1) as real;
    assert before * (m - 2.0) == before * m - before * 2.0;
  }

  datatype Trend = Up | Down | Flat

  function TrendOf(slope: real): Trend {
    if Abs(slope) < FLAT_THRESHOLD then Flat else if slope > 0.0 then Up else Down
  }

  function ComputeTrend(closes: seq<real>): Trend {
    var n := |closes|;
    if n < EMA_PERIOD then Flat
    else TrendOf(EmaAt(closes, EMA_PERIOD, n - 1) - EmaAt(closes, EMA_PERIOD, n - 2))
  }

  /** The slope is a third of the distance from the average before to the newest close: nothing else counts. */
  lemma TrendIsLastAgainstAverage(closes: seq<real>)
    requires |closes| >= EMA_PERIOD
    ensures var gap := closes[|closes| - 1] - EmaAt(closes, EMA_PERIOD, |closes| - 2);
      && (ComputeTrend(closes) == Up <==> gap >= 0.00000003)
      && (ComputeTrend(closes) == Down <==> gap <= -0.00000003)
  {
    var n := |closes|;
    WeightInRange(EMA_PERIOD);
    MixedBetween(closes[n - 1], EmaAt(closes, EMA_PERIOD, n - 2), Weight(EMA_PERIOD));
    assert Weight(EMA_PERIOD) == 2.0 / 6.0;
  }

  // ---- monotone histories ----

  function PricesOf(ticks: seq<Tick>): (r: seq<real>)
    ensures |r| == |ticks| && forall i | 0 <= i < |r| :: r[i] == ticks[i].price
  {
    seq(|ticks|, i requires 0 <= i < |ticks| => ticks[i].price)
  }

  /** The closes of a one-way tick history go the same way, up to the newest but one price. */
  lemma {:induction false} ClosedOneWay(ticks: seq<Tick>, seconds: nat, up: bool)
    requires seconds > 0 && Rising(PricesOf(ticks), up)
    ensures Rising(Closed(ticks, seconds), up)
    ensures forall i | 0 <= i < |Closed(ticks, seconds)| ::
      NotPast(Closed(ticks, seconds)[i], ticks[|ticks| - 1].price, up)
  {
    if |ticks| >= 2 {
      var n := |ticks| - 1;
      assert PricesOf(ticks[..n]) == PricesOf(ticks)[..n];
      ClosedOneWay(ticks[..n], seconds, up);
      assert NotPast(PricesOf(ticks)[n - 1], PricesOf(ticks)[n], up);
    }
  }

  predicate NotPast(a: real, b: real, up: bool) {
    if up then a <= b else b <= a
  }

  ghost predicate Rising(s: seq<real>, up: bool) {
    forall i, j | 0 <= i < j < |s| :: NotPast(s[i], s[j], up)
  }

  lemma LastOfRising(s: seq<real>, n: nat, up: bool)
    requires Rising(s, up)
    ensures Rising(LastOf(s, n), up)
  {
  }

  /** The average of a one-way series trails it, so the trend cannot point the other way. */
  lemma RisingNeverOpposed(closes: seq<real>, up: bool)
    requires Rising(closes, up)
    ensures ComputeTrend(closes) != if up then Down else Up
  {
    var n := |closes|;
    if n >= EMA_PERIOD {
      TrendIsLastAgainstAverage(closes);
      if up {
        EmaBounds(closes, EMA_PERIOD, n - 2, closes[0], closes[n - 2]);
        assert NotPast(closes[n - 2], closes[n - 1], up);
      } else {
        EmaBounds(closes, EMA_PERIOD, n - 2, closes[n - 2], closes[0]);
        assert NotPast(closes[n - 2], closes[n - 1], up);
      }
    }
  }

  /** Whatever the timing of the ticks: prices that never fall never read as a fall, and never block BUY_YES. */
  lemma OneWayTicksNeverOpposed(ticks: seq<Tick>, seconds: nat, maxlen: nat, up: bool)
    requires seconds > 0 && Rising(PricesOf(ticks), up)
    ensures var closes := LastOf(Closed(ticks, seconds), maxlen);
      && ComputeTrend(closes) != (if up then Down else Up)
      && Confirmed(closes, if up then BuyYes else BuyNo)
  {
    ClosedOneWay(ticks, seconds, up);
    LastOfRising(Closed(ticks, seconds), maxlen, up);
    RisingNeverOpposed(LastOf(Closed(ticks, seconds), maxlen), up);
  }

  predicate Confirmed(closes: seq<real>, signal: Signal) {
    || |closes| < EMA_PERIOD
    || match signal
       case BuyYes => ComputeTrend(closes) != Down
       case BuyNo => ComputeTrend(closes) != Up
       case Skip => true
  }

  /** Both builders of one asset. */
  class AssetTrend {
    const minute: CandleBuilder
    const five: CandleBuilder

    ghost predicate Valid()
      reads minute, five
    {
      && minute != five && minute.Valid() && five.Valid()
      && minute.duration == 60 && five.duration == 300 && minute.maxlen == five.maxlen == MAX_CANDLES
      && minute.ticks == five.ticks
    }

    constructor ()
      ensures Valid() && fresh(minute) && fresh(five) && minute.ticks == []
    {
      minute := new CandleBuilder(60, MAX_CANDLES);
      five := new CandleBuilder(300, MAX_CANDLES);
    }

    /** A price that is not positive is no tick. */
    method Update(price: real, ts: real)
      requires Valid()
      modifies minute, five
      ensures Valid()
      ensures minute.ticks == if price <= 0.0 then old(minute.ticks) else old(minute.ticks) + [Tick(price, ts)]
    {
      if price <= 0.0 {
        return;
      }
      minute.Update(price, ts);
      five.Update(price, ts);
    }

    /** The trend of everything ever fed, at one-minute or five-minute candles. */
    method GetTrend(short: bool) returns (t: Trend)
      requires Valid()
      ensures t == ComputeTrend(LastOf(Closed(minute.ticks, if short then 60 else 300), 20))
    {
      var closes := if short then minute.closes else five.closes;
      if |closes| < EMA_PERIOD {
        return Flat;
      }
      var values := Ema(closes, EMA_PERIOD);
      return TrendOf(values[|values| - 1] - values[|values| - 2]);
    }

    method IsConfirmed(signal: Signal) returns (ok: bool)
      requires Valid()
      ensures ok <==> Confirmed(LastOf(Closed(minute.ticks, 60), 20), signal)
      ensures Rising(PricesOf(minute.ticks), true) && signal == BuyYes ==> ok
      ensures Rising(PricesOf(minute.ticks), false) && signal == BuyNo ==> ok
    {
      if Rising(PricesOf(minute.ticks), true) {
        OneWayTicksNeverOpposed(minute.ticks, 60, MAX_CANDLES, true);
      }
      if Rising(PricesOf(minute.ticks), false) {
        OneWayTicksNeverOpposed(minute.ticks, 60, MAX_CANDLES, false);
      }
      if |minute.closes| < EMA_PERIOD {
        return true;
      }
      var trend := GetTrend(true);
      match signal
      case BuyYes => return trend != Down;
      case BuyNo => return trend != Up;
      case Skip => return true;
    }
  }
}
