/** Relative strength and Bollinger bands: the live feed's and the backtest's. */
module Indicators {
  import opened Common
  import opened Rounding
  import opened Candles
  import Metrics

  const RSI_CANDLES: nat := 30

  /** What the backtest takes a side without any move to be. */
  const NO_MOVE: real := 0.0001

  /** The rises (or falls) among the m price changes that end at position i, added up. */
  function Moved(prices: seq<real>, i: nat, m: nat, up: bool): (r: real)
    requires m <= i < |prices|
    ensures r >= 0.0
  {
    if m == 0 then 0.0
    else
      var d := prices[i - m + 1] - prices[i - m];
      (if up then Max(d, 0.0) else Abs(Min(d, 0.0))) + Moved(prices, i, m - 1, up)
  }

  function PerBar(total: real, period: nat): real
    requires period > 0
  {
    total / period as real
  }

  /** The index for an average rise and an average fall that is not zero. */
  function Strength(gain: real, loss: real): real
    requires loss > 0.0 && gain >= 0.0
  {
    var rs := gain / loss;
    QuotientOrder(0.0, gain, loss);
    100.0 - 100.0 / (1.0 + rs)
  }

  /** The live index before rounding: no falls at all read as 100. */
  function LiveLevel(gain: real, loss: real): real
    requires loss >= 0.0 && gain >= 0.0
  {
    if loss == 0.0 then 100.0 else Strength(gain, loss)
  }

  /** The backtest's index before rounding: a missing side reads as a tiny move. */
  function ReplayLevel(gain: real, loss: real): real
    requires loss >= 0.0 && gain >= 0.0
  {
    Strength(if gain == 0.0 then NO_MOVE else gain, if loss == 0.0 then NO_MOVE else loss)
  }

  lemma PerBarSign(total: real, period: nat)
    requires period > 0 && total >= 0.0
    ensures PerBar(total, period) >= 0.0 && (PerBar(total, period) == 0.0 <==> total == 0.0)
  {
  }

  function LiveRsi(closes: seq<real>, period: nat): Option<real>
    requires period > 0
  {
    if |closes| < period + 1 then None
    else
      var gain := Moved(closes, |closes| - 1, period, true);
      var loss := Moved(closes, |closes| - 1, period, false);
      PerBarSign(gain, period);
      PerBarSign(loss, period);
      if loss == 0.0 then Some(100.0) else Some(Round(LiveLevel(PerBar(gain, period), PerBar(loss, period)), Two))
  }

  function ReplayRsi(prices: seq<real>, period: nat, i: nat): Option<real>
    requires period > 0 && i < |prices|
  {
    if i < period then None
    else
      PerBarSign(Moved(prices, i, period, true), period);
      PerBarSign(Moved(prices, i, period, false), period);
      Some(Round(ReplayLevel(PerBar(Moved(prices, i, period, true), period),
                             PerBar(Moved(prices, i, period, false), period)), Two))
  }

  /** The index is the rises' share of all movement. */
  lemma StrengthIsShare(gain: real, loss: real)
    requires gain >= 0.0 && loss > 0.0
    ensures Strength(gain, loss) == 100.0 * (gain / (gain + loss))
    ensures 0.0 <= Strength(gain, loss) < 100.0
    ensures Strength(gain, loss) == 0.0 <==> gain == 0.0
  {
  }

  /** The two indicators agree exactly when the window holds both a rise and a fall. */
  lemma LevelsAgreeExactlyWhen(gain: real, loss: real)
    requires gain >= 0.0 && loss >= 0.0
    ensures LiveLevel(gain, loss) == ReplayLevel(gain, loss) <==> gain > 0.0 && loss > 0.0
  {
  }

  // ---- the index, told by the prices ----

  /** The way the price has gone over the m changes that end at position i, up and down alike. */
  function Travelled(prices: seq<real>, i: nat, m: nat): (r: seq<real>)
    requires m <= i < |prices|
    ensures |r| == m && forall k | 0 <= k < m :: r[k] == Abs(prices[i - m + 1 + k] - prices[i - m + k])
  {
    seq(m, k requires 0 <= k < m => Abs(prices[i - m + 1 + k] - prices[i - m + k]))
  }

  /** Rises less falls is the net change, rises plus falls the way gone. */
  lemma {:induction false} MovedTold(prices: seq<real>, i: nat, m: nat)
    requires m <= i < |prices|
    ensures Moved(prices, i, m, true) - Moved(prices, i, m, false) == prices[i] - prices[i - m]
    ensures Moved(prices, i, m, true) + Moved(prices, i, m, false) == Sum(Travelled(prices, i, m))
  {
    if m > 0 {
      MovedTold(prices, i, m - 1);
      assert Travelled(prices, i, m)[1..] == Travelled(prices, i, m - 1);
    }
  }

  /** Halfway, and from there by the net change against the way gone. */
  predicate Told(net: real, way: real, index: real) {
    if way > 0.0 then (index - 50.0) * way == 50.0 * net else index == 100.0
  }

  lemma LevelTold(gain: real, loss: real, period: nat)
    requires gain >= 0.0 && loss >= 0.0 && period > 0
    ensures PerBar(gain, period) >= 0.0 && PerBar(loss, period) >= 0.0
    ensures Told(gain - loss, gain + loss, LiveLevel(PerBar(gain, period), PerBar(loss, period)))
    ensures gain > 0.0 && loss > 0.0 ==>
      LiveLevel(PerBar(gain, period), PerBar(loss, period)) == ReplayLevel(PerBar(gain, period), PerBar(loss, period))
  {
    PerBarSign(gain, period);
    PerBarSign(loss, period);
    var a, b := PerBar(gain, period), PerBar(loss, period);
    if loss > 0.0 {
      StrengthIsShare(a, b);
      ShareBack(a, b, gain, loss, period as real);
    }
  }

  lemma ShareBack(a: real, b: real, gain: real, loss: real, n: real)
    requires n > 0.0 && a >= 0.0 && b > 0.0 && a * n == gain && b * n == loss
    ensures (100.0 * (a / (a + b)) - 50.0) * (gain + loss) == 50.0 * (gain - loss)
  {
    var q := a / (a + b);
    assert q * (a + b) == a;
    assert gain + loss == (a + b) * n;
    assert q * (gain + loss) == (q * (a + b)) * n;
    assert q * (gain + loss) == gain;
  }

  /** The live index of closes: the one number told by the net change and the way gone, to two places. */
  ghost predicate RsiTold(closes: seq<real>, period: nat, rsi: real) {
    0 < period < |closes| &&
    exists x :: rsi == Round(x, Two)
      && Told(closes[|closes| - 1] - closes[|closes| - 1 - period], Sum(Travelled(closes, |closes| - 1, period)), x)
  }

  lemma LiveRsiTold(closes: seq<real>, period: nat)
    requires 0 < period < |closes|
    ensures LiveRsi(closes, period).Some? && RsiTold(closes, period, LiveRsi(closes, period).value)
  {
    var i := |closes| - 1;
    var gain, loss := Moved(closes, i, period, true), Moved(closes, i, period, false);
    MovedTold(closes, i, period);
    LevelTold(gain, loss, period);
    WholeRounds();
    var x := LiveLevel(PerBar(gain, period), PerBar(loss, period));
    assert Told(closes[i] - closes[i - period], Sum(Travelled(closes, i, period)), x);
    assert LiveRsi(closes, period).value == Round(x, Two);
  }

  lemma WholeRounds()
    ensures Round(100.0, Two) == 100.0 && Round(50.0, Two) == 50.0
  {
  }

  lemma ToldSide(net: real, way: real, x: real)
    requires Told(net, way, x) && way >= 0.0 && (way == 0.0 ==> net == 0.0)
    ensures net >= 0.0 ==> x >= 50.0
    ensures net < 0.0 ==> x < 50.0
  {
    if way > 0.0 {
      ProductSign(x - 50.0, way);
    }
  }

  lemma RoundedSide(x: real)
    ensures x >= 50.0 ==> Round(x, Two) >= 50.0
    ensures x < 50.0 ==> Round(x, Two) <= 50.0
  {
    WholeRounds();
    if x >= 50.0 {
      RoundMonotone(50.0, x, Two);
    } else {
      RoundMonotone(x, 50.0, Two);
    }
  }

  function OrTiny(total: real, period: nat): real {
    if total == 0.0 then 0.0001 * period as real else total
  }

  /** The backtest's index before rounding: the rises' share, with a tiny move for a side that has none. */
  predicate ShareTold(rises: real, falls: real, period: nat, index: real) {
    index * (OrTiny(rises, period) + OrTiny(falls, period)) == 100.0 * OrTiny(rises, period)
  }

  /** Position i of the backtest's series, told by the net change and the way gone. */
  ghost predicate ReplayTold(prices: seq<real>, period: nat, i: nat, rsi: real) {
    0 < period <= i < |prices| &&
    exists rises, falls, x :: rsi == Round(x, Two) && ShareTold(rises, falls, period, x)
      && rises - falls == prices[i] - prices[i - period] && rises + falls == Sum(Travelled(prices, i, period))
  }

  lemma PerBarTiny(total: real, period: nat)
    requires period > 0 && total >= 0.0
    ensures (if PerBar(total, period) == 0.0 then NO_MOVE else PerBar(total, period)) * period as real
         == OrTiny(total, period)
    ensures PerBar(total, period) >= 0.0
  {
    PerBarSign(total, period);
  }

  lemma StrengthTold(a: real, b: real, rises: real, falls: real, n: real)
    requires n > 0.0 && a > 0.0 && b > 0.0 && a * n == rises && b * n == falls
    ensures Strength(a, b) * (rises + falls) == 100.0 * rises
  {
    StrengthIsShare(a, b);
    var q := a / (a + b);
    assert q * (a + b) == a;
    assert rises + falls == (a + b) * n;
    assert q * (rises + falls) == (q * (a + b)) * n;
  }

  lemma ReplayLevelTold(gain: real, loss: real, rises: real, falls: real, period: nat)
    requires period > 0 && rises >= 0.0 && falls >= 0.0
    requires gain == PerBar(rises, period) >= 0.0 && loss == PerBar(falls, period) >= 0.0
    ensures ShareTold(rises, falls, period, ReplayLevel(gain, loss))
  {
    PerBarTiny(rises, period);
    PerBarTiny(falls, period);
    StrengthTold(if gain == 0.0 then NO_MOVE else gain, if loss == 0.0 then NO_MOVE else loss,
                 OrTiny(rises, period), OrTiny(falls, period), period as real);
  }

  lemma ReplayRsiIs(prices: seq<real>, period: nat, i: nat, gain: real, loss: real)
    requires 0 < period <= i < |prices|
    requires gain == PerBar(Moved(prices, i, period, true), period) >= 0.0
    requires loss == PerBar(Moved(prices, i, period, false), period) >= 0.0
    ensures ReplayRsi(prices, period, i) == Some(Round(ReplayLevel(gain, loss), Two))
  {
  }

  lemma ReplayRsiTold(prices: seq<real>, period: nat, i: nat)
    requires 0 < period <= i < |prices|
    ensures ReplayRsi(prices, period, i).Some? && ReplayTold(prices, period, i, ReplayRsi(prices, period, i).value)
  {
    var rises, falls := Moved(prices, i, period, true), Moved(prices, i, period, false);
    MovedTold(prices, i, period);
    PerBarSign(rises, period);
    PerBarSign(falls, period);
    var gain, loss := PerBar(rises, period), PerBar(falls, period);
    ReplayLevelTold(gain, loss, rises, falls, period);
    ReplayRsiIs(prices, period, i, gain, loss);
    ReplayIsTold(prices, period, i, rises, falls, ReplayLevel(gain, loss));
  }

  lemma ReplayIsTold(prices: seq<real>, period: nat, i: nat, rises: real, falls: real, x: real)
    requires 0 < period <= i < |prices| && ShareTold(rises, falls, period, x)
    requires rises - falls == prices[i] - prices[i - period] && rises + falls == Sum(Travelled(prices, i, period))
    ensures ReplayTold(prices, period, i, Round(x, Two))
  {
  }

  /** It is below half only if the price has fallen over the window, and above only if it has not. */
  lemma RsiFollowsPrice(closes: seq<real>, period: nat)
    requires 0 < period < |closes|
    ensures LiveRsi(closes, period).Some?
    ensures closes[|closes| - 1] >= closes[|closes| - 1 - period] ==> LiveRsi(closes, period).value >= 50.0
    ensures closes[|closes| - 1] < closes[|closes| - 1 - period] ==> LiveRsi(closes, period).value <= 50.0
  {
    var i := |closes| - 1;
    var net, way := closes[i] - closes[i - period], Sum(Travelled(closes, i, period));
    LiveRsiTold(closes, period);
    MovedTold(closes, i, period);
    var x :| LiveRsi(closes, period).value == Round(x, Two) && Told(net, way, x);
    ToldSide(net, way, x);
    RoundedSide(x);
  }

  lemma RoundedPercentage(x: real)
    requires 0.0 <= x <= 100.0
    ensures 0.0 <= Round(x, Two) <= 100.0
  {
  }

  /** Both are percentages whatever the prices. */
  lemma RsiBounds(prices: seq<real>, period: nat, i: nat)
    requires period > 0 && i < |prices|
    ensures ReplayRsi(prices, period, i).Some? ==> 0.0 <= ReplayRsi(prices, period, i).value <= 100.0
    ensures LiveRsi(prices, period).Some? ==> 0.0 <= LiveRsi(prices, period).value <= 100.0
  {
    if i >= period {
      LevelBounds(prices, period, i);
    }
    if |prices| > period {
      LevelBounds(prices, period, |prices| - 1);
    }
  }

  lemma LevelBounds(prices: seq<real>, period: nat, i: nat)
    requires 0 < period <= i < |prices|
    ensures var gain := PerBar(Moved(prices, i, period, true), period);
      var loss := PerBar(Moved(prices, i, period, false), period);
      && gain >= 0.0 && loss >= 0.0
      && 0.0 <= Round(ReplayLevel(gain, loss), Two) <= 100.0
      && 0.0 <= Round(LiveLevel(gain, loss), Two) <= 100.0
  {
    PerBarSign(Moved(prices, i, period, true), period);
    PerBarSign(Moved(prices, i, period, false), period);
    var gain := PerBar(Moved(prices, i, period, true), period);
    var loss := PerBar(Moved(prices, i, period, false), period);
    StrengthIsShare(if gain == 0.0 then NO_MOVE else gain, if loss == 0.0 then NO_MOVE else loss);
    if loss > 0.0 {
      StrengthIsShare(gain, loss);
    }
    RoundedPercentage(ReplayLevel(gain, loss));
    RoundedPercentage(LiveLevel(gain, loss));
  }

  // ---- no later price is used ----

  lemma {:induction false} MovedOfPrefix(a: seq<real>, b: seq<real>, i: nat, m: nat, up: bool)
    requires m <= i < |a| && i < |b| && a[..i + 1] == b[..i + 1]
    ensures Moved(a, i, m, up) == Moved(b, i, m, up)
  {
    if m > 0 {
      MovedOfPrefix(a, b, i, m - 1, up);
      assert a[..i + 1][i - m + 1] == b[..i + 1][i - m + 1] && a[..i + 1][i - m] == b[..i + 1][i - m];
    }
  }

  lemma RsiOfPrefix(a: seq<real>, b: seq<real>, period: nat, i: nat)
    requires period > 0 && i < |a| && i < |b| && a[..i + 1] == b[..i + 1]
    ensures ReplayRsi(a, period, i) == ReplayRsi(b, period, i)
  {
    if i >= period {
      MovedOfPrefix(a, b, i, period, true);
      MovedOfPrefix(a, b, i, period, false);
    }
  }

  // ---- bands ----

  datatype Band = Band(upper: real, lower: real, mid: real)

  /** The band at position i; `root` is the square root. */
  function ReplayBand(root: real -> real, mult: real, prices: seq<real>, period: nat, i: nat): Option<Band>
    requires period > 1 && i < |prices|
  {
    if i < period - 1 then None
    else
      var window := prices[i - period + 1..i + 1];
      Some(BandOf(Metrics.Average(window), root(Metrics.Variance(window)), mult))
  }

  function BandOf(mid: real, std: real, mult: real): Band {
    Band(Round(mid + mult * std, Two), Round(mid - mult * std, Two), Round(mid, Two))
  }

  lemma BandOrdered(mid: real, std: real, mult: real)
    requires std >= 0.0 && mult >= 0.0
    ensures var b := BandOf(mid, std, mult); b.lower <= b.mid <= b.upper
  {
    var width := mult * std;
    assert width >= 0.0;
    RoundMonotone(mid - width, mid, Two);
    RoundMonotone(mid, mid + width, Two);
  }

  /** To the cent: the mean of the window, and that far to either side of it. */
  predicate BandTold(b: Band, mid: real, width: real) {
    && mid - 0.005 <= b.mid <= mid + 0.005
    && mid + width - 0.005 <= b.upper <= mid + width + 0.005
    && mid - width - 0.005 <= b.lower <= mid - width + 0.005
  }

  lemma BandIsTold(mid: real, std: real, mult: real)
    ensures BandTold(BandOf(mid, std, mult), mid, mult * std)
  {
    var width := mult * std;
    RoundNear(mid, Two);
    RoundNear(mid + width, Two);
    RoundNear(mid - width, Two);
  }

  /** The prices up to and including position i, the last `period` of them. */
  function Window(prices: seq<real>, period: nat, i: nat): (r: seq<real>)
    requires period <= i + 1 <= |prices|
    ensures |r| == period && forall k | 0 <= k < period :: r[k] == prices[i + 1 - period + k]
  {
    prices[i + 1 - period..i + 1]
  }

  lemma ReplayBandTold(root: real -> real, mult: real, prices: seq<real>, period: nat, i: nat)
    requires 1 < period <= i + 1 <= |prices|
    ensures ReplayBand(root, mult, prices, period, i).Some?
    ensures var window := Window(prices, period, i);
      BandTold(ReplayBand(root, mult, prices, period, i).value, Metrics.Average(window),
               mult * root(Metrics.Variance(window)))
  {
    var window := Window(prices, period, i);
    assert window == prices[i - period + 1..i + 1];
    BandIsTold(Metrics.Average(window), root(Metrics.Variance(window)), mult);
  }

  lemma BandOfPrefix(root: real -> real, mult: real, a: seq<real>, b: seq<real>, period: nat, i: nat)
    requires period > 1 && i < |a| && i < |b| && a[..i + 1] == b[..i + 1]
    ensures ReplayBand(root, mult, a, period, i) == ReplayBand(root, mult, b, period, i)
  {
  }

  // ---- the series ----

  method GenerateRsi(prices: seq<real>, period: nat) returns (series: seq<Option<real>>)
    requires period > 0
    ensures |series| == |prices| && forall i | 0 <= i < |prices| :: series[i] == ReplayRsi(prices, period, i)
    ensures forall i | 0 <= i < |prices| ::
      if i < period then series[i] == None else series[i].Some? && ReplayTold(prices, period, i, series[i].value)
  {
    forall i: nat | period <= i < |prices|
      ensures ReplayRsi(prices, period, i).Some? && ReplayTold(prices, period, i, ReplayRsi(prices, period, i).value)
    {
      ReplayRsiTold(prices, period, i);
    }
    series := [];
    for i := 0 to |prices|
      invariant |series| == i && forall j | 0 <= j < i :: series[j] == ReplayRsi(prices, period, j)
    {
      series := series + [ReplayRsi(prices, period, i)];
    }
  }

  method GenerateBollinger(root: real -> real, mult: real, prices: seq<real>, period: nat)
    returns (series: seq<Option<Band>>)
    requires period > 1
    ensures |series| == |prices|
    ensures forall i | 0 <= i < |prices| :: series[i] == ReplayBand(root, mult, prices, period, i)
    ensures forall i: nat | i < |prices| ::
      if i + 1 < period then series[i] == None
      else
        var window := Window(prices, period, i);
        series[i].Some?
        && BandTold(series[i].value, Metrics.Average(window), mult * root(Metrics.Variance(window)))
  {
    forall i: nat | period <= i + 1 <= |prices|
      ensures ReplayBand(root, mult, prices, period, i).Some?
      ensures var window := Window(prices, period, i);
        BandTold(ReplayBand(root, mult, prices, period, i).value, Metrics.Average(window),
                 mult * root(Metrics.Variance(window)))
    {
      ReplayBandTold(root, mult, prices, period, i);
    }
    series := [];
    for i := 0 to |prices|
      invariant |series| == i && forall j | 0 <= j < i :: series[j] == ReplayBand(root, mult, prices, period, j)
    {
      series := series + [ReplayBand(root, mult, prices, period, i)];
    }
  }

  /** The live feed of one asset. */
  class RsiFeed {
    const candles: CandleBuilder

    ghost predicate Valid()
      reads candles
    {
      candles.Valid() && candles.duration == 60 && candles.maxlen == RSI_CANDLES
    }

    constructor ()
      ensures Valid() && fresh(candles) && candles.ticks == []
    {
      candles := new CandleBuilder(60, RSI_CANDLES);
    }

    method Update(price: real, now: real)
      requires Valid()
      modifies candles
      ensures Valid()
      ensures candles.ticks == if price <= 0.0 then old(candles.ticks) else old(candles.ticks) + [Tick(price, now)]
    {
      if price <= 0.0 {
        return;
      }
      candles.Update(price, now);
    }

    method GetRsi(period: nat) returns (rsi: Option<real>)
      requires Valid() && period > 0
      ensures rsi == LiveRsi(LastOf(Closed(candles.ticks, 60), RSI_CANDLES), period)
      ensures rsi.Some? ==> 0.0 <= rsi.value <= 100.0
      ensures rsi.Some? <==> period < |LastOf(Closed(candles.ticks, 60), 30)|
      ensures rsi.Some? ==> RsiTold(LastOf(Closed(candles.ticks, 60), 30), period, rsi.value)
    {
      if period < |candles.closes| {
        LiveRsiTold(candles.closes, period);
      }
      rsi := LiveRsi(candles.closes, period);
      if |candles.closes| > 0 {
        RsiBounds(candles.closes, period, 0);
      }
    }
  }
}
