/** Backtest statistics: equity, drawdown, totals and streaks over a list of simulated trades. */
module Metrics {
  import opened Common
  import opened Rounding
  import opened Sorting
  import Ledger

  datatype SimTrade = SimTrade(
    bar: nat, signal: Ledger.Signal, entry: real, won: bool, bet: real, pnl: real, after: real)

  // ---- equity ----

  function Pnls(trades: seq<SimTrade>): (r: seq<real>)
    ensures |r| == |trades| && forall i | 0 <= i < |r| :: r[i] == trades[i].pnl
  {
    seq(|trades|, i requires 0 <= i < |trades| => trades[i].pnl)
  }

  /** The equity after each trade, with the starting amount in front. */
  function Curve(initial: real, pnls: seq<real>): (c: seq<real>)
    ensures |c| == |pnls| + 1
    ensures forall k | 0 <= k < |c| :: c[k] == initial + Sum(pnls[..k])
  {
    if |pnls| == 0 then [initial]
    else
      var n := |pnls| - 1;
      var before := Curve(initial, pnls[..n]);
      SumAppend(pnls[..n], pnls[n]);
      assert pnls == pnls[..n] + [pnls[n]] == pnls[..|pnls|];
      assert forall k | 0 <= k <= n :: pnls[..n][..k] == pnls[..k];
      before + [before[n] + pnls[n]]
  }

  method BuildEquityCurve(trades: seq<SimTrade>, initial: real) returns (curve: seq<real>)
    ensures curve == Curve(initial, Pnls(trades))
  {
    curve := [initial];
    var equity := initial;
    for i := 0 to |trades|
      invariant |curve| == i + 1 && equity == curve[i]
      invariant forall k | 0 <= k <= i :: curve[k] == initial + Sum(Pnls(trades)[..k])
    {
      equity := equity + trades[i].pnl;
      curve := curve + [equity];
      assert Pnls(trades)[..i + 1] == Pnls(trades)[..i] + [trades[i].pnl];
      SumAppend(Pnls(trades)[..i], trades[i].pnl);
    }
  }

  // ---- drawdown ----

  /** The running maximum up to and including k. */
  function PeakTo(e: seq<real>, k: nat): real
    requires k < |e|
  {
    if k == 0 then e[0] else Max(PeakTo(e, k - 1), e[k])
  }

  lemma {:induction false} PeakBounds(e: seq<real>, k: nat)
    requires k < |e|
    ensures forall i: nat | i <= k :: e[i] <= PeakTo(e, k)
    ensures exists i: nat :: i <= k && e[i] == PeakTo(e, k)
  {
    if k == 0 {
      assert e[0] == PeakTo(e, 0);
    } else {
      PeakBounds(e, k - 1);
      assert e[k] <= PeakTo(e, k);
      if PeakTo(e, k) == e[k] {
      } else {
        var i: nat :| i <= k - 1 && e[i] == PeakTo(e, k - 1);
      }
    }
  }

  function Highest(s: seq<real>): (m: real)
    requires |s| > 0
    ensures m in s && forall i | 0 <= i < |s| :: s[i] <= m
  {
    if |s| == 1 then s[0] else Max(s[0], Highest(s[1..]))
  }

  function Falls(e: seq<real>): (r: seq<real>)
    ensures |r| == |e|
  {
    seq(|e|, k requires 0 <= k < |e| => PeakTo(e, k) - e[k])
  }

  /** The fall from peak to x as a share of the peak, when the peak is positive. */
  function Share(peak: real, x: real): real {
    if peak > 0.0 then (peak - x) / peak else 0.0
  }

  function ShareFalls(e: seq<real>): (r: seq<real>)
    ensures |r| == |e|
  {
    seq(|e|, k requires 0 <= k < |e| => Share(PeakTo(e, k), e[k]))
  }

  function MaxDrawdown(e: seq<real>): (real, real) {
    if |e| < 2 then (0.0, 0.0) else (Highest(Falls(e)), Highest(ShareFalls(e)))
  }

  function Fall(e: seq<real>, i: nat, j: nat): real
    requires i <= j < |e|
  {
    e[i] - e[j]
  }

  /** d is the greatest fall between any two moments in order: the quadratic definition. */
  ghost predicate IsWorstFall(e: seq<real>, d: real) {
    && (forall i: nat, j: nat | i <= j < |e| :: Fall(e, i, j) <= d)
    && (exists i: nat, j: nat :: i <= j < |e| && Fall(e, i, j) == d)
  }

  lemma MaxDrawdownIsWorst(e: seq<real>)
    requires |e| > 0
    ensures IsWorstFall(e, MaxDrawdown(e).0)
  {
    var w := MaxDrawdown(e).0;
    if |e| == 1 {
      assert Fall(e, 0, 0) == w;
    } else {
      var falls := Falls(e);
      forall i: nat, j: nat | i <= j < |e| ensures Fall(e, i, j) <= w {
        PeakBounds(e, j);
        assert falls[j] <= w;
      }
      var j: nat :| j < |e| && falls[j] == w;
      PeakBounds(e, j);
      var i: nat :| i <= j && e[i] == PeakTo(e, j);
      assert Fall(e, i, j) == w;
    }
  }

  lemma WorstFallUnique(e: seq<real>, d: real, w: real)
    requires IsWorstFall(e, d) && IsWorstFall(e, w)
    ensures d == w
  {
  }

  /** The running-peak computation finds the worst fall, and there is only one such number. */
  lemma DrawdownIsWorstFall(e: seq<real>, d: real)
    requires |e| > 0
    ensures IsWorstFall(e, d) <==> d == MaxDrawdown(e).0
  {
    MaxDrawdownIsWorst(e);
    if IsWorstFall(e, d) {
      WorstFallUnique(e, d, MaxDrawdown(e).0);
    }
  }

  /**
   At a point of the curve the running peak gives the deepest proportional fall from any earlier
   positive level exactly when the point is not below zero, or no lower positive level came before.
   */
  lemma PeakIsDeepestExactlyWhen(e: seq<real>, j: nat)
    requires j < |e|
    ensures (forall i: nat | i <= j && e[i] > 0.0 :: Share(e[i], e[j]) <= Share(PeakTo(e, j), e[j]))
       <==> (e[j] >= 0.0 || forall i: nat | i <= j && e[i] > 0.0 :: e[i] == PeakTo(e, j))
  {
    var top := PeakTo(e, j);
    PeakBounds(e, j);
    forall i: nat | i <= j && e[i] > 0.0
      ensures Share(e[i], e[j]) <= Share(top, e[j]) <==> (e[j] >= 0.0 || e[i] == top)
    {
      ShareOrder(e[i], top, e[j]);
    }
  }

  /** From a higher peak the proportional fall to x is larger when x is positive, smaller below zero. */
  lemma ShareOrder(low: real, high: real, x: real)
    requires 0.0 < low <= high
    ensures Share(low, x) <= Share(high, x) <==> (x >= 0.0 || low == high)
  {
    ShareForm(low, x);
    ShareForm(high, x);
    if low < high {
      QuotientSigns(x, low, high, x / low, x / high);
    }
  }

  lemma ShareForm(peak: real, x: real)
    requires peak > 0.0
    ensures Share(peak, x) == 1.0 - x / peak && x / peak * peak == x
  {
    var q := x / peak;
    assert q * peak == x;
    assert (1.0 - q) * peak == peak - x;
    QuotientIs(peak - x, peak, 1.0 - q);
  }

  lemma QuotientSigns(x: real, low: real, high: real, a: real, b: real)
    requires 0.0 < low < high && a * low == x && b * high == x
    ensures b <= a <==> x >= 0.0
  {
  }

  /** On a curve that never goes below zero the reported share is the deepest proportional fall. */
  lemma ShareIsDeepestFall(e: seq<real>)
    requires |e| > 0 && forall j | 0 <= j < |e| :: e[j] >= 0.0
    ensures forall i, j | 0 <= i <= j < |e| && e[i] > 0.0 :: Share(e[i], e[j]) <= MaxDrawdown(e).1
    ensures exists i, j :: 0 <= i <= j < |e| && Share(e[i], e[j]) == MaxDrawdown(e).1
  {
    var w := MaxDrawdown(e).1;
    if |e| == 1 {
      assert Share(e[0], e[0]) == 0.0;
    } else {
      var falls := ShareFalls(e);
      forall i, j | 0 <= i <= j < |e| && e[i] > 0.0 ensures Share(e[i], e[j]) <= w {
        PeakIsDeepestExactlyWhen(e, j);
        assert falls[j] <= w;
      }
      var j :| 0 <= j < |e| && falls[j] == w;
      PeakBounds(e, j);
      var i: nat :| i <= j && e[i] == PeakTo(e, j);
      assert Share(e[i], e[j]) == w;
    }
  }

  function DrawdownCurve(e: seq<real>): (r: seq<real>)
    ensures |r| == |e|
  {
    seq(|e|, k requires 0 <= k < |e| => Round(Share(PeakTo(e, k), e[k]), Six))
  }

  /** The plotted curve peaks at the reported share, to six places. */
  lemma DrawdownCurveTop(e: seq<real>)
    requires |e| > 1
    ensures Highest(DrawdownCurve(e)) == Round(MaxDrawdown(e).1, Six)
  {
    var falls, curve := ShareFalls(e), DrawdownCurve(e);
    var j :| 0 <= j < |e| && falls[j] == Highest(falls);
    assert curve[j] == Round(Highest(falls), Six);
    var k :| 0 <= k < |e| && curve[k] == Highest(curve);
    RoundMonotone(falls[k], Highest(falls), Six);
  }

  // ---- streaks ----

  ghost predicate AllSame(trades: seq<SimTrade>, won: bool, i: nat, j: nat) {
    i <= j <= |trades| && forall k | i <= k < j :: trades[k].won == won
  }

  /** n is the length of the longest stretch of trades that all ended this way. */
  ghost predicate IsLongestRun(trades: seq<SimTrade>, won: bool, n: nat) {
    && (exists i: nat, j: nat :: AllSame(trades, won, i, j) && j - i == n)
    && (forall i: nat, j: nat | AllSame(trades, won, i, j) :: j - i <= n)
  }

  /** cur is how many of the last trades before k ended this way, and no more. */
  ghost predicate Tail(trades: seq<SimTrade>, won: bool, k: nat, cur: nat) {
    && cur <= k && AllSame(trades, won, k - cur, k)
    && (cur < k ==> trades[k - cur - 1].won != won)
  }

  lemma StartsAfter(trades: seq<SimTrade>, won: bool, i: nat, j: nat, m: nat)
    requires AllSame(trades, won, i, j) && m < j && trades[m].won != won
    ensures m < i
  {
  }

  lemma RunExtended(trades: seq<SimTrade>, won: bool, k: nat, cur: nat, longest: nat)
    requires k < |trades| && trades[k].won == won
    requires Tail(trades[..k], won, k, cur) && IsLongestRun(trades[..k], won, longest)
    ensures Tail(trades[..k + 1], won, k + 1, cur + 1)
    ensures IsLongestRun(trades[..k + 1], won, if longest < cur + 1 then cur + 1 else longest)
  {
    var now, after := trades[..k], trades[..k + 1];
    var best := if longest < cur + 1 then cur + 1 else longest;
    var i0: nat, j0: nat :| AllSame(now, won, i0, j0) && j0 - i0 == longest;
    assert AllSame(after, won, i0, j0);
    assert AllSame(after, won, k - cur, k + 1);
    forall i: nat, j: nat | AllSame(after, won, i, j) ensures j - i <= best {
      if j <= k {
        assert AllSame(now, won, i, j);
      } else if cur < k {
        StartsAfter(after, won, i, j, k - cur - 1);
      }
    }
  }

  lemma RunBroken(trades: seq<SimTrade>, won: bool, k: nat, longest: nat)
    requires k < |trades| && trades[k].won != won && IsLongestRun(trades[..k], won, longest)
    ensures Tail(trades[..k + 1], won, k + 1, 0) && IsLongestRun(trades[..k + 1], won, longest)
  {
    var now, after := trades[..k], trades[..k + 1];
    var i0: nat, j0: nat :| AllSame(now, won, i0, j0) && j0 - i0 == longest;
    assert AllSame(after, won, i0, j0);
    forall i: nat, j: nat | AllSame(after, won, i, j) ensures j - i <= longest {
      if j <= k {
        assert AllSame(now, won, i, j);
      } else {
        StartsAfter(after, won, i, j, k);
      }
    }
  }

  method ConsecutiveStreaks(trades: seq<SimTrade>) returns (maxWins: nat, maxLosses: nat)
    ensures IsLongestRun(trades, true, maxWins) && IsLongestRun(trades, false, maxLosses)
  {
    maxWins, maxLosses := 0, 0;
    var curWins, curLosses := 0, 0;
    assert trades[..0] == [];
    assert AllSame(trades[..0], true, 0, 0) && AllSame(trades[..0], false, 0, 0);
    for k := 0 to |trades|
      invariant Tail(trades[..k], true, k, curWins) && IsLongestRun(trades[..k], true, maxWins)
      invariant Tail(trades[..k], false, k, curLosses) && IsLongestRun(trades[..k], false, maxLosses)
    {
      if trades[k].won {
        RunExtended(trades, true, k, curWins, maxWins);
        RunBroken(trades, false, k, maxLosses);
        curWins, curLosses := curWins + 1, 0;
        maxWins := if maxWins < curWins then curWins else maxWins;
      } else {
        RunExtended(trades, false, k, curLosses, maxLosses);
        RunBroken(trades, true, k, maxWins);
        curLosses, curWins := curLosses + 1, 0;
        maxLosses := if maxLosses < curLosses then curLosses else maxLosses;
      }
    }
    assert trades[..|trades|] == trades;
  }

  // ---- per-trade returns ----

  /** What a trade made for each dollar it tied up; a trade that tied up nothing made nothing. */
  function TradeReturn(t: SimTrade): real {
    if t.entry * t.bet > 0.0 then t.pnl / (t.entry * t.bet) else 0.0
  }

  function TradeReturns(trades: seq<SimTrade>): seq<real> {
    Map(TradeReturn, trades)
  }

  function SquareFrom(m: real): real -> real {
    x => (x - m) * (x - m)
  }

  function Average(gains: seq<real>): real
    requires |gains| > 0
  {
    Sum(gains) / |gains| as real
  }

  /** With one degree of freedom taken off. */
  function Variance(gains: seq<real>): real
    requires |gains| > 1
  {
    Sum(Map(SquareFrom(Average(gains)), gains)) / (|gains| - 1) as real
  }

  /** The mean over the deviation; `root` is the square root. */
  function Sharpe(root: real -> real, gains: seq<real>): real {
    if |gains| < 2 then 0.0
    else if root(Variance(gains)) == 0.0 then 0.0
    else Average(gains) / root(Variance(gains))
  }

  function Squares(gains: seq<real>): real {
    Sum(Map(SquareFrom(0.0), gains))
  }

  lemma SquareSplit(x: real, m: real)
    ensures SquareFrom(m)(x) == SquareFrom(0.0)(x) - 2.0 * Weighed(m, x) + Weighed(m, m)
  {
  }

  lemma WeighedAdds(m: real, a: real, b: real)
    ensures Weighed(m, a + b) == Weighed(m, a) + Weighed(m, b)
  {
  }

  lemma {:induction false} SquaresSplit(gains: seq<real>, m: real, n: nat)
    requires n == |gains|
    ensures Sum(Map(SquareFrom(m), gains))
         == Squares(gains) - 2.0 * Weighed(m, Sum(gains)) + Weighed(Weighed(m, m), n as real)
  {
    if n > 0 {
      var x, rest := gains[0], gains[1..];
      SquaresSplit(rest, m, n - 1);
      assert Map(SquareFrom(m), gains)[1..] == Map(SquareFrom(m), rest);
      assert Map(SquareFrom(0.0), gains)[1..] == Map(SquareFrom(0.0), rest);
      SquareSplit(x, m);
      WeighedAdds(m, x, Sum(rest));
      WeighedAdds(Weighed(m, m), (n - 1) as real, 1.0);
      WeighedOne(Weighed(m, m));
      assert n as real == (n - 1) as real + 1.0;
    }
  }

  lemma WeighedOne(x: real)
    ensures Weighed(x, 1.0) == x
  {
  }

  lemma AverageWeighed(total: real, n: nat)
    requires n > 0
    ensures Weighed(total / n as real, n as real) == total
  {
  }

  lemma MeanSquared(m: real, n: real, total: real)
    requires Weighed(m, n) == total
    ensures Weighed(m, total) == Weighed(Weighed(m, m), n)
  {
    assert m * (m * n) == (m * m) * n;
  }

  /** The deviations are measured from the mean: their squares are those of the returns, less the mean's. */
  lemma VarianceIsSpread(gains: seq<real>, n: nat, m: real)
    requires n == |gains| > 1 && m == Average(gains)
    ensures Weighed(m, n as real) == Sum(gains)
    ensures Weighed(Variance(gains), (n - 1) as real) == Squares(gains) - Weighed(Weighed(m, m), n as real)
  {
    AverageWeighed(Sum(gains), n);
    SquaresSplit(gains, m, n);
    MeanSquared(m, n as real, Sum(gains));
    AverageWeighed(Sum(Map(SquareFrom(m), gains)), n - 1);
  }

  lemma SharpeIsRatio(root: real -> real, gains: seq<real>, d: real, m: real)
    requires |gains| > 1 && d == root(Variance(gains)) && d > 0.0 && m == Average(gains)
    ensures Sharpe(root, gains) == m / d
  {
  }

  /** When the returns deviate the ratio is their mean in units of the deviation, and has its sign. */
  lemma SharpeIsMeanOverDeviation(root: real -> real, gains: seq<real>, d: real, m: real)
    requires |gains| > 1 && d == root(Variance(gains)) && d > 0.0 && m == Average(gains)
    ensures Weighed(Sharpe(root, gains), d) == m && (Sharpe(root, gains) > 0.0 <==> m > 0.0)
  {
    SharpeIsRatio(root, gains, d, m);
    RatioMeans(m, d, Sharpe(root, gains));
  }

  lemma RatioMeans(m: real, d: real, r: real)
    requires d > 0.0 && r == m / d
    ensures Weighed(r, d) == m && (r > 0.0 <==> m > 0.0)
  {
    QuotientOrder(0.0, m, d);
  }

  /** The ratio only depends on which returns occurred. */
  lemma SharpeIgnoresOrder(root: real -> real, a: seq<real>, b: seq<real>)
    requires multiset(a) == multiset(b)
    ensures Sharpe(root, a) == Sharpe(root, b)
  {
    SameLength(a, b);
    SumPermutation(a, b);
    if |a| > 1 {
      MapPermutation(SquareFrom(Average(a)), a, b);
      SumPermutation(Map(SquareFrom(Average(a)), a), Map(SquareFrom(Average(a)), b));
    }
  }

  // ---- totals ----

  /** Adds up the profits of the trades that ended this way. */
  function SideSum(trades: seq<SimTrade>, won: bool): real {
    if |trades| == 0 then 0.0
    else
      var t := trades[|trades| - 1];
      SideSum(trades[..|trades| - 1], won) + if t.won == won then t.pnl else 0.0
  }

  function SideCount(trades: seq<SimTrade>, won: bool): (n: nat)
    ensures n <= |trades|
  {
    if |trades| == 0 then 0
    else SideCount(trades[..|trades| - 1], won) + if trades[|trades| - 1].won == won then 1 else 0
  }

  /** The positions of the trades that ended this way. */
  function Ended(trades: seq<SimTrade>, won: bool): set<nat> {
    set i: nat | i < |trades| && trades[i].won == won
  }

  /** The profit of the trades that ended this way, and nothing for the others. */
  function SidePnls(trades: seq<SimTrade>, won: bool): (r: seq<real>)
    ensures |r| == |trades|
  {
    seq(|trades|, i requires 0 <= i < |trades| => if trades[i].won == won then trades[i].pnl else 0.0)
  }

  lemma {:induction false} SideCounted(trades: seq<SimTrade>, won: bool)
    ensures SideCount(trades, won) == |Ended(trades, won)|
  {
    if |trades| > 0 {
      var n := |trades| - 1;
      SideCounted(trades[..n], won);
      assert Ended(trades, won) == Ended(trades[..n], won) + if trades[n].won == won then {n} else {};
    }
  }

  lemma {:induction false} SideSummed(trades: seq<SimTrade>, won: bool)
    ensures SideSum(trades, won) == Sum(SidePnls(trades, won))
  {
    if |trades| > 0 {
      var n := |trades| - 1;
      var x := if trades[n].won == won then trades[n].pnl else 0.0;
      SideSummed(trades[..n], won);
      assert SidePnls(trades, won) == SidePnls(trades[..n], won) + [x];
      SumAppend(SidePnls(trades[..n], won), x);
    }
  }

  function GrossProfit(trades: seq<SimTrade>): real {
    SideSum(trades, true)
  }

  function GrossLoss(trades: seq<SimTrade>): real {
    Abs(SideSum(trades, false))
  }

  function TotalPnl(trades: seq<SimTrade>): real {
    GrossProfit(trades) - GrossLoss(trades)
  }

  function Mean(total: real, n: nat): real {
    if n == 0 then 0.0 else total / n as real
  }

  function Weighed(average: real, share: real): real {
    average * share
  }

  function Expectancy(trades: seq<SimTrade>): real {
    var winRate := Mean(SideCount(trades, true) as real, |trades|);
    Weighed(Mean(GrossProfit(trades), SideCount(trades, true)), winRate)
    - Weighed(Mean(GrossLoss(trades), SideCount(trades, false)), 1.0 - winRate)
  }

  lemma {:induction false} SidesAddUp(trades: seq<SimTrade>)
    ensures SideSum(trades, true) + SideSum(trades, false) == Sum(Pnls(trades))
    ensures SideCount(trades, true) + SideCount(trades, false) == |trades|
  {
    if |trades| > 0 {
      var n := |trades| - 1;
      SidesAddUp(trades[..n]);
      assert Pnls(trades) == Pnls(trades[..n]) + [trades[n].pnl];
      SumAppend(Pnls(trades[..n]), trades[n].pnl);
    }
  }

  /** The reported total is the change in equity exactly when the losing trades lost on balance. */
  lemma TotalIsEquityChangeExactlyWhen(trades: seq<SimTrade>, initial: real)
    ensures var curve := Curve(initial, Pnls(trades));
      TotalPnl(trades) == curve[|trades|] - curve[0] <==> SideSum(trades, false) <= 0.0
  {
    SidesAddUp(trades);
    assert Pnls(trades)[..|trades|] == Pnls(trades);
  }

  /** Expectancy, built from four averages, is the plain average profit per trade. */
  lemma ExpectancyIsAverage(trades: seq<SimTrade>)
    requires |trades| > 0
    ensures Expectancy(trades) == Mean(TotalPnl(trades), |trades|)
  {
    SidesAddUp(trades);
    var n, w, l := |trades|, SideCount(trades, true), SideCount(trades, false);
    if w == 0 { SideEmpty(trades, true); }
    if l == 0 { SideEmpty(trades, false); }
    RatesAddUp(w, l, n);
    Weighted(GrossProfit(trades), w, n);
    Weighted(GrossLoss(trades), l, n);
    MeanDifference(GrossProfit(trades), GrossLoss(trades), n);
  }

  lemma RatesAddUp(w: nat, l: nat, n: nat)
    requires n > 0 && w + l == n
    ensures 1.0 - Mean(w as real, n) == Mean(l as real, n)
  {
    MeanDifference(n as real, w as real, n);
    QuotientIs(n as real, n as real, 1.0);
    assert n as real - w as real == l as real;
  }

  lemma MeanDifference(a: real, b: real, n: nat)
    requires n > 0
    ensures Mean(a - b, n) == Mean(a, n) - Mean(b, n)
  {
  }

  lemma {:induction false} SideEmpty(trades: seq<SimTrade>, won: bool)
    requires SideCount(trades, won) == 0
    ensures SideSum(trades, won) == 0.0
  {
    if |trades| > 0 {
      SideEmpty(trades[..|trades| - 1], won);
    }
  }

  /** An average over k of n, weighted by k of n, is the sum over n. */
  lemma Weighted(total: real, k: nat, n: nat)
    requires n > 0 && (k == 0 ==> total == 0.0)
    ensures Weighed(Mean(total, k), Mean(k as real, n)) == Mean(total, n)
  {
  }
}
