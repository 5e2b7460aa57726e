/** Replaying the same trades in shuffled orders: what the order can change and what it cannot. */
module MonteCarlo {
  import opened Common
  import opened Metrics
  import opened Rounding
  import opened Sorting

  const RUIN_THRESHOLD: real := 0.10

  datatype Report = Report(
    iterations: nat,
    medianEquity: real, p5Equity: real, p95Equity: real,
    medianDrawdown: real, p95Drawdown: real,
    medianSharpe: real, p5Sharpe: real, p95Sharpe: real,
    probProfit: real, probRuin: real)

  const NO_REPORT := Report(0, 0.0, 0.0, 0.0, 0.0, 0.0, 0.0, 0.0, 0.0, 0.0, 0.0)

  // ---- orders ----

  function Upto(n: nat): (r: seq<nat>)
    ensures |r| == n && forall i | 0 <= i < n :: r[i] == i
  {
    seq(n, i requires 0 <= i => i)
  }

  predicate IsShuffle(order: seq<nat>, n: nat) {
    multiset(order) == multiset(Upto(n))
  }

  function At(values: seq<real>): nat -> real {
    (i: nat) => if i < |values| then values[i] else 0.0
  }

  /** The values in the given order. */
  function Picked(values: seq<real>, order: seq<nat>): seq<real> {
    Map(At(values), order)
  }

  lemma ShuffleMembers(order: seq<nat>, n: nat)
    requires IsShuffle(order, n)
    ensures |order| == n && forall k | 0 <= k < |order| :: order[k] < n
  {
    SameLength(order, Upto(n));
    forall k | 0 <= k < |order| ensures order[k] < n {
      assert order[k] in multiset(Upto(n));
    }
  }

  lemma PickedPermutes(values: seq<real>, order: seq<nat>)
    requires IsShuffle(order, |values|)
    ensures multiset(Picked(values, order)) == multiset(values)
  {
    MapPermutation(At(values), order, Upto(|values|));
    assert Map(At(values), Upto(|values|)) == values;
  }

  // ---- one replay ----

  /** What replaying a shuffle must give: the curve's end, its worst fall and the picked returns. */
  ghost predicate Replayed(
    initial: real, pnls: seq<real>, base: seq<real>, order: seq<nat>, equity: real, maxDd: real, gains: seq<real>)
  {
    var curve := Curve(initial, Picked(pnls, order));
    equity == curve[|order|] && IsWorstFall(curve, maxDd) && gains == Picked(base, order)
  }

  lemma CurveAppend(initial: real, pnls: seq<real>, x: real)
    ensures Curve(initial, pnls + [x]) == Curve(initial, pnls) + [initial + Sum(pnls) + x]
  {
  }

  lemma PeakPrefix(e: seq<real>, x: real, k: nat)
    requires k < |e|
    ensures PeakTo(e + [x], k) == PeakTo(e, k)
  {
  }

  lemma WorstFallAppend(e: seq<real>, d: real, x: real, peak: real)
    requires |e| > 0 && IsWorstFall(e, d) && peak == Max(PeakTo(e, |e| - 1), x)
    ensures peak == PeakTo(e + [x], |e|)
    ensures IsWorstFall(e + [x], Max(d, peak - x))
  {
    var e', n := e + [x], |e|;
    PeakPrefix(e, x, n - 1);
    PeakBounds(e', n);
    forall i: nat, j: nat | i <= j < |e'| ensures Fall(e', i, j) <= Max(d, peak - x) {
      if j < n {
        assert Fall(e', i, j) == Fall(e, i, j);
      }
    }
    if d < peak - x {
      var i: nat :| i <= n && e'[i] == peak;
      assert Fall(e', i, n) == peak - x;
    } else {
      var i: nat, j: nat :| i <= j < |e| && Fall(e, i, j) == d;
      assert Fall(e', i, j) == d;
    }
  }

  /** The loop's variables once these trades are done. */
  ghost predicate Tracks(initial: real, done: seq<real>, equity: real, peak: real, maxDd: real) {
    var curve := Curve(initial, done);
    equity == curve[|done|] && peak == PeakTo(curve, |done|) && IsWorstFall(curve, maxDd)
  }

  lemma TracksNext(initial: real, done: seq<real>, x: real, equity: real, peak: real, maxDd: real)
    requires Tracks(initial, done, equity, peak, maxDd)
    ensures var top := Max(peak, equity + x);
      Tracks(initial, done + [x], equity + x, top, Max(maxDd, top - (equity + x)))
  {
    assert done[..|done|] == done;
    CurveAppend(initial, done, x);
    WorstFallAppend(Curve(initial, done), maxDd, equity + x, Max(peak, equity + x));
  }

  lemma TracksStart(initial: real)
    ensures Tracks(initial, [], initial, initial, 0.0)
  {
    assert Fall([initial], 0, 0) == 0.0;
  }

  method Replay(initial: real, pnls: seq<real>, base: seq<real>, order: seq<nat>)
    returns (equity: real, maxDd: real, gains: seq<real>)
    requires |pnls| == |base| && forall k | 0 <= k < |order| :: order[k] < |pnls|
    ensures Replayed(initial, pnls, base, order, equity, maxDd, gains)
  {
    equity, maxDd, gains := initial, 0.0, [];
    var peak := initial;
    TracksStart(initial);
    ghost var run, done := Picked(pnls, order), [];
    for k := 0 to |order|
      invariant gains == Picked(base, order)[..k] && done == run[..k]
      invariant Tracks(initial, done, equity, peak, maxDd)
    {
      TracksNext(initial, done, run[k], equity, peak, maxDd);
      done := done + [run[k]];
      equity := equity + pnls[order[k]];
      gains := gains + [base[order[k]]];
      if equity > peak {
        peak := equity;
      }
      var dd := peak - equity;
      if dd > maxDd {
        maxDd := dd;
      }
    }
    assert done == run;
  }

  // ---- what the order cannot change ----

  lemma EquityIgnoresOrder(initial: real, pnls: seq<real>, order: seq<nat>)
    requires IsShuffle(order, |pnls|)
    ensures |order| == |pnls|
    ensures Curve(initial, Picked(pnls, order))[|order|] == Curve(initial, pnls)[|pnls|] == initial + Sum(pnls)
  {
    ShuffleMembers(order, |pnls|);
    PickedPermutes(pnls, order);
    SumPermutation(Picked(pnls, order), pnls);
    assert Picked(pnls, order)[..|order|] == Picked(pnls, order) && pnls[..|pnls|] == pnls;
  }

  // ---- what the order can change, and by how much ----

  function LossOf(pnl: real): real {
    if pnl < 0.0 then -pnl else 0.0
  }

  function TotalLosses(pnls: seq<real>): real {
    Sum(Map(LossOf, pnls))
  }

  lemma LossesAppend(pnls: seq<real>, x: real)
    ensures TotalLosses(pnls + [x]) == TotalLosses(pnls) + LossOf(x)
  {
    assert Map(LossOf, pnls + [x]) == Map(LossOf, pnls) + [LossOf(x)];
    SumAppend(Map(LossOf, pnls), LossOf(x));
  }

  /** A stretch of trades cannot lose more than its losing trades do. */
  lemma {:induction false} FallWithinLosses(pnls: seq<real>, i: nat, j: nat)
    requires i <= j <= |pnls|
    ensures Sum(pnls[..i]) - Sum(pnls[..j]) <= TotalLosses(pnls[..j]) - TotalLosses(pnls[..i])
    ensures 0.0 <= TotalLosses(pnls[..i]) <= TotalLosses(pnls[..j])
    decreases i + j
  {
    if i < j {
      FallWithinLosses(pnls, i, j - 1);
      assert pnls[..j] == pnls[..j - 1] + [pnls[j - 1]];
      SumAppend(pnls[..j - 1], pnls[j - 1]);
      LossesAppend(pnls[..j - 1], pnls[j - 1]);
    } else if i > 0 {
      FallWithinLosses(pnls, i - 1, i - 1);
      assert pnls[..i] == pnls[..i - 1] + [pnls[i - 1]];
      LossesAppend(pnls[..i - 1], pnls[i - 1]);
    }
  }

  /** In any order the worst fall is at least the net loss and at most everything lost. */
  lemma DrawdownBounds(initial: real, pnls: seq<real>, d: real)
    requires IsWorstFall(Curve(initial, pnls), d)
    ensures Max(0.0, -Sum(pnls)) <= d <= TotalLosses(pnls)
  {
    var curve, n := Curve(initial, pnls), |pnls|;
    assert pnls[..n] == pnls;
    assert Fall(curve, 0, n) == -Sum(pnls) && Fall(curve, n, n) == 0.0;
    var i: nat, j: nat :| i <= j < |curve| && Fall(curve, i, j) == d;
    FallBound(initial, pnls, i, j);
  }

  lemma FallBound(initial: real, pnls: seq<real>, i: nat, j: nat)
    requires i <= j <= |pnls|
    ensures Fall(Curve(initial, pnls), i, j) <= TotalLosses(pnls)
  {
    FallWithinLosses(pnls, i, j);
    FallWithinLosses(pnls, j, |pnls|);
    assert pnls[..|pnls|] == pnls;
  }

  /** The positions below k whose trades lost money, or did not. */
  function Positions(pnls: seq<real>, lost: bool, k: nat): (r: seq<nat>)
    requires k <= |pnls|
    ensures forall i | 0 <= i < |r| :: r[i] < k
  {
    if k == 0 then []
    else Positions(pnls, lost, k - 1) + if (pnls[k - 1] < 0.0) == lost then [k - 1] else []
  }

  function LossesFirst(pnls: seq<real>): seq<nat> {
    Positions(pnls, true, |pnls|) + Positions(pnls, false, |pnls|)
  }

  lemma {:induction false} PositionsCover(pnls: seq<real>, k: nat)
    requires k <= |pnls|
    ensures Cover(Positions(pnls, true, k), Positions(pnls, false, k), Upto(k))
  {
    if k == 0 {
      assert Upto(0) == [];
    } else {
      PositionsCover(pnls, k - 1);
      UptoNext(k - 1);
      CoverNext(Positions(pnls, true, k - 1), Positions(pnls, false, k - 1), Upto(k - 1), k - 1);
      PositionsNext(pnls, k);
    }
  }

  lemma UptoNext(n: nat)
    ensures Upto(n + 1) == Upto(n) + [n]
  {
  }

  lemma PositionsNext(pnls: seq<real>, k: nat)
    requires 0 < k <= |pnls|
    ensures var a, b := Positions(pnls, true, k - 1), Positions(pnls, false, k - 1);
      if pnls[k - 1] < 0.0
      then Positions(pnls, true, k) == a + [k - 1] && Positions(pnls, false, k) == b
      else Positions(pnls, true, k) == a && Positions(pnls, false, k) == b + [k - 1]
  {
  }

  ghost predicate Cover(a: seq<nat>, b: seq<nat>, all: seq<nat>) {
    multiset(all) == multiset(a) + multiset(b)
  }

  lemma CoverNext(a: seq<nat>, b: seq<nat>, all: seq<nat>, x: nat)
    requires Cover(a, b, all)
    ensures Cover(a + [x], b, all + [x]) && Cover(a, b + [x], all + [x])
  {
  }

  lemma {:induction false} LosersLoseAll(pnls: seq<real>, k: nat)
    requires k <= |pnls|
    ensures Sum(Picked(pnls, Positions(pnls, true, k))) == -TotalLosses(pnls[..k])
  {
    if k > 0 {
      LosersLoseAll(pnls, k - 1);
      assert pnls[..k] == pnls[..k - 1] + [pnls[k - 1]];
      LossesAppend(pnls[..k - 1], pnls[k - 1]);
      var before := Positions(pnls, true, k - 1);
      if pnls[k - 1] < 0.0 {
        assert Picked(pnls, before + [k - 1]) == Picked(pnls, before) + [pnls[k - 1]];
        SumAppend(Picked(pnls, before), pnls[k - 1]);
      } else {
        assert Positions(pnls, true, k) == before;
      }
    }
  }

  /** Some order does lose everything there is to lose: all the losers first. */
  lemma WorstOrderIsReached(initial: real, pnls: seq<real>)
    ensures IsShuffle(LossesFirst(pnls), |pnls|)
    ensures IsWorstFall(Curve(initial, Picked(pnls, LossesFirst(pnls))), TotalLosses(pnls))
  {
    var order := LossesFirst(pnls);
    PositionsCover(pnls, |pnls|);
    MaxDrawdownIsWorst(Curve(initial, Picked(pnls, order)));
    ShuffleDrawdownBounds(initial, pnls, order, MaxDrawdown(Curve(initial, Picked(pnls, order))).0);
    LosersFall(initial, pnls);
  }

  lemma LosersFall(initial: real, pnls: seq<real>)
    ensures var curve, k := Curve(initial, Picked(pnls, LossesFirst(pnls))), |Positions(pnls, true, |pnls|)|;
      k < |curve| && Fall(curve, 0, k) == TotalLosses(pnls)
  {
    var losers, run := Positions(pnls, true, |pnls|), Picked(pnls, LossesFirst(pnls));
    LosersLoseAll(pnls, |pnls|);
    assert pnls[..|pnls|] == pnls;
    assert run[..|losers|] == Picked(pnls, losers);
  }

  /** Every shuffle of the same trades is within the same bounds. */
  lemma ShuffleDrawdownBounds(initial: real, pnls: seq<real>, order: seq<nat>, d: real)
    requires IsShuffle(order, |pnls|) && IsWorstFall(Curve(initial, Picked(pnls, order)), d)
    ensures Max(0.0, -Sum(pnls)) <= d <= TotalLosses(pnls)
  {
    var run := Picked(pnls, order);
    DrawdownBounds(initial, run, d);
    PickedPermutes(pnls, order);
    SumPermutation(run, pnls);
    LossesIgnoreOrder(run, pnls);
  }

  lemma LossesIgnoreOrder(a: seq<real>, b: seq<real>)
    requires multiset(a) == multiset(b)
    ensures TotalLosses(a) == TotalLosses(b)
  {
    MapPermutation(LossOf, a, b);
    SumPermutation(Map(LossOf, a), Map(LossOf, b));
  }

  // ---- the whole analysis ----

  /** Returns as the analysis takes them: a trade that tied up nothing is divided by one dollar. */
  function BaseReturn(t: SimTrade): real {
    t.pnl / if t.entry * t.bet > 0.0 then t.entry * t.bet else 1.0
  }

  /** What a dollar tied up made: the profit itself where there was none. */
  lemma ReturnTold(t: SimTrade, cost: real)
    requires cost == t.entry * t.bet
    ensures if cost > 0.0 then Weighed(BaseReturn(t), cost) == Weighed(TradeReturn(t), cost) == t.pnl
            else BaseReturn(t) == t.pnl && TradeReturn(t) == 0.0
  {
  }

  /** That is the return the metrics use exactly when the trade tied something up or made nothing. */
  lemma ReturnsAgreeExactlyWhen(trades: seq<SimTrade>)
    ensures Map(BaseReturn, trades) == TradeReturns(trades)
       <==> forall i | 0 <= i < |trades| :: trades[i].entry * trades[i].bet > 0.0 || trades[i].pnl == 0.0
  {
  }

  /** What one iteration must contribute. */
  ghost predicate Fair(
    root: real -> real, initial: real, trades: seq<SimTrade>, equity: real, maxDd: real, sharpe: real)
  {
    && equity == initial + Sum(Pnls(trades))
    && Max(0.0, -Sum(Pnls(trades))) <= maxDd <= TotalLosses(Pnls(trades))
    && sharpe == Sharpe(root, Map(BaseReturn, trades))
  }

  lemma IterationFair(
    root: real -> real, initial: real, trades: seq<SimTrade>, order: seq<nat>, equity: real, maxDd: real,
    gains: seq<real>)
    requires IsShuffle(order, |trades|)
    requires Replayed(initial, Pnls(trades), Map(BaseReturn, trades), order, equity, maxDd, gains)
    ensures Fair(root, initial, trades, equity, maxDd, Sharpe(root, gains))
  {
    var pnls, base := Pnls(trades), Map(BaseReturn, trades);
    EquityIgnoresOrder(initial, pnls, order);
    ShuffleDrawdownBounds(initial, pnls, order, maxDd);
    SharpeOfShuffle(root, base, order);
  }

  lemma SharpeOfShuffle(root: real -> real, base: seq<real>, order: seq<nat>)
    requires IsShuffle(order, |base|)
    ensures Sharpe(root, Picked(base, order)) == Sharpe(root, base)
  {
    PickedPermutes(base, order);
    SharpeIgnoresOrder(root, Picked(base, order), base);
  }

  /** How many of the values pass, as a share. */
  function ShareAbove(values: seq<real>, line: real): real
    requires |values| > 0
  {
    CountAbove(values, line) as real / |values| as real
  }

  function CountAbove(values: seq<real>, line: real): (n: nat)
    ensures (forall i | 0 <= i < |values| :: values[i] > line) ==> n == |values|
    ensures (forall i | 0 <= i < |values| :: values[i] <= line) ==> n == 0
  {
    if |values| == 0 then 0 else (if values[0] > line then 1 else 0) + CountAbove(values[1..], line)
  }

  lemma ShareAllOrNone(values: seq<real>, x: real, line: real)
    requires |values| > 0 && forall i | 0 <= i < |values| :: values[i] == x
    ensures ShareAbove(values, line) == if x > line then 1.0 else 0.0
  {
    QuotientIs(|values| as real, |values| as real, 1.0);
    QuotientIs(0.0, |values| as real, 0.0);
  }

  function Negated(values: seq<real>): (r: seq<real>)
    ensures |r| == |values| && forall i | 0 <= i < |r| :: r[i] == -values[i]
  {
    seq(|values|, i requires 0 <= i < |values| => -values[i])
  }

  function Summary(initial: real, equities: seq<real>, drawdowns: seq<real>, sharpes: seq<real>): Report
    requires |equities| == |drawdowns| == |sharpes| > 0
  {
    Report(
      |equities|,
      Round(Percentile(equities, 50.0), Four), Round(Percentile(equities, 5.0), Four),
      Round(Percentile(equities, 95.0), Four),
      Round(Percentile(drawdowns, 50.0), Four), Round(Percentile(drawdowns, 95.0), Four),
      Round(Percentile(sharpes, 50.0), Four), Round(Percentile(sharpes, 5.0), Four),
      Round(Percentile(sharpes, 95.0), Four),
      Round(ShareAbove(equities, initial), Four),
      Round(ShareAbove(Negated(equities), -(initial * RUIN_THRESHOLD)), Four))
  }

  /** Only the drawdown figures can tell one shuffle from another. */
  ghost predicate OrderBlind(root: real -> real, initial: real, trades: seq<SimTrade>, r: Report) {
    && EquityIs(r, initial, initial + Sum(Pnls(trades)))
    && SharpeIs(r, Sharpe(root, Map(BaseReturn, trades)))
    && DrawdownWithin(r, Max(0.0, -Sum(Pnls(trades))), TotalLosses(Pnls(trades)))
  }

  ghost predicate EquityIs(r: Report, initial: real, final: real) {
    && r.medianEquity == r.p5Equity == r.p95Equity == Round(final, Four)
    && r.probProfit == (if final > initial then 1.0 else 0.0)
    && r.probRuin == (if final < initial * 0.10 then 1.0 else 0.0)
  }

  ghost predicate SharpeIs(r: Report, sharpe: real) {
    r.medianSharpe == r.p5Sharpe == r.p95Sharpe == Round(sharpe, Four)
  }

  ghost predicate DrawdownWithin(r: Report, least: real, most: real) {
    && Round(least, Four) <= r.medianDrawdown <= Round(most, Four)
    && Round(least, Four) <= r.p95Drawdown <= Round(most, Four)
  }

  lemma PercentileRounded(values: seq<real>, q: real, lo: real, hi: real)
    requires |values| > 0 && 0.0 <= q <= 100.0 && forall i | 0 <= i < |values| :: lo <= values[i] <= hi
    ensures Round(lo, Four) <= Round(Percentile(values, q), Four) <= Round(hi, Four)
  {
    PercentileBounds(values, q, lo, hi);
    RoundMonotone(lo, Percentile(values, q), Four);
    RoundMonotone(Percentile(values, q), hi, Four);
  }

  lemma ConstantPercentile(values: seq<real>, q: real, x: real)
    requires |values| > 0 && 0.0 <= q <= 100.0 && forall i | 0 <= i < |values| :: values[i] == x
    ensures Percentile(values, q) == x
  {
    PercentileBounds(values, q, x, x);
  }

  lemma SummaryOrderBlind(
    root: real -> real, initial: real, trades: seq<SimTrade>,
    equities: seq<real>, drawdowns: seq<real>, sharpes: seq<real>)
    requires |equities| == |drawdowns| == |sharpes| > 0
    requires forall i | 0 <= i < |equities| :: Fair(root, initial, trades, equities[i], drawdowns[i], sharpes[i])
    ensures OrderBlind(root, initial, trades, Summary(initial, equities, drawdowns, sharpes))
  {
    AllFigures(initial, equities, drawdowns, sharpes, initial + Sum(Pnls(trades)),
               Sharpe(root, Map(BaseReturn, trades)), Max(0.0, -Sum(Pnls(trades))), TotalLosses(Pnls(trades)));
  }

  lemma AllFigures(
    initial: real, equities: seq<real>, drawdowns: seq<real>, sharpes: seq<real>,
    final: real, sharpe: real, least: real, most: real)
    requires |equities| == |drawdowns| == |sharpes| > 0
    requires forall i | 0 <= i < |equities| ::
      equities[i] == final && sharpes[i] == sharpe && least <= drawdowns[i] <= most
    ensures var r := Summary(initial, equities, drawdowns, sharpes);
      EquityIs(r, initial, final) && SharpeIs(r, sharpe) && DrawdownWithin(r, least, most)
  {
    EquityFigures(initial, equities, drawdowns, sharpes, final);
    SharpeFigures(initial, equities, drawdowns, sharpes, sharpe);
    DrawdownFigures(initial, equities, drawdowns, sharpes, least, most);
  }

  lemma DrawdownFigures(
    initial: real, equities: seq<real>, drawdowns: seq<real>, sharpes: seq<real>, least: real, most: real)
    requires |equities| == |drawdowns| == |sharpes| > 0
    requires forall i | 0 <= i < |drawdowns| :: least <= drawdowns[i] <= most
    ensures DrawdownWithin(Summary(initial, equities, drawdowns, sharpes), least, most)
  {
    PercentileRounded(drawdowns, 50.0, least, most);
    PercentileRounded(drawdowns, 95.0, least, most);
  }

  lemma EquityFigures(initial: real, equities: seq<real>, drawdowns: seq<real>, sharpes: seq<real>, final: real)
    requires |equities| == |drawdowns| == |sharpes| > 0
    requires forall i | 0 <= i < |equities| :: equities[i] == final
    ensures EquityIs(Summary(initial, equities, drawdowns, sharpes), initial, final)
  {
    ConstantPercentile(equities, 50.0, final);
    ConstantPercentile(equities, 5.0, final);
    ConstantPercentile(equities, 95.0, final);
    Chances(initial, equities, final);
  }

  lemma SharpeFigures(initial: real, equities: seq<real>, drawdowns: seq<real>, sharpes: seq<real>, sharpe: real)
    requires |equities| == |drawdowns| == |sharpes| > 0
    requires forall i | 0 <= i < |sharpes| :: sharpes[i] == sharpe
    ensures SharpeIs(Summary(initial, equities, drawdowns, sharpes), sharpe)
  {
    ConstantPercentile(sharpes, 50.0, sharpe);
    ConstantPercentile(sharpes, 5.0, sharpe);
    ConstantPercentile(sharpes, 95.0, sharpe);
  }

  lemma Chances(initial: real, equities: seq<real>, final: real)
    requires |equities| > 0 && forall i | 0 <= i < |equities| :: equities[i] == final
    ensures Round(ShareAbove(equities, initial), Four) == if final > initial then 1.0 else 0.0
    ensures Round(ShareAbove(Negated(equities), -(initial * RUIN_THRESHOLD)), Four)
         == if final < initial * RUIN_THRESHOLD then 1.0 else 0.0
  {
    ShareAllOrNone(equities, final, initial);
    ShareAllOrNone(Negated(equities), -final, -(initial * RUIN_THRESHOLD));
    WholeOnGridRounds();
  }

  lemma WholeOnGridRounds()
    ensures Round(0.0, Four) == 0.0 && Round(1.0, Four) == 1.0
  {
  }

  /** The worst fall of the curve in each order. */
  ghost predicate FallsOf(initial: real, trades: seq<SimTrade>, orders: seq<seq<nat>>, falls: seq<real>) {
    && |falls| == |orders|
    && forall k | 0 <= k < |orders| :: IsWorstFall(Curve(initial, Picked(Pnls(trades), orders[k])), falls[k])
  }

  /** The figure is this percentile of the values, to four places. */
  ghost predicate Reports(figure: real, values: seq<real>, q: real) {
    exists v :: IsPercentile(values, q, v) && figure == Round(v, Four)
  }

  lemma DrawdownPercentiles(initial: real, equities: seq<real>, drawdowns: seq<real>, sharpes: seq<real>)
    requires |equities| == |drawdowns| == |sharpes| > 0
    ensures var r := Summary(initial, equities, drawdowns, sharpes);
      && Reports(r.medianDrawdown, drawdowns, 50.0) && Reports(r.p95Drawdown, drawdowns, 95.0)
      && r.medianDrawdown <= r.p95Drawdown
  {
    PercentileExactlyWhen(drawdowns, 50.0, Percentile(drawdowns, 50.0));
    PercentileExactlyWhen(drawdowns, 95.0, Percentile(drawdowns, 95.0));
    PercentileMonotone(drawdowns, 50.0, 95.0);
    RoundMonotone(Percentile(drawdowns, 50.0), Percentile(drawdowns, 95.0), Four);
  }

  /** One replay per shuffle. */
  method ReplayAll(root: real -> real, trades: seq<SimTrade>, initial: real, orders: seq<seq<nat>>)
    returns (equities: seq<real>, drawdowns: seq<real>, sharpes: seq<real>)
    requires forall k | 0 <= k < |orders| :: IsShuffle(orders[k], |trades|)
    ensures |equities| == |drawdowns| == |sharpes| == |orders| && FallsOf(initial, trades, orders, drawdowns)
    ensures forall i | 0 <= i < |orders| :: Fair(root, initial, trades, equities[i], drawdowns[i], sharpes[i])
  {
    var pnls, base := Pnls(trades), Map(BaseReturn, trades);
    equities, drawdowns, sharpes := [], [], [];
    for k := 0 to |orders|
      invariant |equities| == |drawdowns| == |sharpes| == k
      invariant forall i | 0 <= i < k :: IsWorstFall(Curve(initial, Picked(pnls, orders[i])), drawdowns[i])
      invariant forall i | 0 <= i < k :: Fair(root, initial, trades, equities[i], drawdowns[i], sharpes[i])
    {
      ShuffleMembers(orders[k], |trades|);
      var equity, maxDd, gains := Replay(initial, pnls, base, orders[k]);
      IterationFair(root, initial, trades, orders[k], equity, maxDd, gains);
      equities := equities + [equity];
      drawdowns := drawdowns + [maxDd];
      sharpes := sharpes + [Sharpe(root, gains)];
    }
  }

  /**
   The percentiles over all shuffles.  `falls` are the worst falls in the orders given; the two drawdown
   figures are their middle and their 95th percentile.
   */
  method Run(root: real -> real, trades: seq<SimTrade>, initial: real, orders: seq<seq<nat>>)
    returns (report: Report, ghost falls: seq<real>)
    requires |orders| > 0 && forall k | 0 <= k < |orders| :: IsShuffle(orders[k], |trades|)
    ensures |trades| < 2 ==> report == NO_REPORT
    ensures |trades| >= 2 ==> report.iterations == |orders| && OrderBlind(root, initial, trades, report)
    ensures |trades| >= 2 ==>
      && FallsOf(initial, trades, orders, falls)
      && Reports(report.medianDrawdown, falls, 50.0) && Reports(report.p95Drawdown, falls, 95.0)
      && report.medianDrawdown <= report.p95Drawdown
  {
    if |trades| < 2 {
      return NO_REPORT, [];
    }
    var equities, drawdowns, sharpes := ReplayAll(root, trades, initial, orders);
    SummaryOrderBlind(root, initial, trades, equities, drawdowns, sharpes);
    DrawdownPercentiles(initial, equities, drawdowns, sharpes);
    falls := drawdowns;
    report := Summary(initial, equities, drawdowns, sharpes);
  }

  /** When every trade tied something up, each reported Sharpe figure is the backtest's own. */
  lemma SharpeIsTheBacktests(root: real -> real, initial: real, trades: seq<SimTrade>, r: Report)
    requires OrderBlind(root, initial, trades, r)
    requires forall i | 0 <= i < |trades| :: trades[i].entry * trades[i].bet > 0.0
    ensures r.medianSharpe == r.p5Sharpe == r.p95Sharpe == Round(Sharpe(root, TradeReturns(trades)), Four)
  {
    ReturnsAgreeExactlyWhen(trades);
  }
}
