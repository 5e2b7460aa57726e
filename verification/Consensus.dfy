/** Prices from several exchanges: the median, and the ticks that stray from it. */
module Consensus {
  import opened Common
  import opened Sorting

  const MIN_EXCHANGES_FOR_MEDIAN := 2
  const OUTLIER_SIGMA: real := 3.0
  const MAD_TO_SIGMA: real := 1.4826

  datatype Tick = Tick(exchange: string, price: real)

  // ---- the median ----

  function Median(values: seq<real>): real
    requires |values| > 0
  {
    Middle(Sort(values))
  }

  function Middle(s: seq<real>): real
    requires |s| > 0
  {
    if |s| % 2 == 1 then s[|s| / 2] else (s[|s| / 2 - 1] + s[|s| / 2]) / 2.0
  }

  lemma MedianIgnoresOrder(a: seq<real>, b: seq<real>)
    requires multiset(a) == multiset(b) && |a| > 0
    ensures |b| > 0 && Median(a) == Median(b)
  {
    SameLength(a, b);
    SortIgnoresOrder(a, b);
  }

  /** The value with as many below as above, or half way between the two in the middle: by counting alone. */
  ghost predicate IsMedian(values: seq<real>, m: real) {
    |values| > 0 && exists a, b :: MiddlePair(values, a, b) && m == (a + b) / 2.0
  }

  predicate MiddlePair(values: seq<real>, a: real, b: real)
    requires |values| > 0
  {
    HasRank(values, a, (|values| - 1) / 2) && HasRank(values, b, |values| / 2)
  }

  lemma MedianExactlyWhen(values: seq<real>, m: real)
    requires |values| > 0
    ensures IsMedian(values, m) <==> m == Median(values)
  {
    var s, i, j := Sort(values), (|values| - 1) / 2, |values| / 2;
    SortedHasRank(values, i);
    SortedHasRank(values, j);
    assert MiddlePair(values, s[i], s[j]) && Median(values) == (s[i] + s[j]) / 2.0;
    if a, b :| MiddlePair(values, a, b) && m == (a + b) / 2.0 {
      RankIsPosition(values, a, i);
      RankIsPosition(values, b, j);
    }
  }

  function InBand(lo: real, hi: real): real -> bool {
    x => lo <= x <= hi
  }

  /** In sorted order, a band with enough members reaches past position k from either side. */
  lemma BandReaches(s: seq<real>, lo: real, hi: real, k: nat)
    requires Sorted(s) && k < |s|
    ensures Count(s, InBand(lo, hi)) >= |s| - k ==> s[k] >= lo
    ensures Count(s, InBand(lo, hi)) > k ==> s[k] <= hi
  {
    if s[k] < lo {
      CountAfter(s, k + 1, InBand(lo, hi));
    }
    if s[k] > hi {
      CountBefore(s, k, InBand(lo, hi));
    }
  }

  /** A majority inside a band puts the median inside it, wherever the others are. */
  lemma MajorityHoldsMedian(values: seq<real>, lo: real, hi: real)
    requires 2 * Count(values, InBand(lo, hi)) > |values|
    ensures |values| > 0 && lo <= Median(values) <= hi
  {
    var s, n := Sort(values), |values|;
    SortSorts(values);
    CountPermutation(values, s, InBand(lo, hi));
    BandReaches(s, lo, hi, n / 2);
    if n % 2 == 0 {
      BandReaches(s, lo, hi, n / 2 - 1);
    }
  }

  /** Half is not enough: the other half can drag the median out of any band. */
  lemma HalfDoesNotHoldMedian(m: nat, lo: real, hi: real, far: real)
    requires m > 0 && lo <= hi < far
    ensures var values := seq(m, _ => hi) + seq(m, _ => far);
      2 * Count(values, InBand(lo, hi)) == |values| && Median(values) > hi
  {
    var a, b := seq(m, _ => hi), seq(m, _ => far);
    CountConcat(a, b, InBand(lo, hi));
    CountAll(a, InBand(lo, hi));
    CountNone(b, InBand(lo, hi));
    SortSorts(a + b);
    SortedUnique(Sort(a + b), a + b);
  }

  /** No more than half of the values lie above the median. */
  lemma AboveMedian(values: seq<real>, t: real)
    requires |values| > 0 && t >= Median(values)
    ensures Count(values, Above(t)) <= |values| / 2
  {
    var s, n := Sort(values), |values|;
    var k := n - n / 2;
    SortSorts(values);
    CountPermutation(values, s, Above(t));
    MiddleAboveFirstHalf(s);
    CountAfter(s, k, Above(t));
  }

  lemma MiddleAboveFirstHalf(s: seq<real>)
    requires Sorted(s) && |s| > 0
    ensures forall i | 0 <= i < |s| - |s| / 2 :: s[i] <= Middle(s)
  {
  }

  // ---- outliers ----

  function PriceOf(t: Tick): real {
    t.price
  }

  function Prices(ticks: seq<Tick>): seq<real> {
    Map(PriceOf, ticks)
  }

  function DeviationFrom(med: real): real -> real {
    x => Abs(x - med)
  }

  function Mad(prices: seq<real>): real
    requires |prices| > 0
  {
    Median(Map(DeviationFrom(Median(prices)), prices))
  }

  function Threshold(sigma: real, mad: real): real {
    sigma * mad * MAD_TO_SIGMA
  }

  function IfStrays(t: Tick, med: real, threshold: real): seq<Tick> {
    if Abs(t.price - med) > threshold then [t] else []
  }

  function Straying(ticks: seq<Tick>, med: real, threshold: real): seq<Tick> {
    if |ticks| == 0 then [] else IfStrays(ticks[0], med, threshold) + Straying(ticks[1..], med, threshold)
  }

  function Outliers(ticks: seq<Tick>, sigma: real): seq<Tick> {
    if |ticks| < MIN_EXCHANGES_FOR_MEDIAN then []
    else
      var med := Median(Prices(ticks));
      var mad := Mad(Prices(ticks));
      if med == 0.0 || mad == 0.0 then [] else Straying(ticks, med, Threshold(sigma, mad))
  }

  lemma {:induction false} StrayingCount(ticks: seq<Tick>, med: real, threshold: real)
    ensures |Straying(ticks, med, threshold)| == Count(Map(DeviationFrom(med), Prices(ticks)), Above(threshold))
    ensures forall t :: t in Straying(ticks, med, threshold) <==> t in ticks && Abs(t.price - med) > threshold
  {
    if |ticks| > 0 {
      StrayingCount(ticks[1..], med, threshold);
      assert Map(DeviationFrom(med), Prices(ticks))[1..] == Map(DeviationFrom(med), Prices(ticks[1..]));
      assert forall t :: t in ticks <==> t == ticks[0] || t in ticks[1..];
    }
  }

  lemma {:induction false} MadNotNegative(prices: seq<real>)
    requires |prices| > 0
    ensures Mad(prices) >= 0.0
  {
    var deviations := Map(DeviationFrom(Median(prices)), prices);
    SortSorts(deviations);
    var s := Sort(deviations);
    forall i | 0 <= i < |s| ensures s[i] >= 0.0 {
      assert s[i] in multiset(deviations);
      var j :| 0 <= j < |deviations| && deviations[j] == s[i];
      assert deviations[j] == Abs(prices[j] - Median(prices));
    }
  }

  /** A tick no further from the median than the typical deviation is never flagged. */
  lemma TypicalNeverFlagged(ticks: seq<Tick>, sigma: real, t: Tick)
    requires sigma * MAD_TO_SIGMA >= 1.0 && t in Outliers(ticks, sigma)
    ensures Abs(t.price - Median(Prices(ticks))) > Mad(Prices(ticks)) > 0.0
  {
    var med, mad := Median(Prices(ticks)), Mad(Prices(ticks));
    MadNotNegative(Prices(ticks));
    StrayingCount(ticks, med, Threshold(sigma, mad));
    ThresholdAtLeast(sigma, mad);
  }

  lemma ThresholdAtLeast(sigma: real, mad: real)
    requires sigma * MAD_TO_SIGMA >= 1.0 && mad >= 0.0
    ensures Threshold(sigma, mad) >= mad
  {
  }

  lemma AtMostHalfFlagged(ticks: seq<Tick>, sigma: real)
    requires sigma * MAD_TO_SIGMA >= 1.0
    ensures |Outliers(ticks, sigma)| <= |ticks| / 2
  {
    if |Outliers(ticks, sigma)| > 0 {
      var med, mad := Median(Prices(ticks)), Mad(Prices(ticks));
      MadNotNegative(Prices(ticks));
      ThresholdAtLeast(sigma, mad);
      StrayingCount(ticks, med, Threshold(sigma, mad));
      AboveMedian(Map(DeviationFrom(med), Prices(ticks)), Threshold(sigma, mad));
    }
  }

  /** One quote each of 1, 2 and 3: below one deviation, two of the three are flagged. */
  lemma ThreeQuotes(sigma: real)
    requires sigma * MAD_TO_SIGMA < 1.0
    ensures |Outliers([Tick("a", 1.0), Tick("b", 2.0), Tick("c", 3.0)], sigma)| >= 2
  {
    var ticks, prices := [Tick("a", 1.0), Tick("b", 2.0), Tick("c", 3.0)], [1.0, 2.0, 3.0];
    assert Prices(ticks) == prices;
    ThreeDeviations();
    assert Threshold(sigma, 1.0) == sigma * MAD_TO_SIGMA;
    StrayingCount(ticks, 2.0, Threshold(sigma, 1.0));
    TwoAbove(Threshold(sigma, 1.0));
  }

  lemma ThreeDeviations()
    ensures var prices := [1.0, 2.0, 3.0];
      Median(prices) == 2.0 && Map(DeviationFrom(2.0), prices) == [1.0, 0.0, 1.0] && Mad(prices) == 1.0
  {
  }

  lemma TwoAbove(t: real)
    requires t < 1.0
    ensures Count([1.0, 0.0, 1.0], Above(t)) >= 2
  {
  }

  /** The detector always leaves at least half of the exchanges standing exactly from one deviation up. */
  lemma HalfStandExactlyWhen(sigma: real)
    ensures (forall ticks :: |Outliers(ticks, sigma)| <= |ticks| / 2) <==> sigma * MAD_TO_SIGMA >= 1.0
  {
    if sigma * MAD_TO_SIGMA >= 1.0 {
      forall ticks ensures |Outliers(ticks, sigma)| <= |ticks| / 2 {
        AtMostHalfFlagged(ticks, sigma);
      }
    } else {
      ThreeQuotes(sigma);
      assert |[Tick("a", 1.0), Tick("b", 2.0), Tick("c", 3.0)]| / 2 == 1;
    }
  }

  lemma {:induction false} StrayingPermutation(a: seq<Tick>, b: seq<Tick>, med: real, threshold: real)
    requires multiset(a) == multiset(b)
    ensures multiset(Straying(a, med, threshold)) == multiset(Straying(b, med, threshold))
    decreases |a|
  {
    SameLength(a, b);
    if |a| > 0 {
      var k := Find(a[0], b, a);
      SameRest(a, b, k);
      StrayingPermutation(Without(a, 0), Without(b, k), med, threshold);
      StrayingWithout(a, 0, med, threshold);
      StrayingWithout(b, k, med, threshold);
    }
  }

  lemma {:induction false} StrayingWithout(s: seq<Tick>, k: nat, med: real, threshold: real)
    requires k < |s|
    ensures multiset(Straying(s, med, threshold)) == multiset(Straying(Without(s, k), med, threshold))
      + multiset(IfStrays(s[k], med, threshold))
  {
    if k == 0 {
      assert Without(s, 0) == s[1..];
      Prepended(IfStrays(s[0], med, threshold), Straying(s[1..], med, threshold), Straying(s[1..], med, threshold), []);
    } else {
      StrayingWithout(s[1..], k - 1, med, threshold);
      StrayingBeyond(s, k, med, threshold);
      Prepended(IfStrays(s[0], med, threshold), Straying(s[1..], med, threshold),
                Straying(Without(s[1..], k - 1), med, threshold), IfStrays(s[k], med, threshold));
    }
  }

  lemma StrayingBeyond(s: seq<Tick>, k: nat, med: real, threshold: real)
    requires 0 < k < |s|
    ensures Straying(Without(s, k), med, threshold)
         == IfStrays(s[0], med, threshold) + Straying(Without(s[1..], k - 1), med, threshold)
  {
    assert Without(s, k)[0] == s[0] && Without(s, k)[1..] == Without(s[1..], k - 1);
  }

  lemma Prepended(first: seq<Tick>, a: seq<Tick>, b: seq<Tick>, x: seq<Tick>)
    requires multiset(a) == multiset(b) + multiset(x)
    ensures multiset(first + a) == multiset(first) + multiset(a) == multiset(first + b) + multiset(x)
  {
  }

  /** The same exchanges in another order: the same outliers. */
  lemma OutliersIgnoreOrder(a: seq<Tick>, b: seq<Tick>, sigma: real)
    requires multiset(a) == multiset(b)
    ensures multiset(Outliers(a, sigma)) == multiset(Outliers(b, sigma))
  {
    SameLength(a, b);
    if |a| >= MIN_EXCHANGES_FOR_MEDIAN {
      MapPermutation(PriceOf, a, b);
      MedianIgnoresOrder(Prices(a), Prices(b));
      var med := Median(Prices(a));
      MapPermutation(DeviationFrom(med), Prices(a), Prices(b));
      MedianIgnoresOrder(Map(DeviationFrom(med), Prices(a)), Map(DeviationFrom(med), Prices(b)));
      StrayingPermutation(a, b, med, Threshold(sigma, Mad(Prices(a))));
    }
  }

  /** When most exchanges quote exactly the same price nobody is flagged, however far off the rest are. */
  lemma AgreementHidesOutliers(ticks: seq<Tick>, sigma: real, price: real)
    requires 2 * Count(Prices(ticks), InBand(price, price)) > |ticks|
    ensures Outliers(ticks, sigma) == []
  {
    MadZeroExactlyWhen(Prices(ticks));
  }

  lemma {:induction false} ZeroDeviations(prices: seq<real>, price: real)
    ensures Count(Map(DeviationFrom(price), prices), InBand(0.0, 0.0)) == Count(prices, InBand(price, price))
  {
    if |prices| > 0 {
      ZeroDeviations(prices[1..], price);
      assert Map(DeviationFrom(price), prices)[0] == Abs(prices[0] - price);
      assert InBand(0.0, 0.0)(Abs(prices[0] - price)) == InBand(price, price)(prices[0]);
      assert Map(DeviationFrom(price), prices)[1..] == Map(DeviationFrom(price), prices[1..]);
    }
  }

  /** In sorted order with nothing below it, a middle of 0 takes a majority of zeros. */
  lemma MiddleZero(s: seq<real>)
    requires Sorted(s) && |s| > 0 && s[0] >= 0.0 && Middle(s) == 0.0
    ensures 2 * Count(s, InBand(0.0, 0.0)) > |s|
  {
    var k := |s| / 2 + 1;
    MiddleIsLast(s, k - 1);
    forall i | 0 <= i < k ensures InBand(0.0, 0.0)(s[i]) {
      assert s[0] <= s[i] <= s[k - 1];
    }
    CountUpTo(s, k, InBand(0.0, 0.0));
  }

  lemma MiddleIsLast(s: seq<real>, m: nat)
    requires Sorted(s) && |s| > 0 && s[0] >= 0.0 && Middle(s) == 0.0 && m == |s| / 2
    ensures s[m] == 0.0
  {
    if |s| % 2 == 0 {
      assert s[0] <= s[m - 1] <= s[m];
    }
  }

  lemma MedianZero(values: seq<real>)
    requires |values| > 0 && (forall i | 0 <= i < |values| :: values[i] >= 0.0) && Median(values) == 0.0
    ensures 2 * Count(values, InBand(0.0, 0.0)) > |values|
  {
    var s := Sort(values);
    SortSorts(values);
    assert s[0] in multiset(values);
    MiddleZero(s);
    CountPermutation(values, s, InBand(0.0, 0.0));
  }

  lemma DeviationsNotNegative(prices: seq<real>, med: real)
    ensures forall i | 0 <= i < |prices| :: Map(DeviationFrom(med), prices)[i] >= 0.0
  {
    assert forall i | 0 <= i < |prices| :: Map(DeviationFrom(med), prices)[i] == Abs(prices[i] - med);
  }

  lemma MadZeroMeansMajority(prices: seq<real>)
    requires |prices| > 0 && Mad(prices) == 0.0
    ensures 2 * Count(prices, InBand(Median(prices), Median(prices))) > |prices|
  {
    DeviationsNotNegative(prices, Median(prices));
    MedianZero(Map(DeviationFrom(Median(prices)), prices));
    ZeroDeviations(prices, Median(prices));
  }

  /** The typical deviation vanishes exactly when most exchanges quote one and the same price. */
  lemma MadZeroExactlyWhen(prices: seq<real>)
    requires |prices| > 0
    ensures Mad(prices) == 0.0 <==> exists price :: 2 * Count(prices, InBand(price, price)) > |prices|
  {
    if Mad(prices) == 0.0 {
      MadZeroMeansMajority(prices);
    } else if price :| 2 * Count(prices, InBand(price, price)) > |prices| {
      MajorityHoldsMedian(prices, price, price);
      ZeroDeviations(prices, price);
      MajorityHoldsMedian(Map(DeviationFrom(price), prices), 0.0, 0.0);
    }
  }

  /** A tick past the threshold goes unflagged exactly when most exchanges quote exactly one price. */
  lemma UnflaggedExactlyWhen(ticks: seq<Tick>, sigma: real, t: Tick)
    requires (forall i | 0 <= i < |ticks| :: ticks[i].price > 0.0) && t in ticks
    requires Abs(t.price - Median(Prices(ticks))) > Threshold(sigma, Mad(Prices(ticks)))
    ensures t !in Outliers(ticks, sigma)
       <==> exists price :: 2 * Count(Prices(ticks), InBand(price, price)) > |ticks|
  {
    var prices := Prices(ticks);
    MedianPositive(prices);
    MadZeroExactlyWhen(prices);
    StrayingCount(ticks, Median(prices), Threshold(sigma, Mad(prices)));
    if |ticks| == 1 {
      OneTickIsTypical(ticks, sigma);
    }
  }

  lemma OneTickIsTypical(ticks: seq<Tick>, sigma: real)
    requires |ticks| == 1
    ensures Median(Prices(ticks)) == ticks[0].price && Mad(Prices(ticks)) == 0.0
  {
    SortSorts(Prices(ticks));
    SortedUnique(Sort(Prices(ticks)), Prices(ticks));
    var deviations := Map(DeviationFrom(ticks[0].price), Prices(ticks));
    assert deviations[0] == 0.0;
    SortSorts(deviations);
    SortedUnique(Sort(deviations), deviations);
  }

  // ---- the manager ----

  datatype Adapter = Adapter(name: string, primary: bool)

  function FirstPrimary(adapters: seq<Adapter>): Option<Adapter> {
    if |adapters| == 0 then None
    else if adapters[0].primary then Some(adapters[0])
    else FirstPrimary(adapters[1..])
  }

  lemma {:induction false} FirstPrimaryAppend(adapters: seq<Adapter>, a: Adapter)
    ensures FirstPrimary(adapters + [a])
         == if FirstPrimary(adapters).Some? || !a.primary then FirstPrimary(adapters) else Some(a)
  {
    if |adapters| > 0 {
      assert (adapters + [a])[1..] == adapters[1..] + [a];
      FirstPrimaryAppend(adapters[1..], a);
    }
  }

  predicate Usable(t: Option<Tick>) {
    t.Some? && t.value.price > 0.0
  }

  /** The ticks that exist and carry a positive price, in adapter order. */
  function Positive(answers: seq<Option<Tick>>): seq<Tick> {
    if |answers| == 0 then []
    else
      var last := answers[|answers| - 1];
      Positive(answers[..|answers| - 1]) + if Usable(last) then [last.value] else []
  }

  /** The adapters whose answer is a tick with a positive price, in order, and those ticks. */
  ghost predicate Answered(answers: seq<Option<Tick>>, ticks: seq<Tick>, at: seq<nat>) {
    && |at| == |ticks| && (forall j, k | 0 <= j < k < |at| :: at[j] < at[k])
    && (forall k | 0 <= k < |at| :: at[k] < |answers| && answers[at[k]] == Some(ticks[k]) && ticks[k].price > 0.0)
    && (forall i: nat | i < |answers| && answers[i].Some? && answers[i].value.price > 0.0 :: i in at)
  }

  lemma AnsweredNext(answers: seq<Option<Tick>>, n: nat, ticks: seq<Tick>, at: seq<nat>)
    requires n + 1 == |answers| && Answered(answers[..n], ticks, at)
    ensures if Usable(answers[n]) then Answered(answers, ticks + [answers[n].value], at + [n])
            else Answered(answers, ticks, at)
  {
    assert forall i | 0 <= i < n :: answers[..n][i] == answers[i];
  }

  lemma {:induction false} PositiveAnswered(answers: seq<Option<Tick>>) returns (at: seq<nat>)
    ensures Answered(answers, Positive(answers), at)
  {
    if |answers| == 0 {
      at := [];
    } else {
      var n := |answers| - 1;
      var before := PositiveAnswered(answers[..n]);
      AnsweredNext(answers, n, Positive(answers[..n]), before);
      at := if Usable(answers[n]) then before + [n] else before;
    }
  }

  /** A tick strays if it lies further from the median than the limit. */
  predicate Strays(t: Tick, med: real, limit: real) {
    t.price - med > limit || med - t.price > limit
  }

  function Limit(sigma: real, mad: real): real {
    1.4826 * mad * sigma
  }

  /** The ticks beyond the limit; none when there is no median or no deviation to speak of. */
  ghost predicate FlaggedBy(ticks: seq<Tick>, med: real, mad: real, limit: real, flagged: seq<Tick>) {
    if med == 0.0 || mad == 0.0 then flagged == []
    else forall t :: t in flagged <==> t in ticks && Strays(t, med, limit)
  }

  /** Of two ticks or more, those further out than sigma typical deviations; both middles are told by counting. */
  ghost predicate Flagged(ticks: seq<Tick>, sigma: real, flagged: seq<Tick>) {
    if |ticks| < 2 then flagged == []
    else
      exists med, mad ::
        && IsMedian(Prices(ticks), med) && IsMedian(Map(DeviationFrom(med), Prices(ticks)), mad)
        && FlaggedBy(ticks, med, mad, Limit(sigma, mad), flagged)
  }

  lemma ThresholdIs(sigma: real, mad: real)
    ensures Threshold(sigma, mad) == Limit(sigma, mad)
  {
  }

  lemma StrayingAre(ticks: seq<Tick>, med: real, limit: real)
    ensures forall t :: t in Straying(ticks, med, limit) <==> t in ticks && Strays(t, med, limit)
  {
    StrayingCount(ticks, med, limit);
  }

  lemma OutliersFlagged(ticks: seq<Tick>, sigma: real)
    ensures Flagged(ticks, sigma, Outliers(ticks, sigma))
  {
    if |ticks| >= 2 {
      var prices := Prices(ticks);
      var med, mad := Median(prices), Mad(prices);
      var limit := Threshold(sigma, mad);
      MedianExactlyWhen(prices, med);
      MedianExactlyWhen(Map(DeviationFrom(med), prices), mad);
      StrayingAre(ticks, med, limit);
      ThresholdIs(sigma, mad);
      assert FlaggedBy(ticks, med, mad, limit, Outliers(ticks, sigma));
    }
  }

  class ExchangeManager {
    var adapters: seq<Adapter>
    var primary: Option<Adapter>

    ghost predicate Valid()
      reads this
    {
      primary == FirstPrimary(adapters)
    }

    constructor ()
      ensures Valid() && adapters == []
    {
      adapters, primary := [], None;
    }

    /** A second primary is refused, but it has joined the list by then and goes on being asked. */
    method AddAdapter(a: Adapter) returns (ok: bool)
      requires Valid()
      modifies this
      ensures Valid() && adapters == old(adapters) + [a]
      ensures ok <==> !(a.primary && old(primary).Some?)
      ensures primary == if a.primary && ok then Some(a) else old(primary)
    {
      FirstPrimaryAppend(adapters, a);
      adapters := adapters + [a];
      if a.primary {
        if primary.Some? {
          return false;
        }
        primary := Some(a);
      }
      return true;
    }

    method GetAllTicks(answers: seq<Option<Tick>>) returns (ticks: seq<Tick>)
      requires |answers| == |adapters|
      ensures ticks == Positive(answers)
      ensures exists at :: Answered(answers, ticks, at)
    {
      ghost var at := PositiveAnswered(answers);
      ticks := [];
      for i := 0 to |adapters|
        invariant ticks == Positive(answers[..i])
      {
        assert answers[..i + 1][..i] == answers[..i];
        if Usable(answers[i]) {
          ticks := ticks + [answers[i].value];
        }
      }
      assert answers[..|answers|] == answers;
    }

    method GetMedianPrice(answers: seq<Option<Tick>>) returns (price: Option<real>)
      requires |answers| == |adapters|
      ensures price.Some? <==> exists i :: 0 <= i < |answers| && Usable(answers[i])
      ensures price.Some? ==> price.value > 0.0 && IsMedian(Prices(Positive(answers)), price.value)
      ensures forall lo, hi | 2 * Count(Prices(Positive(answers)), InBand(lo, hi)) > |Positive(answers)| ::
        price.Some? && lo <= price.value <= hi
    {
      var ticks := GetAllTicks(answers);
      PositiveTicks(answers);
      if ticks == [] {
        return None;
      }
      price := Some(Median(Prices(ticks)));
      forall lo, hi | 2 * Count(Prices(ticks), InBand(lo, hi)) > |ticks| ensures lo <= price.value <= hi {
        MajorityHoldsMedian(Prices(ticks), lo, hi);
      }
      MedianPositive(Prices(ticks));
      MedianExactlyWhen(Prices(ticks), price.value);
    }

    method DetectOutliers(answers: seq<Option<Tick>>, sigma: real := OUTLIER_SIGMA) returns (outliers: seq<Tick>)
      requires |answers| == |adapters|
      ensures outliers == Outliers(Positive(answers), sigma) && Flagged(Positive(answers), sigma, outliers)
      ensures sigma * MAD_TO_SIGMA >= 1.0 ==> |outliers| <= |Positive(answers)| / 2
    {
      var ticks := GetAllTicks(answers);
      outliers := Outliers(ticks, sigma);
      OutliersFlagged(ticks, sigma);
      if sigma * MAD_TO_SIGMA >= 1.0 {
        AtMostHalfFlagged(ticks, sigma);
      }
    }
  }

  lemma {:induction false} PositiveTicks(answers: seq<Option<Tick>>)
    ensures forall i | 0 <= i < |Positive(answers)| :: Positive(answers)[i].price > 0.0
    ensures Positive(answers) != [] <==> exists i :: 0 <= i < |answers| && Usable(answers[i])
  {
    if |answers| > 0 {
      var n := |answers| - 1;
      PositiveTicks(answers[..n]);
      if Usable(answers[n]) {
      } else if Positive(answers[..n]) != [] {
        var i :| 0 <= i < n && Usable(answers[..n][i]);
        assert Usable(answers[i]);
      } else {
        forall i | 0 <= i < |answers| ensures !Usable(answers[i]) {
          assert i < n ==> !Usable(answers[..n][i]);
        }
      }
    }
  }

  lemma MedianPositive(values: seq<real>)
    requires |values| > 0 && forall i | 0 <= i < |values| :: values[i] > 0.0
    ensures Median(values) > 0.0
  {
    SortSorts(values);
    var s := Sort(values);
    forall i | 0 <= i < |s| ensures s[i] > 0.0 {
      assert s[i] in multiset(values);
    }
  }
}
