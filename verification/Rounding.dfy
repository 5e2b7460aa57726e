/** Rounding to a fixed number of decimal places, ties to the even neighbour, over exact reals. */
module Rounding {
  import opened Common

  /** The numbers of places the repository rounds to. */
  datatype Places = Two | Four | Six

  function Scale(d: Places): (s: real)
    ensures s >= 100.0
  {
    match d
    case Two => 100.0
    case Four => 10000.0
    case Six => 1000000.0
  }

  function RoundInt(x: real): int {
    var f := x.Floor;
    var rest := x - f as real;
    if rest < 0.5 || (rest == 0.5 && f % 2 == 0) then f else f + 1
  }

  /** k is the whole number nearest to x, and the even one of the two when x lies half way. */
  predicate NearestWhole(x: real, k: int) {
    && Abs(k as real - x) <= 0.5
    && (Abs(k as real - x) == 0.5 ==> k % 2 == 0)
  }

  /** Which is the only number with that property. */
  lemma RoundsToNearest(x: real, k: int)
    ensures NearestWhole(x, k) <==> k == RoundInt(x)
  {
    var f := x.Floor;
    if NearestWhole(x, k) {
      assert f <= k <= f + 1;
    }
  }

  function Round(x: real, d: Places): real {
    match d
    case Two => RoundInt(x * 100.0) as real / 100.0
    case Four => RoundInt(x * 10000.0) as real / 10000.0
    case Six => RoundInt(x * 1000000.0) as real / 1000000.0
  }

  /** x is a whole number of units in the last of the d places. */
  predicate OnGrid(x: real, d: Places) {
    match d
    case Two => (x * 100.0).Floor as real == x * 100.0
    case Four => (x * 10000.0).Floor as real == x * 10000.0
    case Six => (x * 1000000.0).Floor as real == x * 1000000.0
  }

  lemma RoundIntMonotone(x: real, y: real)
    requires x <= y
    ensures RoundInt(x) <= RoundInt(y)
  {
  }

  lemma RoundMonotone(x: real, y: real, d: Places)
    requires x <= y
    ensures Round(x, d) <= Round(y, d)
  {
    match d
    case Two => RoundIntMonotone(x * 100.0, y * 100.0);
    case Four => RoundIntMonotone(x * 10000.0, y * 10000.0);
    case Six => RoundIntMonotone(x * 1000000.0, y * 1000000.0);
  }

  lemma RoundFixesGrid(x: real, d: Places)
    requires OnGrid(x, d)
    ensures Round(x, d) == x
  {
  }

  lemma RoundOnGrid(x: real, d: Places)
    ensures OnGrid(Round(x, d), d)
  {
    match d
    case Two => WholeOnGrid(RoundInt(x * 100.0), d);
    case Four => WholeOnGrid(RoundInt(x * 10000.0), d);
    case Six => WholeOnGrid(RoundInt(x * 1000000.0), d);
  }

  lemma WholeOnGrid(k: int, d: Places)
    ensures OnGrid(k as real / Scale(d), d)
  {
  }

  /** Rounding moves a value by at most half a unit in the last place. */
  lemma RoundNear(x: real, d: Places)
    ensures Abs(Round(x, d) - x) * Scale(d) <= 0.5
  {
  }

  lemma GridSum(x: real, y: real, d: Places)
    requires OnGrid(x, d) && OnGrid(y, d)
    ensures OnGrid(x + y, d) && OnGrid(-x, d)
  {
    match d
    case Two =>
      WholeSum(x * 100.0, y * 100.0);
      assert (x + y) * 100.0 == x * 100.0 + y * 100.0;
      assert (-x) * 100.0 == -(x * 100.0);
    case Four =>
      WholeSum(x * 10000.0, y * 10000.0);
      assert (x + y) * 10000.0 == x * 10000.0 + y * 10000.0;
      assert (-x) * 10000.0 == -(x * 10000.0);
    case Six =>
      WholeSum(x * 1000000.0, y * 1000000.0);
      assert (x + y) * 1000000.0 == x * 1000000.0 + y * 1000000.0;
      assert (-x) * 1000000.0 == -(x * 1000000.0);
  }

  lemma WholeSum(a: real, b: real)
    requires a.Floor as real == a && b.Floor as real == b
    ensures (a + b).Floor as real == a + b && (-a).Floor as real == -a
  {
    WholeNumber(a + b, a.Floor + b.Floor);
    WholeNumber(-a, -a.Floor);
  }

  lemma WholeNumber(x: real, k: int)
    requires x == k as real
    ensures x.Floor as real == x
  {
  }
}
