/** Types and small facts shared by every module. */
module Common {

  datatype Option<+T> = None | Some(value: T)

  function Max(a: real, b: real): real {
    if a < b then b else a
  }

  function Min(a: real, b: real): real {
    if b < a then b else a
  }

  function Abs(x: real): real {
    if x < 0.0 then -x else x
  }

  /** A positive factor keeps the sign. */
  lemma ProductSign(a: real, n: real)
    requires n > 0.0
    ensures a * n > 0.0 <==> a > 0.0
    ensures a * n < 0.0 <==> a < 0.0
  {
  }

  /** A quotient is the one number that multiplies back. */
  lemma QuotientIs(x: real, n: real, q: real)
    requires n > 0.0 && q * n == x
    ensures x / n == q
  {
  }

  /** A positive divisor keeps the order. */
  lemma QuotientOrder(x: real, y: real, n: real)
    requires n > 0.0
    ensures x <= y <==> x / n <= y / n
    ensures x < y <==> x / n < y / n
  {
  }

  /** Adds up a sequence of reals from the left end. */
  function Sum(s: seq<real>): real {
    if |s| == 0 then 0.0 else s[0] + Sum(s[1..])
  }

  lemma {:induction false} SumConcat(a: seq<real>, b: seq<real>)
    ensures Sum(a + b) == Sum(a) + Sum(b)
  {
    if |a| == 0 {
      assert a + b == b;
    } else {
      assert (a + b)[1..] == a[1..] + b;
      SumConcat(a[1..], b);
    }
  }

  lemma SumAppend(a: seq<real>, x: real)
    ensures Sum(a + [x]) == Sum(a) + x
  {
    SumConcat(a, [x]);
    assert Sum([x]) == x;
  }
}
