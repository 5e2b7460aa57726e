/** Sorted sequences of reals, and what only depends on which values occur and how often. */
module Sorting {
  import opened Common

  ghost predicate Sorted(s: seq<real>) {
    forall i, j | 0 <= i < j < |s| :: s[i] <= s[j]
  }

  function Insert(x: real, s: seq<real>): (r: seq<real>)
    ensures |r| == |s| + 1
  {
    if |s| == 0 then [x]
    else if x <= s[0] then [x] + s
    else [s[0]] + Insert(x, s[1..])
  }

  function Sort(s: seq<real>): (r: seq<real>)
    ensures |r| == |s|
  {
    if |s| == 0 then [] else Insert(s[0], Sort(s[1..]))
  }

  lemma {:induction false} InsertSorted(x: real, s: seq<real>)
    ensures multiset(Insert(x, s)) == multiset(s) + multiset{x}
    ensures Sorted(s) ==> Sorted(Insert(x, s))
  {
    if |s| > 0 && x > s[0] {
      InsertSorted(x, s[1..]);
      var rest := Insert(x, s[1..]);
      assert s == [s[0]] + s[1..];
      if Sorted(s) {
        forall j | 0 <= j < |rest| ensures s[0] <= rest[j] {
          assert rest[j] in multiset(rest);
          assert rest[j] == x || rest[j] in s[1..];
        }
      }
    }
  }

  lemma FirstAndRest(s: seq<real>)
    requires |s| > 0
    ensures multiset(s) == multiset(s[1..]) + multiset{s[0]}
  {
    assert s == [s[0]] + s[1..];
  }

  lemma {:induction false} SortSorts(s: seq<real>)
    ensures Sorted(Sort(s)) && multiset(Sort(s)) == multiset(s)
  {
    if |s| > 0 {
      SortSorts(s[1..]);
      InsertSorted(s[0], Sort(s[1..]));
      FirstAndRest(s);
    }
  }

  lemma SameLength<T>(a: seq<T>, b: seq<T>)
    requires multiset(a) == multiset(b)
    ensures |a| == |b|
  {
    assert |a| == |multiset(a)| && |b| == |multiset(b)|;
  }

  function Without<T>(s: seq<T>, k: nat): (r: seq<T>)
    requires k < |s|
    ensures |r| == |s| - 1
  {
    s[..k] + s[k + 1..]
  }

  lemma WithoutAt<T>(s: seq<T>, k: nat)
    requires k < |s|
    ensures multiset(s) == multiset(Without(s, k)) + multiset{s[k]}
  {
    assert s == s[..k] + ([s[k]] + s[k + 1..]);
    assert multiset(s) == multiset(s[..k]) + (multiset{s[k]} + multiset(s[k + 1..]));
  }

  lemma WithoutFirst<T>(s: seq<T>)
    requires |s| > 0
    ensures multiset(s[1..]) == multiset(s) - multiset{s[0]}
  {
    WithoutAt(s, 0);
    assert Without(s, 0) == s[1..];
  }

  lemma SameFirst(a: seq<real>, b: seq<real>)
    requires Sorted(a) && Sorted(b) && multiset(a) == multiset(b) && |a| > 0 && |b| > 0
    ensures a[0] == b[0]
  {
    assert a[0] in multiset(b) && b[0] in multiset(a);
    var i :| 0 <= i < |b| && b[i] == a[0];
    var j :| 0 <= j < |a| && a[j] == b[0];
  }

  /** There is one way to sort. */
  lemma {:induction false} SortedUnique(a: seq<real>, b: seq<real>)
    requires Sorted(a) && Sorted(b) && multiset(a) == multiset(b)
    ensures a == b
  {
    SameLength(a, b);
    if |a| > 0 {
      SameFirst(a, b);
      WithoutFirst(a);
      WithoutFirst(b);
      SortedUnique(a[1..], b[1..]);
      assert a == [a[0]] + a[1..] && b == [b[0]] + b[1..];
    }
  }

  lemma SortIgnoresOrder(a: seq<real>, b: seq<real>)
    requires multiset(a) == multiset(b)
    ensures Sort(a) == Sort(b)
  {
    SortSorts(a);
    SortSorts(b);
    SortedUnique(Sort(a), Sort(b));
  }

  function Map<T, U>(f: T -> U, s: seq<T>): (r: seq<U>)
    ensures |r| == |s| && forall i | 0 <= i < |s| :: r[i] == f(s[i])
  {
    seq(|s|, i requires 0 <= i < |s| => f(s[i]))
  }

  /** Rearranging the arguments rearranges the values. */
  lemma {:induction false} MapPermutation<T, U>(f: T -> U, a: seq<T>, b: seq<T>)
    requires multiset(a) == multiset(b)
    ensures multiset(Map(f, a)) == multiset(Map(f, b))
    decreases |a|
  {
    SameLength(a, b);
    if |a| > 0 {
      var k := Find(a[0], b, a);
      SameRest(a, b, k);
      MapPermutation(f, Without(a, 0), Without(b, k));
      MapSplit(f, a, 0);
      MapSplit(f, b, k);
    }
  }

  lemma Find<T>(x: T, b: seq<T>, a: seq<T>) returns (k: nat)
    requires multiset(a) == multiset(b) && x in a
    ensures k < |b| && b[k] == x
  {
    assert x in multiset(b);
    k :| 0 <= k < |b| && b[k] == x;
  }

  lemma SameRest<T>(a: seq<T>, b: seq<T>, k: nat)
    requires multiset(a) == multiset(b) && |a| > 0 && k < |b| && b[k] == a[0]
    ensures multiset(Without(a, 0)) == multiset(Without(b, k))
  {
    WithoutAt(a, 0);
    WithoutAt(b, k);
    assert multiset(Without(a, 0)) == multiset(a) - multiset{a[0]};
    assert multiset(Without(b, k)) == multiset(b) - multiset{b[k]};
  }

  lemma MapSplit<T, U>(f: T -> U, s: seq<T>, k: nat)
    requires k < |s|
    ensures multiset(Map(f, s)) == multiset(Map(f, Without(s, k))) + multiset{f(s[k])}
  {
    WithoutAt(Map(f, s), k);
    MapWithout(f, s, k);
  }

  lemma MapWithout<T, U>(f: T -> U, s: seq<T>, k: nat)
    requires k < |s|
    ensures Without(Map(f, s), k) == Map(f, Without(s, k))
  {
  }

  lemma SumWithout(s: seq<real>, k: nat)
    requires k < |s|
    ensures Sum(s) == s[k] + Sum(Without(s, k))
  {
    assert s == s[..k] + s[k..] && s[k..][1..] == s[k + 1..];
    SumConcat(s[..k], s[k..]);
    SumConcat(s[..k], s[k + 1..]);
  }

  /** A sum only depends on which values occur and how often. */
  lemma {:induction false} SumPermutation(a: seq<real>, b: seq<real>)
    requires multiset(a) == multiset(b)
    ensures Sum(a) == Sum(b)
    decreases |a|
  {
    SameLength(a, b);
    if |a| > 0 {
      var k := Find(a[0], b, a);
      SameRest(a, b, k);
      SumPermutation(Without(a, 0), Without(b, k));
      SumWithout(a, 0);
      SumWithout(b, k);
    }
  }

  // ---- counting ----

  function Count(s: seq<real>, p: real -> bool): (n: nat)
    ensures n <= |s|
  {
    if |s| == 0 then 0 else (if p(s[0]) then 1 else 0) + Count(s[1..], p)
  }

  lemma {:induction false} CountConcat(a: seq<real>, b: seq<real>, p: real -> bool)
    ensures Count(a + b, p) == Count(a, p) + Count(b, p)
  {
    if |a| == 0 {
      assert a + b == b;
    } else {
      assert (a + b)[1..] == a[1..] + b;
      CountConcat(a[1..], b, p);
    }
  }

  lemma {:induction false} CountNone(s: seq<real>, p: real -> bool)
    requires forall i | 0 <= i < |s| :: !p(s[i])
    ensures Count(s, p) == 0
  {
    if |s| > 0 {
      CountNone(s[1..], p);
    }
  }

  lemma {:induction false} CountAll(s: seq<real>, p: real -> bool)
    requires forall i | 0 <= i < |s| :: p(s[i])
    ensures Count(s, p) == |s|
  {
    if |s| > 0 {
      CountAll(s[1..], p);
    }
  }

  lemma CountWithout(s: seq<real>, k: nat, p: real -> bool)
    requires k < |s|
    ensures Count(s, p) == Count(Without(s, k), p) + if p(s[k]) then 1 else 0
  {
    assert s == s[..k] + s[k..] && s[k..][1..] == s[k + 1..];
    CountConcat(s[..k], s[k..], p);
    CountConcat(s[..k], s[k + 1..], p);
  }

  lemma {:induction false} CountAfter(s: seq<real>, k: nat, p: real -> bool)
    requires k <= |s| && forall i | 0 <= i < k :: !p(s[i])
    ensures Count(s, p) <= |s| - k
  {
    if k > 0 {
      CountAfter(s[1..], k - 1, p);
    }
  }

  lemma CountBefore(s: seq<real>, k: nat, p: real -> bool)
    requires k <= |s| && forall i | k <= i < |s| :: !p(s[i])
    ensures Count(s, p) <= k
  {
    assert s == s[..k] + s[k..];
    CountConcat(s[..k], s[k..], p);
    CountNone(s[k..], p);
  }

  lemma {:induction false} CountPermutation(a: seq<real>, b: seq<real>, p: real -> bool)
    requires multiset(a) == multiset(b)
    ensures Count(a, p) == Count(b, p)
    decreases |a|
  {
    SameLength(a, b);
    if |a| > 0 {
      var k := Find(a[0], b, a);
      SameRest(a, b, k);
      CountPermutation(Without(a, 0), Without(b, k), p);
      CountWithout(a, 0, p);
      CountWithout(b, k, p);
    }
  }

  function Above(t: real): real -> bool {
    x => x > t
  }

  function Below(t: real): real -> bool {
    x => x < t
  }

  // ---- percentiles ----

  /** How far along n sorted values the q-th percentile lies, from position 0 to n - 1. */
  function Position(q: real, n: nat): real {
    q / 100.0 * (n - 1) as real
  }

  /** The q-th percentile, 0 to 100, with linear interpolation between neighbours in sorted order. */
  function Percentile(values: seq<real>, q: real): real
    requires |values| > 0 && 0.0 <= q <= 100.0
  {
    AtPosition(Sort(values), Position(q, |values|))
  }

  function AtPosition(s: seq<real>, x: real): real
    requires |s| > 0
  {
    if x < 0.0 then s[0]
    else if x.Floor >= |s| - 1 then s[|s| - 1]
    else Between(s[x.Floor], s[x.Floor + 1], x - x.Floor as real)
  }

  function Between(a: real, b: real, part: real): real {
    a + (b - a) * part
  }

  lemma BetweenBounds(a: real, b: real, part: real)
    requires a <= b && 0.0 <= part <= 1.0
    ensures a <= Between(a, b, part) <= b
  {
    var gap := b - a;
    assert 0.0 <= gap * part;
    assert gap * (1.0 - part) >= 0.0;
    assert gap * part + gap * (1.0 - part) == gap;
  }

  /** A percentile lies within any bounds of the values. */
  lemma PercentileBounds(values: seq<real>, q: real, lo: real, hi: real)
    requires |values| > 0 && 0.0 <= q <= 100.0
    requires forall i | 0 <= i < |values| :: lo <= values[i] <= hi
    ensures lo <= Percentile(values, q) <= hi
  {
    var s := Sort(values);
    SortSorts(values);
    forall i | 0 <= i < |s| ensures lo <= s[i] <= hi {
      assert s[i] in multiset(values);
    }
    var x := Position(q, |values|);
    if 0.0 <= x && x.Floor < |s| - 1 {
      BetweenBounds(s[x.Floor], s[x.Floor + 1], x - x.Floor as real);
    }
  }

  // ---- percentiles, told by counting ----

  /** The r-th smallest of the values, from 0: at most r lie below it and at most the rest above. */
  predicate HasRank(values: seq<real>, v: real, r: nat) {
    r < |values| && v in values && Count(values, Below(v)) <= r && Count(values, Above(v)) <= |values| - 1 - r
  }

  /** The values ranked on either side of position q% of the way, and the point that far between them. */
  ghost predicate IsPercentile(values: seq<real>, q: real, v: real) {
    LiesAt(values, q * (|values| - 1) as real, v)
  }

  ghost predicate LiesAt(values: seq<real>, way: real, v: real) {
    exists low, high, r: nat, part :: Splits(values, way, low, high, r, part, v)
  }

  /** `way` is a hundred times the position; `part` is how far it lies past rank r. */
  predicate Splits(values: seq<real>, way: real, low: real, high: real, r: nat, part: real, v: real) {
    && HasRank(values, low, r) && HasRank(values, high, if r + 1 < |values| then r + 1 else r)
    && way == 100.0 * r as real + 100.0 * part && 0.0 <= part < 1.0
    && v == low + (high - low) * part
  }

  lemma SortedHasRank(values: seq<real>, r: nat)
    requires r < |values|
    ensures HasRank(values, Sort(values)[r], r)
  {
    var s := Sort(values);
    SortSorts(values);
    assert s[r] in multiset(values);
    CountPermutation(values, s, Below(s[r]));
    CountPermutation(values, s, Above(s[r]));
    CountBefore(s, r, Below(s[r]));
    CountAfter(s, r + 1, Above(s[r]));
  }

  /** There is only one value of each rank. */
  lemma RankIsPosition(values: seq<real>, v: real, r: nat)
    requires HasRank(values, v, r)
    ensures v == Sort(values)[r]
  {
    var s := Sort(values);
    SortSorts(values);
    CountPermutation(values, s, Below(v));
    CountPermutation(values, s, Above(v));
    if v < s[r] {
      CountFrom(s, r, Above(v));
    }
    if s[r] < v {
      CountUpTo(s, r + 1, Below(v));
    }
  }

  lemma CountFrom(s: seq<real>, k: nat, p: real -> bool)
    requires k <= |s| && forall i | k <= i < |s| :: p(s[i])
    ensures Count(s, p) >= |s| - k
  {
    assert s == s[..k] + s[k..];
    CountConcat(s[..k], s[k..], p);
    CountAll(s[k..], p);
  }

  lemma CountUpTo(s: seq<real>, k: nat, p: real -> bool)
    requires k <= |s| && forall i | 0 <= i < k :: p(s[i])
    ensures Count(s, p) >= k
  {
    assert s == s[..k] + s[k..];
    CountConcat(s[..k], s[k..], p);
    CountAll(s[..k], p);
  }

  lemma PositionIs(q: real, n: nat)
    requires n > 0 && 0.0 <= q <= 100.0
    ensures 100.0 * Position(q, n) == q * (n - 1) as real
    ensures 0.0 <= Position(q, n) <= (n - 1) as real
  {
    var m, share := (n - 1) as real, q / 100.0;
    ScaledOrder(0.0, share, m);
    ScaledOrder(share, 1.0, m);
    Hundred(share, m);
  }

  lemma Hundred(share: real, m: real)
    ensures 100.0 * (share * m) == 100.0 * share * m
  {
  }

  lemma PercentileSplits(values: seq<real>, q: real, low: real, high: real, r: nat, part: real, v: real)
    requires |values| > 0 && 0.0 <= q <= 100.0
    requires Splits(values, q * (|values| - 1) as real, low, high, r, part, v)
    ensures v == Percentile(values, q)
  {
    var x, next := Position(q, |values|), if r + 1 < |values| then r + 1 else r;
    PositionIs(q, |values|);
    RankIsPosition(values, low, r);
    RankIsPosition(values, high, next);
    SplitAt(Sort(values), x, r, part);
  }

  lemma SplitAt(s: seq<real>, x: real, r: nat, part: real)
    requires |s| > 0 && 0.0 <= x <= (|s| - 1) as real && x == r as real + part && 0.0 <= part < 1.0
    ensures r < |s| && AtPosition(s, x) == Between(s[r], s[if r + 1 < |s| then r + 1 else r], part)
  {
    assert x.Floor == r;
  }

  lemma PercentileIsSplit(values: seq<real>, q: real)
    requires |values| > 0 && 0.0 <= q <= 100.0
    ensures IsPercentile(values, q, Percentile(values, q))
  {
    var s, x := Sort(values), Position(q, |values|);
    PositionIs(q, |values|);
    var r: nat := x.Floor;
    var next := if r + 1 < |values| then r + 1 else r;
    SortedHasRank(values, r);
    SortedHasRank(values, next);
    SplitAt(s, x, r, x - r as real);
    assert Splits(values, q * (|values| - 1) as real, s[r], s[next], r, x - r as real, Percentile(values, q));
  }

  /** The computed percentile is the one number that counting allows. */
  lemma PercentileExactlyWhen(values: seq<real>, q: real, v: real)
    requires |values| > 0 && 0.0 <= q <= 100.0
    ensures IsPercentile(values, q, v) <==> v == Percentile(values, q)
  {
    PercentileIsSplit(values, q);
    var way := q * (|values| - 1) as real;
    if low, high, r: nat, part :| Splits(values, way, low, high, r, part, v) {
      PercentileSplits(values, q, low, high, r, part, v);
    }
  }

  /** A higher percentile is never smaller. */
  lemma PercentileMonotone(values: seq<real>, q1: real, q2: real)
    requires |values| > 0 && 0.0 <= q1 <= q2 <= 100.0
    ensures Percentile(values, q1) <= Percentile(values, q2)
  {
    PositionIs(q1, |values|);
    PositionIs(q2, |values|);
    PositionOrder(q1, q2, |values|);
    SortSorts(values);
    PositionMonotone(Sort(values), Position(q1, |values|), Position(q2, |values|));
  }

  lemma PositionOrder(q1: real, q2: real, n: nat)
    requires n > 0 && q1 <= q2
    ensures Position(q1, n) <= Position(q2, n)
  {
    ScaledOrder(q1 / 100.0, q2 / 100.0, (n - 1) as real);
  }

  lemma ScaledOrder(a: real, b: real, m: real)
    requires a <= b && m >= 0.0
    ensures a * m <= b * m
  {
    assert (b - a) * m >= 0.0;
  }

  lemma PositionMonotone(s: seq<real>, x1: real, x2: real)
    requires Sorted(s) && |s| > 0 && 0.0 <= x1 <= x2 <= (|s| - 1) as real
    ensures AtPosition(s, x1) <= AtPosition(s, x2)
  {
    var i, j := x1.Floor, x2.Floor;
    if i < |s| - 1 {
      BetweenBounds(s[i], s[i + 1], x1 - i as real);
      if j < |s| - 1 {
        BetweenBounds(s[j], s[j + 1], x2 - j as real);
        if i == j {
          BetweenMonotone(s[i], s[i + 1], x1 - i as real, x2 - i as real);
        }
      }
    }
  }

  lemma BetweenMonotone(a: real, b: real, x: real, y: real)
    requires a <= b && x <= y
    ensures Between(a, b, x) <= Between(a, b, y)
  {
    assert (b - a) * (y - x) >= 0.0;
    assert (b - a) * (y - x) == (b - a) * y - (b - a) * x;
  }
}
