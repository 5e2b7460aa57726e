/** Which rows "the last n resolved trades" are, told by their positions in the table. */
module Streaks {
  import opened Common
  import opened Ledger

  predicate ResolvedAt(trades: seq<Trade>, p: Pair, i: nat) {
    i < |trades| && trades[i].pair == p && !trades[i].Open()
  }

  /** The positions of the pair's resolved rows from k on. */
  ghost function ResolvedSince(trades: seq<Trade>, p: Pair, k: nat): set<nat> {
    set i: nat | k <= i < |trades| && ResolvedAt(trades, p, i)
  }

  /** From some row on the pair has exactly n resolved trades, and every one of them was lost. */
  ghost predicate LosingStreak(trades: seq<Trade>, p: Pair, n: nat) {
    exists k: nat :: AllLost(trades, p, n, k)
  }

  ghost predicate AllLost(trades: seq<Trade>, p: Pair, n: nat, k: nat) {
    |ResolvedSince(trades, p, k)| == n && forall i | i in ResolvedSince(trades, p, k) :: trades[i].outcome == Some(Loss)
  }

  /**
   The positions of the newest n resolved rows, newest first: a resolved row that is not among them
   is older than all of them, and there is one only if there are n of them.
   */
  ghost predicate Newest(trades: seq<Trade>, p: Pair, n: nat, at: seq<nat>) {
    && |at| <= n
    && (forall j | 0 <= j < |at| :: ResolvedAt(trades, p, at[j]))
    && (forall j, k | 0 <= j < k < |at| :: at[j] > at[k])
    && (forall i: nat | ResolvedAt(trades, p, i) && i !in at :: |at| == n && forall j | 0 <= j < |at| :: i < at[j])
  }

  /** The rows are those at these positions, in this order. */
  ghost predicate RowsAt(trades: seq<Trade>, at: seq<nat>, rows: seq<Trade>) {
    |rows| == |at| && forall j | 0 <= j < |at| :: at[j] < |trades| && rows[j] == trades[at[j]]
  }

  lemma RecentNext(trades: seq<Trade>, p: Pair, n: nat, m: nat)
    requires m + 1 == |trades| && n > 0
    ensures Recent(Of(trades, p), n)
         == if ResolvedAt(trades, p, m) then [trades[m]] + Recent(Of(trades[..m], p), n - 1)
            else Recent(Of(trades[..m], p), n)
  {
    var last, earlier := trades[m], Of(trades[..m], p);
    assert (earlier + [last])[..|earlier|] == earlier;
  }

  lemma RowsAtNext(trades: seq<Trade>, m: nat, at: seq<nat>, rows: seq<Trade>)
    requires m < |trades| && RowsAt(trades[..m], at, rows)
    ensures RowsAt(trades, at, rows) && RowsAt(trades, [m] + at, [trades[m]] + rows)
  {
    forall j | 0 <= j < |at| ensures at[j] < m && trades[..m][at[j]] == trades[at[j]] {
    }
  }

  /** These are the rows the query means, at their positions. */
  ghost predicate NewestRows(trades: seq<Trade>, p: Pair, n: nat, at: seq<nat>, rows: seq<Trade>) {
    Newest(trades, p, n, at) && RowsAt(trades, at, rows)
  }

  lemma NoRows(trades: seq<Trade>, p: Pair, n: nat)
    requires |trades| == 0 || n == 0
    ensures NewestRows(trades, p, n, [], Recent(Of(trades, p), n))
  {
  }

  lemma RowsNext(trades: seq<Trade>, p: Pair, n: nat, m: nat, at: seq<nat>, rows: seq<Trade>)
    requires m + 1 == |trades| && n > 0
    requires NewestRows(trades[..m], p, if ResolvedAt(trades, p, m) then n - 1 else n, at, rows)
    ensures if ResolvedAt(trades, p, m) then NewestRows(trades, p, n, [m] + at, [trades[m]] + rows)
            else NewestRows(trades, p, n, at, rows)
  {
    RowsAtNext(trades, m, at, rows);
    if ResolvedAt(trades, p, m) {
      NewestOneMore(trades, p, n, at);
    } else {
      NewestNoMore(trades, p, n, at);
    }
  }

  /** The query behind the statistics and the breaker returns the newest resolved rows of the pair. */
  lemma {:induction false} RecentIsNewest(trades: seq<Trade>, p: Pair, n: nat) returns (at: seq<nat>)
    ensures NewestRows(trades, p, n, at, Recent(Of(trades, p), n))
    decreases |trades|
  {
    if |trades| == 0 || n == 0 {
      at := [];
      NoRows(trades, p, n);
    } else {
      var m := |trades| - 1;
      var k := if ResolvedAt(trades, p, m) then n - 1 else n;
      at := RecentIsNewest(trades[..m], p, k);
      RecentNext(trades, p, n, m);
      RowsNext(trades, p, n, m, at, Recent(Of(trades[..m], p), k));
      at := if ResolvedAt(trades, p, m) then [m] + at else at;
    }
  }

  lemma NewestOneMore(trades: seq<Trade>, p: Pair, n: nat, rest: seq<nat>)
    requires |trades| > 0 && n > 0 && ResolvedAt(trades, p, |trades| - 1)
    requires Newest(trades[..|trades| - 1], p, n - 1, rest)
    ensures Newest(trades, p, n, [|trades| - 1] + rest)
  {
    var m, at := |trades| - 1, [|trades| - 1] + rest;
    forall i: nat | ResolvedAt(trades, p, i) && i !in at
      ensures |at| == n && forall j | 0 <= j < |at| :: i < at[j]
    {
      assert at[0] == m && (i in rest ==> i in at);
      assert ResolvedAt(trades[..m], p, i);
    }
    forall j | 0 <= j < |at| ensures ResolvedAt(trades, p, at[j]) {
      if j > 0 { assert ResolvedAt(trades[..m], p, rest[j - 1]); }
    }
  }

  lemma NewestNoMore(trades: seq<Trade>, p: Pair, n: nat, at: seq<nat>)
    requires |trades| > 0 && !ResolvedAt(trades, p, |trades| - 1) && Newest(trades[..|trades| - 1], p, n, at)
    ensures Newest(trades, p, n, at)
  {
    var m := |trades| - 1;
    assert forall i: nat | ResolvedAt(trades, p, i) :: ResolvedAt(trades[..m], p, i);
    assert forall i: nat | ResolvedAt(trades[..m], p, i) :: ResolvedAt(trades, p, i);
  }

  function Members(at: seq<nat>): set<nat> {
    set i | i in at
  }

  lemma {:induction false} MembersCount(at: seq<nat>)
    requires forall j, k | 0 <= j < k < |at| :: at[j] > at[k]
    ensures |Members(at)| == |at|
  {
    if |at| == 0 {
      assert Members(at) == {};
    } else {
      MembersCount(at[1..]);
      assert at == [at[0]] + at[1..];
      assert Members(at) == {at[0]} + Members(at[1..]);
    }
  }

  lemma SubsetCount(a: set<nat>, b: set<nat>)
    requires a <= b
    ensures |a| <= |b| && (|a| == |b| ==> a == b)
  {
    assert b == a + (b - a);
  }

  /** The newest n, told by counting: exactly n resolved rows lie from the oldest of them on. */
  lemma NewestAreSince(trades: seq<Trade>, p: Pair, n: nat, at: seq<nat>, k: nat)
    requires Newest(trades, p, n, at) && |ResolvedSince(trades, p, k)| == n
    ensures ResolvedSince(trades, p, k) == Members(at)
  {
    var since := ResolvedSince(trades, p, k);
    MembersCount(at);
    if !(Members(at) <= since) {
      var j :| 0 <= j < |at| && at[j] < k;
      forall i | i in since ensures i in Members(at) {
        assert i > at[j];
      }
    } else {
      SubsetCount(Members(at), since);
    }
    SubsetCount(since, Members(at));
  }

  /** Tables with the same rows of the pair, in the same order, are on a streak together. */
  lemma SameRowsSameStreak(a: seq<Trade>, b: seq<Trade>, p: Pair, n: nat)
    requires Of(a, p) == Of(b, p)
    ensures LosingStreak(a, p, n) <==> LosingStreak(b, p, n)
  {
    StreakIsRecent(a, p, n);
    StreakIsRecent(b, p, n);
  }

  /** The query finds n rows, all of them lost, exactly on a losing streak of n. */
  lemma StreakIsRecent(trades: seq<Trade>, p: Pair, n: nat)
    ensures var recent := Recent(Of(trades, p), n);
      LosingStreak(trades, p, n) <==> |recent| >= n && forall t | t in recent :: t.outcome == Some(Loss)
  {
    var recent := Recent(Of(trades, p), n);
    var at := RecentIsNewest(trades, p, n);
    if k: nat :| AllLost(trades, p, n, k) {
      NewestAreSince(trades, p, n, at, k);
      MembersCount(at);
      forall t | t in recent ensures t.outcome == Some(Loss) {
        var j :| 0 <= j < |recent| && recent[j] == t;
        assert at[j] in Members(at);
      }
    }
    if |recent| >= n && forall t | t in recent :: t.outcome == Some(Loss) {
      FullIsStreak(trades, p, n, at);
    }
  }

  lemma FullIsStreak(trades: seq<Trade>, p: Pair, n: nat, at: seq<nat>)
    requires Newest(trades, p, n, at) && |at| == n && forall j | 0 <= j < n :: trades[at[j]].outcome == Some(Loss)
    ensures LosingStreak(trades, p, n)
  {
    var k: nat := if n == 0 then |trades| else at[n - 1];
    var since := ResolvedSince(trades, p, k);
    MembersCount(at);
    if n == 0 {
      assert since == {};
    } else {
      assert since == Members(at);
    }
    assert AllLost(trades, p, n, k);
  }

  /** The newest rows are the resolved ones from some position on, which is the start unless there are n. */
  lemma NewestIsTail(trades: seq<Trade>, p: Pair, n: nat, at: seq<nat>) returns (k: nat)
    requires Newest(trades, p, n, at)
    ensures ResolvedSince(trades, p, k) == Members(at) && (|at| < n ==> k == 0)
  {
    k := if |at| < n then 0 else if n == 0 then |trades| else at[n - 1];
    assert forall i | i in ResolvedSince(trades, p, k) :: i in at;
  }

  /** There is one such list. */
  lemma NewestUnique(trades: seq<Trade>, p: Pair, n: nat, a: seq<nat>, b: seq<nat>)
    requires Newest(trades, p, n, a) && Newest(trades, p, n, b)
    ensures a == b
  {
    var k := NewestIsTail(trades, p, n, a);
    var l := NewestIsTail(trades, p, n, b);
    MembersCount(a);
    MembersCount(b);
    SubsetCount(Members(a), ResolvedSince(trades, p, 0));
    SubsetCount(Members(b), ResolvedSince(trades, p, 0));
    if |a| == n {
      assert |b| == n;
      NewestAreSince(trades, p, n, b, k);
    }
    FallingUnique(a, b);
  }

  lemma {:induction false} FallingUnique(a: seq<nat>, b: seq<nat>)
    requires (forall j, k | 0 <= j < k < |a| :: a[j] > a[k]) && (forall j, k | 0 <= j < k < |b| :: b[j] > b[k])
    requires Members(a) == Members(b)
    ensures a == b
  {
    MembersCount(a);
    MembersCount(b);
    if |a| > 0 {
      assert a[0] in Members(a) && a[0] in b;
      assert b[0] in Members(b) && b[0] in a;
      assert a[0] == b[0];
      assert Members(a[1..]) == Members(a) - {a[0]};
      assert Members(b[1..]) == Members(b) - {b[0]};
      FallingUnique(a[1..], b[1..]);
      assert a == [a[0]] + a[1..] && b == [b[0]] + b[1..];
    }
  }

  /** Which rows are the newest depends on which are resolved, not on how. */
  lemma NewestSameResolved(a: seq<Trade>, b: seq<Trade>, p: Pair, n: nat, at: seq<nat>)
    requires Newest(a, p, n, at) && |a| == |b|
    requires forall i: nat | i < |a| :: ResolvedAt(a, p, i) == ResolvedAt(b, p, i)
    ensures Newest(b, p, n, at)
  {
  }

  /** The query returns n rows, or all there are. */
  lemma RecentCount(trades: seq<Trade>, p: Pair, n: nat)
    ensures var all := |ResolvedSince(trades, p, 0)|;
      |Recent(Of(trades, p), n)| == if all < n then all else n
  {
    var at := RecentIsNewest(trades, p, n);
    var all := ResolvedSince(trades, p, 0);
    MembersCount(at);
    SubsetCount(Members(at), all);
    if |at| < n {
      assert all <= Members(at);
      SubsetCount(all, Members(at));
    }
  }
}
