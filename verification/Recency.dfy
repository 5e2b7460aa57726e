/** A deque trimmed from the front by age, against the full history it was fed with. */
module Recency {
  import opened Common

  /** What a deque holds: when it came, and what came. */
  datatype Stamped<T> = Stamped(at: real, value: T)

  /** The entries no older than `span` at `now`. */
  function Within<T>(log: seq<Stamped<T>>, now: real, span: real): (r: seq<Stamped<T>>)
    ensures |r| <= |log|
  {
    if |log| == 0 then []
    else
      var last := log[|log| - 1];
      Within(log[..|log| - 1], now, span) + if now - last.at <= span then [last] else []
  }

  ghost predicate Ordered<T>(log: seq<Stamped<T>>) {
    |log| < 2 || (log[|log| - 2].at <= log[|log| - 1].at && Ordered(log[..|log| - 1]))
  }

  lemma {:induction false} OrderedMeans<T>(log: seq<Stamped<T>>)
    ensures Ordered(log) <==> forall i, j | 0 <= i < j < |log| :: log[i].at <= log[j].at
  {
    if |log| >= 2 {
      var n := |log| - 1;
      OrderedMeans(log[..n]);
      if Ordered(log) {
        assert forall i | 0 <= i < n :: log[..n][i].at <= log[..n][n - 1].at;
      } else if log[n - 1].at <= log[n].at {
        var i, j :| 0 <= i < j < n && log[..n][i].at > log[..n][j].at;
        assert log[i].at > log[j].at;
      }
    }
  }

  /** The log ends no later than `clock`. */
  ghost predicate UpTo<T>(log: seq<Stamped<T>>, clock: real) {
    |log| > 0 ==> log[|log| - 1].at <= clock
  }

  ghost predicate AllOld<T>(log: seq<Stamped<T>>, now: real, span: real) {
    |log| == 0 || (now - log[|log| - 1].at > span && AllOld(log[..|log| - 1], now, span))
  }

  lemma {:induction false} AllOldMeans<T>(log: seq<Stamped<T>>, now: real, span: real)
    ensures AllOld(log, now, span) <==> forall i | 0 <= i < |log| :: now - log[i].at > span
  {
    if |log| > 0 {
      var n := |log| - 1;
      AllOldMeans(log[..n], now, span);
      assert forall i | 0 <= i < n :: log[..n][i] == log[i];
    }
  }

  /** Everything before k is too old at `now`, everything from k on is recent. */
  ghost predicate Cut<T>(log: seq<Stamped<T>>, now: real, span: real, k: nat) {
    && k <= |log|
    && (forall i | 0 <= i < k :: now - log[i].at > span)
    && (forall i | k <= i < |log| :: now - log[i].at <= span)
  }

  lemma {:induction false} WithinIsSuffix<T>(log: seq<Stamped<T>>, now: real, span: real, k: nat)
    requires Cut(log, now, span, k)
    ensures Within(log, now, span) == log[k..]
  {
    if |log| > 0 {
      var n := |log| - 1;
      if k <= n {
        WithinIsSuffix(log[..n], now, span, k);
        assert log[k..] == log[..n][k..] + [log[n]];
      } else {
        WithinIsSuffix(log[..n], now, span, n);
        assert log[..n][n..] == [];
      }
    }
  }

  /** An ordered log has a cut. */
  lemma {:induction false} Boundary<T>(log: seq<Stamped<T>>, now: real, span: real) returns (k: nat)
    requires Ordered(log)
    ensures Cut(log, now, span, k)
  {
    if |log| == 0 || now - log[0].at <= span {
      k := 0;
      OrderedMeans(log);
    } else {
      OrderedMeans(log);
      OrderedMeans(log[1..]);
      var rest := Boundary(log[1..], now, span);
      k := rest + 1;
      assert forall i | 0 < i < |log| :: log[i] == log[1..][i - 1];
    }
  }

  /** The deque is the end of the log, and what it no longer holds is too old to matter. */
  ghost predicate Holds<T>(deque: seq<Stamped<T>>, log: seq<Stamped<T>>, now: real, span: real) {
    && |deque| <= |log| && deque == log[|log| - |deque|..]
    && AllOld(log[..|log| - |deque|], now, span)
  }

  lemma {:induction false} HoldsWithin<T>(log: seq<Stamped<T>>, now: real, span: real)
    requires Ordered(log)
    ensures Holds(Within(log, now, span), log, now, span)
  {
    var k := Boundary(log, now, span);
    WithinIsSuffix(log, now, span, k);
    AllOldMeans(log[..k], now, span);
  }

  lemma CutAfterHeld<T>(log: seq<Stamped<T>>, now: real, span: real, dropped: nat, k: nat)
    requires dropped <= |log| && AllOld(log[..dropped], now, span)
    requires Cut(log, now, span, k)
    ensures dropped <= k
  {
  }

  /** A deque that starts with a recent entry starts where the recent entries start. */
  lemma HeldFromCut<T>(deque: seq<Stamped<T>>, log: seq<Stamped<T>>, now: real, span: real, k: nat)
    requires Holds(deque, log, now, span) && Cut(log, now, span, k)
    requires |deque| > 0 ==> now - deque[0].at <= span
    ensures |log| - |deque| == k
  {
    CutAfterHeld(log, now, span, |log| - |deque|, k);
    assert |deque| > 0 ==> deque[0] == log[|log| - |deque|];
  }

  /** Dropping from the front until the first recent entry leaves exactly the recent entries. */
  lemma PrunedIsWithin<T>(deque: seq<Stamped<T>>, log: seq<Stamped<T>>, now: real, span: real)
    requires Ordered(log) && Holds(deque, log, now, span)
    requires |deque| > 0 ==> now - deque[0].at <= span
    ensures deque == Within(log, now, span)
  {
    var k := Boundary(log, now, span);
    HeldFromCut(deque, log, now, span, k);
    WithinIsSuffix(log, now, span, k);
  }

  lemma HoldsLater<T>(deque: seq<Stamped<T>>, log: seq<Stamped<T>>, before: real, now: real, span: real)
    requires Holds(deque, log, before, span) && before <= now
    ensures Holds(deque, log, now, span)
  {
    AllOldMeans(log[..|log| - |deque|], before, span);
    AllOldMeans(log[..|log| - |deque|], now, span);
  }

  lemma HoldsDropped<T>(deque: seq<Stamped<T>>, log: seq<Stamped<T>>, now: real, span: real)
    requires Holds(deque, log, now, span) && |deque| > 0 && now - deque[0].at > span
    ensures Holds(deque[1..], log, now, span)
  {
    var d := |log| - |deque|;
    assert log[..d + 1][..d] == log[..d];
  }

  lemma HoldsAppended<T>(deque: seq<Stamped<T>>, log: seq<Stamped<T>>, now: real, span: real, x: Stamped<T>)
    requires Holds(deque, log, now, span)
    ensures Holds(deque + [x], log + [x], now, span)
  {
    var d := |log| - |deque|;
    assert (log + [x])[..d] == log[..d];
  }

  /** The time of the newest entry. */
  function LastAt<T>(log: seq<Stamped<T>>): real {
    if |log| == 0 then 0.0 else log[|log| - 1].at
  }

  /** A log in time order up to `clock`, and the deque that was trimmed as it grew. */
  ghost predicate Kept<T>(deque: seq<Stamped<T>>, log: seq<Stamped<T>>, clock: real, span: real) {
    Ordered(log) && UpTo(log, clock) && Holds(deque, log, clock, span)
  }

  lemma KeptLater<T>(deque: seq<Stamped<T>>, log: seq<Stamped<T>>, clock: real, now: real, span: real)
    requires Kept(deque, log, clock, span) && clock <= now
    ensures Kept(deque, log, now, span)
  {
    HoldsLater(deque, log, clock, now, span);
  }

  /** After a trim. */
  lemma KeptTrimmed<T>(log: seq<Stamped<T>>, clock: real, span: real)
    requires Ordered(log) && UpTo(log, clock)
    ensures Kept(Within(log, clock, span), log, clock, span)
  {
    HoldsWithin(log, clock, span);
  }

  /** After one more entry, stamped with the time it arrives. */
  lemma {:induction false} KeptPushed<T>(
    deque: seq<Stamped<T>>, log: seq<Stamped<T>>, clock: real, span: real, x: Stamped<T>)
    requires Kept(deque, log, clock, span) && clock <= x.at
    ensures Kept(deque + [x], log + [x], x.at, span)
  {
    HoldsLater(deque, log, clock, x.at, span);
    HoldsAppended(deque, log, x.at, span, x);
    assert (log + [x])[..|log|] == log;
  }

  /** The same for a deque that is only trimmed when something arrives. */
  lemma KeptArrived<T>(deque: seq<Stamped<T>>, log: seq<Stamped<T>>, span: real, x: Stamped<T>)
    requires Kept(deque, log, LastAt(log), span) && Ordered(log + [x])
    ensures Kept(deque + [x], log + [x], x.at, span)
  {
    if |log| > 0 {
      KeptPushed(deque, log, LastAt(log), span, x);
    }
  }

  /** Trims a deque that still holds all that is recent; it then is all that is recent. */
  method Trim<T>(deque: seq<Stamped<T>>, now: real, span: real, ghost log: seq<Stamped<T>>)
    returns (kept: seq<Stamped<T>>)
    ensures Kept(deque, log, now, span) ==>
      kept == Within(log, now, span) && Kept(kept, log, now, span)
  {
    kept := deque;
    while |kept| > 0 && now - kept[0].at > span
      invariant Holds(deque, log, now, span) ==> Holds(kept, log, now, span)
      decreases |kept|
    {
      if Holds(kept, log, now, span) {
        HoldsDropped(kept, log, now, span);
      }
      kept := kept[1..];
    }
    if Kept(deque, log, now, span) {
      PrunedIsWithin(kept, log, now, span);
      KeptTrimmed(log, now, span);
    }
  }
}
