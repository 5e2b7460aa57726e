/** The per-client token bucket of the dashboard's rate limiter. */
module TokenBuckets {
  import opened Common

  /** Tokens per second, and the most a bucket holds. */
  datatype Limit = Limit(rate: real, capacity: real)

  datatype Bucket = Bucket(tokens: real, last: real)

  predicate Sensible(l: Limit) {
    l.rate >= 0.0 && l.capacity >= 0.0
  }

  function Earned(l: Limit, seconds: real): real {
    seconds * l.rate
  }

  function Refilled(l: Limit, b: Bucket, now: real): real {
    Min(l.capacity, b.tokens + Earned(l, now - b.last))
  }

  predicate Admits(l: Limit, b: Bucket, now: real) {
    Refilled(l, b, now) >= 1.0
  }

  function After(l: Limit, b: Bucket, now: real): Bucket {
    Bucket(Refilled(l, b, now) - (if Admits(l, b, now) then 1.0 else 0.0), now)
  }

  /** The bucket after a call at each of the times. */
  function AfterAll(l: Limit, b: Bucket, times: seq<real>): Bucket {
    if |times| == 0 then b
    else After(l, AfterAll(l, b, times[..|times| - 1]), times[|times| - 1])
  }

  /** How many of the calls are let through. */
  function Admitted(l: Limit, b: Bucket, times: seq<real>): (n: nat)
    ensures n <= |times|
    decreases |times|
  {
    if |times| == 0 then 0
    else (if Admits(l, b, times[0]) then 1 else 0) + Admitted(l, After(l, b, times[0]), times[1..])
  }

  /** The clock never goes back. */
  ghost predicate Ordered(start: real, times: seq<real>) {
    && (|times| > 0 ==> start <= times[0])
    && (forall i, j | 0 <= i < j < |times| :: times[i] <= times[j])
  }

  lemma EarnedAdds(l: Limit, a: real, b: real, c: real)
    requires Sensible(l) && a <= b
    ensures Earned(l, c - a) == Earned(l, b - a) + Earned(l, c - b)
    ensures Earned(l, b - a) >= 0.0 && Earned(l, 0.0) == 0.0
  {
  }

  lemma {:induction false} AfterAllHolds(l: Limit, b: Bucket, times: seq<real>)
    requires Sensible(l) && 0.0 <= b.tokens && Ordered(b.last, times)
    ensures var end := AfterAll(l, b, times);
      0.0 <= end.tokens && end.last == if |times| == 0 then b.last else times[|times| - 1]
  {
    if |times| > 0 {
      var n := |times| - 1;
      AfterAllHolds(l, b, times[..n]);
      var before := AfterAll(l, b, times[..n]);
      EarnedAdds(l, before.last, times[n], times[n]);
    }
  }

  /** From one bucket on: what is let through is paid for by the first refill and the time since. */
  lemma {:induction false} AdmittedFrom(l: Limit, b: Bucket, times: seq<real>)
    requires Sensible(l) && 0.0 <= b.tokens && |times| > 0 && Ordered(b.last, times)
    ensures Admitted(l, b, times) as real <= Refilled(l, b, times[0]) + Earned(l, times[|times| - 1] - times[0])
    decreases |times|
  {
    var first, last := times[0], times[|times| - 1];
    var b' := After(l, b, first);
    EarnedAdds(l, b.last, first, first);
    if |times| > 1 {
      assert times[1..][|times| - 2] == last;
      AdmittedFrom(l, b', times[1..]);
      EarnedAdds(l, first, times[1], last);
    } else {
      EarnedAdds(l, first, first, first);
    }
  }

  lemma {:induction false} AfterAllSplit(l: Limit, b: Bucket, times: seq<real>, x: real)
    ensures AfterAll(l, b, times + [x]) == After(l, AfterAll(l, b, times), x)
  {
  }

  /**
   In every run, between any two calls i and j, at most one full bucket plus what accrued in the
   meantime is let through.
   */
  lemma BurstBound(l: Limit, start: real, times: seq<real>, i: nat, j: nat)
    requires Sensible(l) && Ordered(start, times) && i <= j < |times|
    ensures var b := AfterAll(l, Bucket(l.capacity, start), times[..i]);
      Admitted(l, b, times[i..j + 1]) as real <= l.capacity + Earned(l, times[j] - times[i])
  {
    AfterAllHolds(l, Bucket(l.capacity, start), times[..i]);
    AdmittedFrom(l, AfterAll(l, Bucket(l.capacity, start), times[..i]), times[i..j + 1]);
  }

  /** The bound is met at the start: a burst of n calls at one instant gets the whole tokens of a full bucket. */
  lemma {:induction false} BurstReached(l: Limit, tokens: real, now: real, n: nat)
    requires Sensible(l) && 0.0 <= tokens <= l.capacity
    ensures Admitted(l, Bucket(tokens, now), seq(n, _ => now)) == if n < tokens.Floor then n else tokens.Floor
    decreases n
  {
    if n > 0 {
      EarnedAdds(l, now, now, now);
      var times := seq(n, _ => now);
      assert times[1..] == seq(n - 1, _ => now);
      if tokens >= 1.0 {
        assert (tokens - 1.0).Floor == tokens.Floor - 1;
        BurstReached(l, tokens - 1.0, now, n - 1);
      } else {
        BurstReached(l, tokens, now, n - 1);
      }
    }
  }

  /** Each call comes at least the time of one token after the one before. */
  ghost predicate Spaced(l: Limit, times: seq<real>) {
    forall k | 0 < k < |times| :: Earned(l, times[k] - times[k - 1]) >= 1.0
  }

  /** A caller who waits for a token each time is never refused exactly when a bucket can hold one. */
  lemma PatientNeverRefusedExactlyWhen(l: Limit, start: real, times: seq<real>)
    requires Sensible(l) && Ordered(start, times) && Spaced(l, times) && |times| > 0
    ensures Admitted(l, Bucket(l.capacity, start), times) == |times| <==> l.capacity >= 1.0
  {
    EarnedAdds(l, start, times[0], times[0]);
    if l.capacity >= 1.0 {
      PatientFrom(l, Bucket(l.capacity, start), times);
    }
  }

  lemma {:induction false} PatientFrom(l: Limit, b: Bucket, times: seq<real>)
    requires l.capacity >= 1.0 && 0.0 <= b.tokens && Spaced(l, times)
    requires |times| > 0 ==> Admits(l, b, times[0])
    ensures Admitted(l, b, times) == |times|
    decreases |times|
  {
    if |times| > 0 {
      var b' := After(l, b, times[0]);
      var rest := times[1..];
      assert forall k | 0 < k < |rest| :: rest[k] == times[k + 1] && rest[k - 1] == times[k];
      if |times| > 1 {
        assert Earned(l, times[1] - times[0]) >= 1.0;
      }
      PatientFrom(l, b', rest);
    }
  }

  class TokenBucket {
    const limit: Limit
    var tokens: real
    var last: real
    ghost const created: real
    ghost var calls: seq<real>

    ghost predicate Valid()
      reads this
    {
      && Bucket(tokens, last) == AfterAll(limit, Bucket(limit.capacity, created), calls)
      && Ordered(created, calls)
      && last == if |calls| == 0 then created else calls[|calls| - 1]
    }

    constructor (rate: real, capacity: real, now: real)
      ensures Valid() && limit == Limit(rate, capacity) && calls == [] && last == now
    {
      limit := Limit(rate, capacity);
      tokens, last := capacity, now;
      created, calls := now, [];
    }

    method Allow(now: real) returns (ok: bool)
      requires Valid() && now >= last
      modifies this
      ensures Valid() && calls == old(calls) + [now]
      ensures ok == Admits(limit, Bucket(old(tokens), old(last)), now)
      ensures Bucket(tokens, last) == After(limit, Bucket(old(tokens), old(last)), now)
    {
      AfterAllSplit(limit, Bucket(limit.capacity, created), calls, now);
      var elapsed := now - last;
      last := now;
      tokens := Min(limit.capacity, tokens + Earned(limit, elapsed));
      calls := calls + [now];
      if tokens >= 1.0 {
        tokens := tokens - 1.0;
        return true;
      }
      return false;
    }
  }
}
