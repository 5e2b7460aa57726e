/** The sliding log that limits how many notifications are sent in a minute. */
module SlidingLog {
  import opened Recency

  const WINDOW: real := 60.0

  /** When a send was let through; nothing else is kept of it. */
  type Send = Stamped<()>

  function LastMinute(log: seq<Send>, now: real): seq<Send> {
    Within(log, now, WINDOW)
  }

  /** Any limit + 1 sends in a row take more than a minute. */
  ghost predicate Thin(log: seq<Send>, limit: nat) {
    forall i | 0 <= i && i + limit < |log| :: log[i + limit].at - log[i].at > 60.0
  }

  lemma LongAgo(log: seq<Send>, limit: nat, now: real, k: nat)
    requires Thin(log, limit) && k + limit < |log| && log[k + limit].at <= now
    ensures now - log[k].at > WINDOW
  {
  }

  /** One more send keeps the log thin exactly when there is room in the last minute. */
  lemma AppendThinExactlyWhen(log: seq<Send>, limit: nat, now: real)
    requires Ordered(log) && Thin(log, limit)
    ensures Thin(log + [Stamped(now, ())], limit) <==> |LastMinute(log, now)| < limit
  {
    var k := Boundary(log, now, WINDOW);
    WithinIsSuffix(log, now, WINDOW, k);
    if |log| - k < limit {
      StaysThin(log, limit, now, k);
    } else {
      TooThick(log, limit, now, k);
    }
  }

  lemma StaysThin(log: seq<Send>, limit: nat, now: real, k: nat)
    requires Thin(log, limit) && Cut(log, now, WINDOW, k) && |log| - k < limit
    ensures Thin(log + [Stamped(now, ())], limit)
  {
    assert limit <= |log| ==> now - log[|log| - limit].at > WINDOW;
  }

  lemma TooThick(log: seq<Send>, limit: nat, now: real, k: nat)
    requires Cut(log, now, WINDOW, k) && |log| - k >= limit
    ensures !Thin(log + [Stamped(now, ())], limit)
  {
    var log', i := log + [Stamped(now, ())], |log| - limit;
    assert log'[i + limit].at - log'[i].at <= WINDOW;
  }

  /** In a thin log no minute holds more than the limit. */
  lemma WindowHoldsAtMost(log: seq<Send>, limit: nat, now: real)
    requires Ordered(log) && Thin(log, limit) && UpTo(log, now)
    ensures |LastMinute(log, now)| <= limit
  {
    var k := Boundary(log, now, WINDOW);
    WithinIsSuffix(log, now, WINDOW, k);
    if k + limit < |log| {
      OrderedMeans(log);
      LongAgo(log, limit, now, k);
    }
  }

  class TelegramNotifier {
    const enabled: bool
    const limit: nat
    var timestamps: seq<Send>
    /** Every send that was let through, and the time of the last attempt. */
    ghost var log: seq<Send>
    ghost var clock: real

    ghost predicate Valid()
      reads this
    {
      Kept(timestamps, log, clock, WINDOW) && Thin(log, limit)
    }

    constructor (enabled: bool, limit: nat, now: real)
      ensures Valid() && log == [] && this.enabled == enabled && this.limit == limit && clock == now
    {
      this.enabled, this.limit := enabled, limit;
      timestamps := [];
      log, clock := [], now;
    }

    /**
     `delivered` is what the remote server answers.  The send is let through exactly when fewer
     than the limit of all earlier sends lie in the last minute; and when it is refused there are
     exactly that many, never more.
     */
    method Send(now: real, delivered: bool) returns (sent: bool)
      requires Valid() && now >= clock
      modifies this
      ensures Valid()
      ensures log ==
        if enabled && |LastMinute(old(log), now)| < limit then old(log) + [Stamped(now, ())] else old(log)
      ensures sent <==> log != old(log) && delivered
      ensures enabled && log == old(log) ==> |LastMinute(log, now)| == limit
      ensures clock == if enabled then now else old(clock)
    {
      if !enabled {
        return false;
      }
      KeptLater(timestamps, log, clock, now, WINDOW);
      WindowHoldsAtMost(log, limit, now);
      timestamps := Trim(timestamps, now, WINDOW, log);
      clock := now;
      if |timestamps| >= limit {
        return false;
      }
      AppendThinExactlyWhen(log, limit, now);
      KeptPushed(timestamps, log, now, WINDOW, Stamped(now, ()));
      timestamps := timestamps + [Stamped(now, ())];
      log := log + [Stamped(now, ())];
      return delivered;
    }
  }
}
