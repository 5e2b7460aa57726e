/** The in-memory order counter kept per (strategy, asset, market window). */
module Windows {
  import opened Ledger

  const MAX_STALE_KEYS := 500

  /** The hour since the epoch, and the minute within it the window starts at. */
  datatype Window = Window(hour: nat, minute: nat)

  datatype Key = Key(pair: Pair, window: Window)

  type Counts = map<Key, nat>

  /** Minutes per window; assets without an entry fall back to five. */
  function Interval(asset: string): (minutes: nat)
    ensures minutes == 5 || minutes == 15
  {
    if asset == "SOL" then 15 else 5
  }

  /** The key at `now`, in whole seconds since the epoch. */
  function WindowKey(asset: string, now: nat): (w: Window)
    ensures w.minute < 60
  {
    var minute := now % 3600 / 60;
    Window(now / 3600, minute / Interval(asset) * Interval(asset))
  }

  /** The second a window starts at. */
  function Start(w: Window): nat {
    w.hour * 3600 + w.minute * 60
  }

  /** The market series' own window start: the epoch cut into equal intervals. */
  function MarketWindow(asset: string, now: nat): nat {
    now / (Interval(asset) * 60) * (Interval(asset) * 60)
  }

  /** Cutting each hour by minutes is the same as cutting the epoch by seconds. */
  lemma KeyStartsMarketWindow(asset: string, now: nat)
    ensures Start(WindowKey(asset, now)) == MarketWindow(asset, now)
  {
    var hour, rest := now / 3600, now % 3600;
    if asset == "SOL" {
      assert now / 900 == hour * 4 + rest / 900;
      assert rest / 60 / 15 == rest / 900;
    } else {
      assert now / 300 == hour * 12 + rest / 300;
      assert rest / 60 / 5 == rest / 300;
    }
  }

  /** Two moments share a tracker key exactly when they share a market window. */
  lemma KeysMatchMarketWindows(asset: string, t1: nat, t2: nat)
    ensures WindowKey(asset, t1) == WindowKey(asset, t2)
       <==> MarketWindow(asset, t1) == MarketWindow(asset, t2)
  {
    KeyStartsMarketWindow(asset, t1);
    KeyStartsMarketWindow(asset, t2);
    if MarketWindow(asset, t1) == MarketWindow(asset, t2) {
      StartInjective(WindowKey(asset, t1), WindowKey(asset, t2));
    }
  }

  /** The market window of a moment holds it; SOL is traded in quarters of an hour, the others in five minutes. */
  lemma WindowHoldsNow(asset: string, now: nat)
    ensures var start, length := Start(WindowKey(asset, now)), if asset == "SOL" then 900 else 300;
      start <= now < start + length && start % length == 0
  {
    KeyStartsMarketWindow(asset, now);
  }

  lemma StartInjective(a: Window, b: Window)
    requires a.minute < 60 && b.minute < 60 && Start(a) == Start(b)
    ensures a == b
  {
  }

  function Lookup(counts: Counts, p: Pair, w: Window): nat {
    if Key(p, w) in counts then counts[Key(p, w)] else 0
  }

  function CurrentWindows(now: nat): set<Window> {
    {WindowKey("BTC", now), WindowKey("ETH", now), WindowKey("SOL", now)}
  }

  function Cleaned(counts: Counts, now: nat): Counts {
    if |counts| <= MAX_STALE_KEYS then counts
    else map k | k in counts && k.window in CurrentWindows(now) :: counts[k]
  }

  function Recorded(counts: Counts, p: Pair, now: nat): Counts {
    var w := WindowKey(p.asset, now);
    Cleaned(counts[Key(p, w) := Lookup(counts, p, w) + 1], now)
  }

  /** Nothing has been counted for a window that has yet to start. */
  ghost predicate NothingAhead(counts: Counts, now: nat) {
    forall k | k in counts :: Start(k.window) <= now
  }

  /** A window that has started and is current later is current now. */
  lemma StillCurrent(asset: string, now: nat, later: nat)
    requires now <= later && Start(WindowKey(asset, later)) <= now
    ensures WindowKey(asset, later) == WindowKey(asset, now)
    ensures WindowKey(asset, now) in CurrentWindows(now)
  {
  }

  /** Forgetting stale keys changes no answer the tracker will ever give again. */
  lemma CleanupUnseen(counts: Counts, now: nat, later: nat, p: Pair)
    requires NothingAhead(counts, now) && now <= later
    ensures Lookup(Cleaned(counts, now), p, WindowKey(p.asset, later))
         == Lookup(counts, p, WindowKey(p.asset, later))
    ensures NothingAhead(Cleaned(counts, now), later)
  {
    var k := Key(p, WindowKey(p.asset, later));
    if k in counts {
      StillCurrent(p.asset, now, later);
    }
  }

  /** Recording adds one to the pair's current window and to no other count asked for later. */
  lemma RecordCounts(counts: Counts, now: nat, later: nat, p: Pair, q: Pair)
    requires NothingAhead(counts, now) && now <= later
    ensures Lookup(Recorded(counts, p, now), q, WindowKey(q.asset, later))
         == Lookup(counts, q, WindowKey(q.asset, later))
            + (if q == p && WindowKey(p.asset, later) == WindowKey(p.asset, now) then 1 else 0)
    ensures NothingAhead(Recorded(counts, p, now), later)
  {
    var w := WindowKey(p.asset, now);
    var more := counts[Key(p, w) := Lookup(counts, p, w) + 1];
    KeyStartsMarketWindow(p.asset, now);
    assert NothingAhead(more, now);
    CleanupUnseen(more, now, later, q);
  }

  class WindowTracker {
    var counts: Counts

    constructor ()
      ensures counts == map[]
    {
      counts := map[];
    }

    method CanPlace(p: Pair, maxOrders: int, now: nat) returns (ok: bool)
      ensures ok <==> Lookup(counts, p, WindowKey(p.asset, now)) < maxOrders
    {
      var key := Key(p, WindowKey(p.asset, now));
      var count := if key in counts then counts[key] else 0;
      ok := count < maxOrders;
    }

    /** Deletes the stale keys one by one once there are too many. */
    method Cleanup(now: nat)
      modifies this
      ensures counts == Cleaned(old(counts), now)
      ensures forall k :: k in counts <==>
        k in old(counts) && (|old(counts)| <= 500 || exists asset :: k.window == WindowKey(asset, now))
      ensures forall k | k in counts :: counts[k] == old(counts)[k]
    {
      CurrentIsAny(now);
      if |counts| <= MAX_STALE_KEYS {
        return;
      }
      var current := CurrentWindows(now);
      var stale := set k | k in counts && k.window !in current;
      while stale != {}
        invariant stale == set k | k in counts && k.window !in current
        invariant counts == map k | k in old(counts) && (k.window in current || k in stale) :: old(counts)[k]
        decreases |stale|
      {
        var k :| k in stale;
        counts := counts - {k};
        stale := stale - {k};
      }
    }

    /** Counts the order and returns the new count of the current window. */
    method Record(p: Pair, now: nat) returns (n: nat)
      modifies this
      ensures counts == Recorded(old(counts), p, now)
      ensures n == Lookup(old(counts), p, WindowKey(p.asset, now)) + 1
      ensures n == Lookup(counts, p, WindowKey(p.asset, now))
    {
      var key := Key(p, WindowKey(p.asset, now));
      var count := if key in counts then counts[key] else 0;
      counts := counts[key := count + 1];
      StillKept(p, now);
      Cleanup(now);
      n := counts[key];
    }

    /** Between them the three traded assets have every window there is at one moment. */
    lemma CurrentIsAny(now: nat)
      ensures forall w :: w in CurrentWindows(now) <==> exists asset :: w == WindowKey(asset, now)
    {
      forall w | exists asset :: w == WindowKey(asset, now) ensures w in CurrentWindows(now) {
        var asset :| w == WindowKey(asset, now);
        assert Interval(asset) == Interval("SOL") || Interval(asset) == Interval("BTC");
      }
    }

    lemma StillKept(p: Pair, now: nat)
      ensures WindowKey(p.asset, now) in CurrentWindows(now)
    {
    }
  }
}
