/** The two-minute windows of the market feed, one object per asset. */
module FeedWindows {
  import opened Common
  import opened Recency

  const WINDOW_SECS: real := 120.0

  datatype Trade = Trade(price: real, quantity: real, sellerMade: bool)

  datatype Liquidation = Liquidation(side: string, price: real, quantity: real)

  function Dollars(price: real, quantity: real): real {
    price * quantity
  }

  /** Dollars traded, counted up when the buyer took the initiative and down when the seller did. */
  function Signed(t: Trade): real {
    if t.sellerMade then -Dollars(t.price, t.quantity) else Dollars(t.price, t.quantity)
  }

  // ---- what the two trade windows record ----

  function SignedLog(log: seq<Stamped<Trade>>): (r: seq<Stamped<real>>)
    ensures |r| == |log|
  {
    if |log| == 0 then []
    else
      var last := log[|log| - 1];
      SignedLog(log[..|log| - 1]) + [Stamped(last.at, Signed(last.value))]
  }

  function PriceLog(log: seq<Stamped<Trade>>): (r: seq<Stamped<real>>)
    ensures |r| == |log|
  {
    if |log| == 0 then []
    else
      var last := log[|log| - 1];
      PriceLog(log[..|log| - 1]) + [Stamped(last.at, last.value.price)]
  }

  lemma LogsAppend(log: seq<Stamped<Trade>>, e: Stamped<Trade>)
    ensures SignedLog(log + [e]) == SignedLog(log) + [Stamped(e.at, Signed(e.value))]
    ensures PriceLog(log + [e]) == PriceLog(log) + [Stamped(e.at, e.value.price)]
  {
  }

  function Total(window: seq<Stamped<real>>): real {
    if |window| == 0 then 0.0 else Total(window[..|window| - 1]) + window[|window| - 1].value
  }

  // ---- the figures, over the whole history ----

  /** The signed volume of the trades no older than two minutes. */
  function NetVolume(log: seq<Stamped<Trade>>, now: real): real {
    if |log| == 0 then 0.0
    else
      var last := log[|log| - 1];
      NetVolume(log[..|log| - 1], now) + if now - last.at <= WINDOW_SECS then Signed(last.value) else 0.0
  }

  /** The dollars liquidated on one side no longer than two minutes ago. */
  function Liquidated(log: seq<Stamped<Liquidation>>, side: string, now: real): real {
    if |log| == 0 then 0.0
    else
      var last := log[|log| - 1];
      Liquidated(log[..|log| - 1], side, now)
      + if now - last.at <= WINDOW_SECS && last.value.side == side
        then Dollars(last.value.price, last.value.quantity) else 0.0
  }

  function SideTotal(window: seq<Stamped<Liquidation>>, side: string): real {
    if |window| == 0 then 0.0
    else
      var last := window[|window| - 1];
      SideTotal(window[..|window| - 1], side)
      + if last.value.side == side then Dollars(last.value.price, last.value.quantity) else 0.0
  }

  /** What a trade adds to the signed volume: its dollars for a buyer's, less its dollars for a seller's. */
  predicate Adds(t: Trade, more: real) {
    more == if t.sellerMade then -(t.price * t.quantity) else t.price * t.quantity
  }

  /** The relative change leads from the old price to the new one. */
  predicate Leads(oldest: real, change: real, price: real) {
    oldest + oldest * change == price
  }

  /** A trade counts for as long as it is no older than two minutes: up for a buyer's, down for a seller's. */
  lemma NetVolumeOf(log: seq<Stamped<Trade>>, e: Stamped<Trade>, now: real)
    ensures if now - e.at > 120.0 then NetVolume(log + [e], now) == NetVolume(log, now)
            else Adds(e.value, NetVolume(log + [e], now) - NetVolume(log, now))
    ensures NetVolume([], now) == 0.0
  {
    assert (log + [e])[..|log|] == log;
  }

  lemma LiquidatedOf(log: seq<Stamped<Liquidation>>, e: Stamped<Liquidation>, side: string, now: real)
    ensures Liquidated(log + [e], side, now) - Liquidated(log, side, now)
         == if now - e.at > 120.0 || e.value.side != side then 0.0 else e.value.price * e.value.quantity
    ensures Liquidated([], side, now) == 0.0
  {
    assert (log + [e])[..|log|] == log;
  }

  /** Where buyers took the initiative in every recent trade the volume is theirs, and the other way round. */
  lemma {:induction false} OneSidedVolume(log: seq<Stamped<Trade>>, now: real, seller: bool)
    requires forall e | e in log && now - e.at <= 120.0 :: e.value.sellerMade == seller
    requires forall e | e in log :: e.value.price > 0.0 && e.value.quantity > 0.0
    ensures if seller then NetVolume(log, now) <= 0.0 else NetVolume(log, now) >= 0.0
    ensures (exists e :: e in log && now - e.at <= 120.0) ==> NetVolume(log, now) != 0.0
  {
    if |log| > 0 {
      var n := |log| - 1;
      OneSidedVolume(log[..n], now, seller);
      NetVolumeOf(log[..n], log[n], now);
      assert log == log[..n] + [log[n]];
      ProductSign(log[n].value.price, log[n].value.quantity);
    }
  }

  lemma TotalAppend(window: seq<Stamped<real>>, x: Stamped<real>)
    ensures Total(window + [x]) == Total(window) + x.value && Total(window + []) == Total(window)
  {
    assert (window + [x])[..|window|] == window && window + [] == window;
  }

  lemma SideTotalAppend(window: seq<Stamped<Liquidation>>, x: Stamped<Liquidation>, side: string)
    ensures SideTotal(window + [x], side) == SideTotal(window, side) + SideTotal([x], side)
    ensures SideTotal(window + [], side) == SideTotal(window, side)
  {
    assert (window + [x])[..|window|] == window && window + [] == window;
    assert [x][..0] == [];
  }

  lemma {:induction false} WindowTotal(log: seq<Stamped<Trade>>, now: real)
    ensures Total(Within(SignedLog(log), now, WINDOW_SECS)) == NetVolume(log, now)
  {
    if |log| > 0 {
      var n := |log| - 1;
      var signed := SignedLog(log);
      WindowTotal(log[..n], now);
      assert signed[..n] == SignedLog(log[..n]);
      TotalAppend(Within(signed[..n], now, WINDOW_SECS), signed[n]);
    }
  }

  lemma {:induction false} WindowSideTotal(log: seq<Stamped<Liquidation>>, side: string, now: real)
    ensures SideTotal(Within(log, now, WINDOW_SECS), side) == Liquidated(log, side, now)
  {
    if |log| > 0 {
      var n := |log| - 1;
      WindowSideTotal(log[..n], side, now);
      SideTotalAppend(Within(log[..n], now, WINDOW_SECS), log[n], side);
    }
  }

  /** The oldest recent trade: every earlier one is over two minutes old, it and every later one is not. */
  ghost predicate OldestRecent(log: seq<Stamped<Trade>>, now: real, k: nat) {
    k < |log| && Cut(log, now, WINDOW_SECS, k)
  }

  lemma {:induction false} PriceLogAt(log: seq<Stamped<Trade>>, i: nat)
    requires i < |log|
    ensures PriceLog(log)[i] == Stamped(log[i].at, log[i].value.price)
  {
    var n := |log| - 1;
    if i < n {
      PriceLogAt(log[..n], i);
    }
  }

  lemma OldestPrice(log: seq<Stamped<Trade>>, now: real)
    requires |log| > 0 && log[|log| - 1].at == now && Ordered(log)
    ensures var window := Within(PriceLog(log), now, WINDOW_SECS);
      |window| > 0 && exists k: nat :: OldestRecent(log, now, k) && window[0].value == log[k].value.price
  {
    var prices := PriceLog(log);
    LogsOrdered(log);
    forall i: nat | i < |log| ensures prices[i] == Stamped(log[i].at, log[i].value.price) {
      PriceLogAt(log, i);
    }
    var k := Boundary(prices, now, WINDOW_SECS);
    WithinIsSuffix(prices, now, WINDOW_SECS, k);
    assert OldestRecent(log, now, k);
  }

  ghost predicate TradesKept(
    trade: seq<Stamped<real>>, price: seq<Stamped<real>>, log: seq<Stamped<Trade>>, clock: real)
  {
    && Kept(trade, SignedLog(log), clock, WINDOW_SECS)
    && Kept(price, PriceLog(log), clock, WINDOW_SECS)
  }

  lemma OrderedPrefix<T>(log: seq<Stamped<T>>, x: Stamped<T>)
    requires Ordered(log + [x])
    ensures Ordered(log)
  {
  }

  /** What is recorded about trades in order is in order. */
  lemma {:induction false} LogsOrdered(log: seq<Stamped<Trade>>)
    ensures Ordered(SignedLog(log)) == Ordered(log) == Ordered(PriceLog(log))
    ensures LastAt(SignedLog(log)) == LastAt(log) == LastAt(PriceLog(log))
  {
    if |log| > 0 {
      var n := |log| - 1;
      LogsOrdered(log[..n]);
      assert log == log[..n] + [log[n]];
      LogsAppend(log[..n], log[n]);
      OrderedNext(log[..n], log[n]);
      OrderedNext(SignedLog(log[..n]), SignedLog(log)[n]);
      OrderedNext(PriceLog(log[..n]), PriceLog(log)[n]);
    }
  }

  lemma OrderedNext<T>(log: seq<Stamped<T>>, x: Stamped<T>)
    ensures Ordered(log + [x]) <==> Ordered(log) && (|log| > 0 ==> LastAt(log) <= x.at)
  {
  }

  /** Both windows after one more trade. */
  lemma TradePushed(trade: seq<Stamped<real>>, price: seq<Stamped<real>>, log: seq<Stamped<Trade>>, e: Stamped<Trade>)
    requires Ordered(log) ==> TradesKept(trade, price, log, LastAt(log))
    requires Ordered(log + [e])
    ensures TradesKept(trade + [Stamped(e.at, Signed(e.value))], price + [Stamped(e.at, e.value.price)],
                       log + [e], e.at)
  {
    OrderedPrefix(log, e);
    LogsAppend(log, e);
    LogsOrdered(log);
    LogsOrdered(log + [e]);
    KeptArrived(trade, SignedLog(log), WINDOW_SECS, Stamped(e.at, Signed(e.value)));
    KeptArrived(price, PriceLog(log), WINDOW_SECS, Stamped(e.at, e.value.price));
  }

  function Entry(e: Stamped<Trade>): Stamped<real> {
    Stamped(e.at, Signed(e.value))
  }

  lemma TradeArrived(
    trade: seq<Stamped<real>>, price: seq<Stamped<real>>, log: seq<Stamped<Trade>>, e: Stamped<Trade>,
    volume: Stamped<real>, move: Stamped<real>)
    requires Ordered(log) ==> TradesKept(trade, price, log, LastAt(log))
    requires volume == Entry(e) && move == Stamped(e.at, e.value.price)
    ensures Ordered(log + [e]) ==> TradesKept(trade + [volume], price + [move], log + [e], e.at)
    ensures LastAt(log + [e]) == e.at
  {
    if Ordered(log + [e]) {
      TradePushed(trade, price, log, e);
    }
  }

  ghost predicate IsOldestPrice(log: seq<Stamped<Trade>>, now: real, price: real) {
    exists k: nat :: OldestRecent(log, now, k) && price == log[k].value.price
  }

  /** The relative move since the oldest price, kept as it was when that price is not positive. */
  function Change(price: real, oldest: real, before: real): real {
    if oldest > 0.0 then Relative(price, oldest) else before
  }

  function Relative(price: real, oldest: real): real
    requires oldest > 0.0
  {
    (price - oldest) / oldest
  }

  lemma RelativeBack(price: real, oldest: real)
    requires oldest > 0.0
    ensures Leads(oldest, Relative(price, oldest), price)
  {
  }

  /** The figures read off the two windows, told from the whole history. */
  lemma TradeFigures(log: seq<Stamped<Trade>>, now: real)
    requires |log| > 0 && log[|log| - 1].at == now
    ensures Total(Within(SignedLog(log), now, WINDOW_SECS)) == NetVolume(log, now)
    ensures Ordered(log) ==>
      var window := Within(PriceLog(log), now, WINDOW_SECS);
      |window| > 0 && IsOldestPrice(log, now, window[0].value)
  {
    WindowTotal(log, now);
    if Ordered(log) {
      OldestPrice(log, now);
    }
  }

  class AssetFeed {
    var trade: seq<Stamped<real>>
    var price: seq<Stamped<real>>
    var liq: seq<Stamped<Liquidation>>
    var lastPrice: real
    var cvd2min: real
    var price2minAgo: real
    var vwapChange: real
    var liqLong2min: real
    var liqShort2min: real
    var lastUpdate: real
    /** Every event ever handled. */
    ghost var trades: seq<Stamped<Trade>>
    ghost var liqs: seq<Stamped<Liquidation>>

    ghost predicate TradesTracked()
      reads this`trade, this`price, this`trades
    {
      Ordered(trades) ==> TradesKept(trade, price, trades, LastAt(trades))
    }

    ghost predicate LiqsTracked()
      reads this`liq, this`liqs
    {
      Ordered(liqs) ==> Kept(liq, liqs, LastAt(liqs), WINDOW_SECS)
    }

    constructor ()
      ensures TradesTracked() && LiqsTracked() && trades == [] && liqs == []
    {
      trade, price, liq := [], [], [];
      lastPrice, cvd2min, price2minAgo, vwapChange := 0.0, 0.0, 0.0, 0.0;
      liqLong2min, liqShort2min, lastUpdate := 0.0, 0.0, 0.0;
      trades, liqs := [], [];
    }

    /** Appends to both windows and trims them. */
    method Arrive(volume: Stamped<real>, move: Stamped<real>, now: real, ghost log: seq<Stamped<Trade>>)
      requires Ordered(log) ==> TradesKept(trade + [volume], price + [move], log, now)
      modifies this`trade, this`price
      ensures Ordered(log) ==>
        && TradesKept(trade, price, log, now)
        && trade == Within(SignedLog(log), now, WINDOW_SECS) && price == Within(PriceLog(log), now, WINDOW_SECS)
    {
      trade := Trim(trade + [volume], now, WINDOW_SECS, SignedLog(log));
      price := Trim(price + [move], now, WINDOW_SECS, PriceLog(log));
    }

    method PushTrade(e: Stamped<Trade>)
      requires TradesTracked()
      modifies this`trade, this`price, this`trades
      ensures TradesTracked() && trades == old(trades) + [e]
      ensures Ordered(trades) ==> trade == Within(SignedLog(trades), e.at, WINDOW_SECS)
      ensures Ordered(trades) ==> price == Within(PriceLog(trades), e.at, WINDOW_SECS)
    {
      var volume, move := Entry(e), Stamped(e.at, e.value.price);
      TradeArrived(trade, price, trades, e, volume, move);
      Arrive(volume, move, e.at, trades + [e]);
      trades := trades + [e];
    }

    /**
     While the clock has not gone back between trades, the figures after one are those of the whole
     history: the signed volume of the last two minutes, and the oldest price in that span.
     */
    method HandleAggTrade(e: Stamped<Trade>)
      requires TradesTracked()
      modifies this`trade, this`price, this`lastPrice, this`cvd2min, this`price2minAgo, this`vwapChange,
        this`lastUpdate, this`trades
      ensures TradesTracked() && trades == old(trades) + [e]
      ensures lastPrice == e.value.price && lastUpdate == e.at
      ensures Ordered(trades) ==> cvd2min == NetVolume(trades, e.at)
      ensures Ordered(trades) ==> Adds(e.value, cvd2min - NetVolume(old(trades), e.at))
      ensures Ordered(trades) ==> IsOldestPrice(trades, e.at, price2minAgo)
      ensures Ordered(trades) ==> vwapChange == Change(e.value.price, price2minAgo, old(vwapChange))
      ensures Ordered(trades) && price2minAgo > 0.0 ==> Leads(price2minAgo, vwapChange, e.value.price)
      ensures Ordered(trades) && price2minAgo <= 0.0 ==> vwapChange == old(vwapChange)
    {
      PushTrade(e);
      NetVolumeOf(trades[..|trades| - 1], e, e.at);
      TradeFigures(trades, e.at);
      RefreshTrade(e);
      if price2minAgo > 0.0 {
        RelativeBack(e.value.price, price2minAgo);
      }
    }

    /** Recomputes the figures from the windows as they now are. */
    method RefreshTrade(e: Stamped<Trade>)
      modifies this`lastPrice, this`cvd2min, this`price2minAgo, this`vwapChange, this`lastUpdate
      ensures lastPrice == e.value.price && lastUpdate == e.at && cvd2min == Total(trade)
      ensures price2minAgo == if price != [] then price[0].value else old(price2minAgo)
      ensures vwapChange ==
        if price != [] then Change(e.value.price, price2minAgo, old(vwapChange)) else old(vwapChange)
    {
      lastPrice := e.value.price;
      cvd2min := Total(trade);
      if price != [] {
        var oldest := price[0].value;
        price2minAgo := oldest;
        if oldest > 0.0 {
          vwapChange := Relative(e.value.price, oldest);
        }
      }
      lastUpdate := e.at;
    }

    method PushLiq(e: Stamped<Liquidation>)
      requires LiqsTracked()
      modifies this`liq, this`liqs
      ensures LiqsTracked() && liqs == old(liqs) + [e]
      ensures Ordered(liqs) ==> liq == Within(liqs, e.at, WINDOW_SECS)
    {
      if Ordered(liqs + [e]) {
        OrderedPrefix(liqs, e);
        KeptArrived(liq, liqs, WINDOW_SECS, e);
      }
      liq := Trim(liq + [e], e.at, WINDOW_SECS, liqs + [e]);
      liqs := liqs + [e];
    }

    /** The same for liquidations, side by side; an unknown side counts for neither. */
    method HandleForceOrder(e: Stamped<Liquidation>)
      requires LiqsTracked()
      modifies this`liq, this`liqLong2min, this`liqShort2min, this`liqs
      ensures LiqsTracked() && liqs == old(liqs) + [e]
      ensures Ordered(liqs) ==> liqShort2min == Liquidated(liqs, "BUY", e.at)
      ensures Ordered(liqs) ==> liqLong2min == Liquidated(liqs, "SELL", e.at)
    {
      PushLiq(e);
      WindowSideTotal(liqs, "BUY", e.at);
      WindowSideTotal(liqs, "SELL", e.at);
      liqShort2min := SideTotal(liq, "BUY");
      liqLong2min := SideTotal(liq, "SELL");
    }
  }
}
