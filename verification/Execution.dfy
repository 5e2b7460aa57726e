/**
 The executor object: the ordered checks, then reserve, gas and record, on the shared tables.
 `Execute` is proved to be the protocol's run of one bot with nobody else moving in between.
 */
module Execution {
  import opened Common
  import opened Ledger
  import opened Protocol
  import opened Store
  import Risk
  import Sizing
  import Windows

  /** What the outside world answers during one call. */
  datatype World = World(vpn: bool, elapsed: real, market: Option<string>, ask: real, regime: Regime)

  /** The k-th stage of one order. */
  function ActionAt(p: Pair, signal: Signal, w: World, k: nat): (a: Action)
    ensures ByBot(a) && a.p == p && (k > 0 ==> !a.Begin?)
  {
    if k == 0 then Begin(p, signal, w.vpn)
    else if k == 1 then Space(p, w.elapsed)
    else if k == 2 then CheckDrawdown(p)
    else if k == 3 then CheckCorrelation(p)
    else if k == 4 then CheckBreaker(p)
    else if k == 5 then Price(p, w.market, w.ask, w.regime)
    else if k == 6 then Book(p)
    else if k == 7 then Charge(p)
    else Count(p)
  }

  /** One order, stage by stage. */
  function Stages(p: Pair, signal: Signal, w: World): (stages: seq<Action>)
    ensures |stages| == 9 && forall k | 0 <= k < 9 :: stages[k] == ActionAt(p, signal, w, k)
  {
    seq(9, k requires 0 <= k < 9 => ActionAt(p, signal, w, k))
  }

  /** The stages from the k-th on. */
  function Script(p: Pair, signal: Signal, w: World, k: nat): seq<Action>
    requires k <= 9
  {
    Stages(p, signal, w)[k..]
  }

  /** What is left of the script, run from s, ends where the whole script ends. */
  ghost predicate OnTrack(cfg: Config, start: Sys, s: Sys, p: Pair, signal: Signal, w: World, k: nat)
    requires k <= 9
  {
    Run(cfg, start, Script(p, signal, w, 0)) == Run(cfg, s, Script(p, signal, w, k))
  }

  lemma Advance(cfg: Config, start: Sys, s: Sys, p: Pair, signal: Signal, w: World, k: nat)
    requires k < 9 && OnTrack(cfg, start, s, p, signal, w, k)
    ensures OnTrack(cfg, start, Step(cfg, s, ActionAt(p, signal, w, k)), p, signal, w, k + 1)
  {
  }

  /** The rest of the script does nothing once the bot has given up. */
  lemma {:induction false} GivenUp(cfg: Config, s: Sys, p: Pair, signal: Signal, w: World, k: nat)
    requires p in cfg.bots && p in s.stages && s.stages[p] == Idle && 0 < k <= 9
    ensures Run(cfg, s, Script(p, signal, w, k)) == s
    decreases 9 - k
  {
    if k < 9 {
      var a := ActionAt(p, signal, w, k);
      var script := Script(p, signal, w, k);
      assert script[0] == a && script[1..] == Script(p, signal, w, k + 1);
      assert StageAfter(cfg, s, p, a) == Idle;
      assert s.stages[p := Idle] == s.stages;
      assert Step(cfg, s, a) == s;
      GivenUp(cfg, s, p, signal, w, k + 1);
    }
  }

  /** Where the k-th stage leads, and that giving up there ends the whole script. */
  ghost predicate Reached(cfg: Config, start: Sys, s: Sys, p: Pair, signal: Signal, w: World, k: nat)
    requires k <= 9
  {
    && OnTrack(cfg, start, s, p, signal, w, k)
    && (StageOf(s, p) == Idle ==> s == Run(cfg, start, Script(p, signal, w, 0)))
  }

  lemma Reach(cfg: Config, start: Sys, s: Sys, s': Sys, p: Pair, signal: Signal, w: World, k: nat)
    requires k < 9 && p in cfg.bots && OnTrack(cfg, start, s, p, signal, w, k)
    requires s' == Step(cfg, s, ActionAt(p, signal, w, k)) && p in s'.stages
    ensures Reached(cfg, start, s', p, signal, w, k + 1)
  {
    Advance(cfg, start, s, p, signal, w, k);
    if s'.stages[p] == Idle {
      GivenUp(cfg, s', p, signal, w, k + 1);
    }
  }

  /** The state after the k-th stage, put together from what that stage does to each part. */
  lemma ReachTo(cfg: Config, start: Sys, s: Sys, s': Sys, p: Pair, signal: Signal, w: World, k: nat)
    requires k < 9 && p in cfg.bots && OnTrack(cfg, start, s, p, signal, w, k)
    requires var a := ActionAt(p, signal, w, k);
      && s'.db == DbAfter(cfg, s, a) && s'.stages == s.stages[p := StageAfter(cfg, s, p, a)]
      && s'.counts == CountsAfter(s, a) && s'.cooldown == CooldownAfter(cfg, s, a)
      && s'.clock == s.clock && s'.work == s.work
    ensures Reached(cfg, start, s', p, signal, w, k + 1)
  {
    assert s' == Step(cfg, s, ActionAt(p, signal, w, k));
    Reach(cfg, start, s, s', p, signal, w, k);
  }

  lemma Untouched(cfg: Config, s: Sys, a: Action)
    requires ByBot(a) && !a.Book? && !a.Charge?
    ensures DbAfter(cfg, s, a) == s.db
    ensures !a.Count? ==> CountsAfter(s, a) == s.counts
    ensures !a.CheckBreaker? ==> CooldownAfter(cfg, s, a) == s.cooldown
  {
  }

  /** A check only moves the bot on. */
  lemma Check(cfg: Config, start: Sys, s: Sys, p: Pair, signal: Signal, w: World, k: nat, now: Stage, next: Stage)
    requires k < 6 && k != 4 && p in cfg.bots && OnTrack(cfg, start, s, p, signal, w, k)
    requires s.stages == map[p := now] && StageAfter(cfg, s, p, ActionAt(p, signal, w, k)) == next
    ensures Reached(cfg, start, s.(stages := map[p := next]), p, signal, w, k + 1)
  {
    assert s.stages[p := next] == map[p := next];
    Untouched(cfg, s, ActionAt(p, signal, w, k));
    ReachTo(cfg, start, s, s.(stages := map[p := next]), p, signal, w, k);
  }

  predicate Fundable(db: Db, p: Pair, signal: Signal, w: World) {
    !signal.Skip? && w.vpn && Current(db, p) >= 1.0
  }

  lemma BeginStep(cfg: Config, start: Sys, p: Pair, signal: Signal, w: World)
    requires p in cfg.bots && start.stages == map[p := Idle]
    ensures var next := if Fundable(start.db, p, signal, w) then Funded(signal, Current(start.db, p)) else Idle;
      Reached(cfg, start, start.(stages := map[p := next]), p, signal, w, 1)
  {
    Check(cfg, start, start, p, signal, w, 0, Idle,
          if Fundable(start.db, p, signal, w) then Funded(signal, Current(start.db, p)) else Idle);
  }

  lemma DrawdownStep(cfg: Config, start: Sys, s: Sys, p: Pair, signal: Signal, w: World, budget: real, ok: bool)
    requires p in cfg.bots && OnTrack(cfg, start, s, p, signal, w, 2) && s.stages == map[p := Spaced(signal, budget)]
    requires ok == Risk.DrawdownOk(cfg.risk, s.db.bank, p)
    ensures Reached(cfg, start, s.(stages := map[p := if ok then Sound(signal, budget) else Idle]), p, signal, w, 3)
  {
    Check(cfg, start, s, p, signal, w, 2, Spaced(signal, budget), if ok then Sound(signal, budget) else Idle);
  }

  /** The breaker also keeps its cooldowns. */
  lemma BreakerStep(cfg: Config, start: Sys, s: Sys, p: Pair, signal: Signal, w: World, budget: real)
    requires p in cfg.bots && OnTrack(cfg, start, s, p, signal, w, 4)
    requires s.stages == map[p := Balanced(signal, budget)]
    ensures var ok := Risk.BreakerOk(cfg.risk, s.cooldown, s.db, p, s.clock);
      Reached(cfg, start, s.(cooldown := Risk.BreakerAfter(cfg.risk, s.cooldown, s.db, p, s.clock),
                             stages := map[p := if ok then Cleared(signal, budget) else Idle]), p, signal, w, 5)
  {
    var next := if Risk.BreakerOk(cfg.risk, s.cooldown, s.db, p, s.clock) then Cleared(signal, budget) else Idle;
    assert s.stages[p := next] == map[p := next];
    ReachTo(cfg, start, s, s.(cooldown := Risk.BreakerAfter(cfg.risk, s.cooldown, s.db, p, s.clock),
                              stages := map[p := next]), p, signal, w, 4);
  }

  /** The three writes, in order. */
  lemma BookStep(cfg: Config, start: Sys, s: Sys, p: Pair, signal: Signal, w: World, budget: real, order: Trade)
    requires p in cfg.bots && OnTrack(cfg, start, s, p, signal, w, 6)
    requires s.stages == map[p := Ready(budget, order)] && order.placedAt == s.clock
    ensures var (db, id) := Reserve(s.db, order);
      Reached(cfg, start, s.(db := db, stages := map[p := if id.Some? then Booked else Idle]), p, signal, w, 7)
  {
    var (db, id) := Reserve(s.db, order);
    var next := if id.Some? then Booked else Idle;
    assert order.(placedAt := s.clock) == order;
    assert s.stages[p := next] == map[p := next];
    ReachTo(cfg, start, s, s.(db := db, stages := map[p := next]), p, signal, w, 6);
  }

  lemma ChargeStep(cfg: Config, start: Sys, s: Sys, p: Pair, signal: Signal, w: World)
    requires p in cfg.bots && OnTrack(cfg, start, s, p, signal, w, 7) && s.stages == map[p := Booked]
    ensures OnTrack(cfg, start, s.(db := Deduct(s.db, p, cfg.gas), stages := map[p := Charged]), p, signal, w, 8)
  {
    assert s.stages[p := Charged] == map[p := Charged];
    ReachTo(cfg, start, s, s.(db := Deduct(s.db, p, cfg.gas), stages := map[p := Charged]), p, signal, w, 7);
  }

  lemma CountStep(cfg: Config, start: Sys, s: Sys, p: Pair, signal: Signal, w: World)
    requires p in cfg.bots && OnTrack(cfg, start, s, p, signal, w, 8) && s.stages == map[p := Charged]
    ensures Reached(cfg, start, s.(counts := Windows.Recorded(s.counts, p, Seconds(s)), stages := map[p := Idle]),
                    p, signal, w, 9)
  {
    assert s.stages[p := Idle] == map[p := Idle];
    Untouched(cfg, s, Count(p));
    ReachTo(cfg, start, s, s.(counts := Windows.Recorded(s.counts, p, Seconds(s)), stages := map[p := Idle]),
            p, signal, w, 8);
  }

  // ---- when an order is placed, told by the state it starts from ----

  /** Worth a look at all: a signal, a tunnel and a dollar. */
  predicate Ripe(db: Db, p: Pair, signal: Signal, w: World) {
    !signal.Skip? && w.vpn && p in db.bank && db.bank[p].current >= 1.0
  }

  /** The window has room for another order and is not too far gone. */
  predicate InTime(cfg: Config, counts: Windows.Counts, p: Pair, w: World, now: real)
    requires p in cfg.bots && now >= 0.0
  {
    && Windows.Lookup(counts, p, Windows.WindowKey(p.asset, now.Floor)) < cfg.bots[p].maxOrders
    && w.elapsed <= cfg.bots[p].maxElapsed
  }

  /** The price asked, with slippage on top. */
  function PriceWith(cfg: Config, ask: real): real {
    ask + ask * (cfg.slippageBps / 10000.0)
  }

  /** A market that is not held yet, at a price the bot accepts. */
  ghost predicate Buyable(cfg: Config, trades: seq<Trade>, p: Pair, signal: Signal, w: World)
    requires p in cfg.bots
  {
    && w.market.Some?
    && (cfg.bots[p].scaling || forall t | t in trades && t.pair == p && t.outcome.None? :: t.market != w.market)
    && 0.0 < PriceWith(cfg, w.ask) < 1.0
    && (signal == BuyYes ==> PriceWith(cfg, w.ask) <= cfg.bots[p].maxEntryYes)
    && (signal != BuyYes ==> PriceWith(cfg, w.ask) <= cfg.bots[p].maxEntryNo)
  }

  /** The order those answers lead to. */
  function OrderFor(cfg: Config, db: Db, p: Pair, signal: Signal, w: World, now: real): Trade {
    Trade(p, w.market, signal, PriceWith(cfg, w.ask), OrderSize(cfg, db, p, Current(db, p), w.regime), now, None, None)
  }

  /**
   What the regime does to the size: half in a volatile market, four fifths in a ranging one for the
   strategies whose name starts with TURBO, never less than a dollar, and the Kelly size otherwise.
   */
  lemma RegimeShrinksSize(cfg: Config, db: Db, p: Pair, budget: real, regime: Regime)
    ensures var kelly := Sizing.KellySize(cfg.sizer, Sizing.RollingStats(db, p, cfg.sizer.rollingWindow), budget);
      var size := OrderSize(cfg, db, p, budget, regime);
      && (regime == Volatile ==> size == if kelly <= 2.0 then 1.0 else kelly / 2.0)
      && (regime == Ranging && |p.strategy| >= 5 && p.strategy[..5] == "TURBO"
          ==> size == if kelly <= 1.25 then 1.0 else kelly * 4.0 / 5.0)
      && (regime != Volatile && !(regime == Ranging && |p.strategy| >= 5 && p.strategy[..5] == "TURBO")
          ==> size == kelly)
  {
  }

  /** The stake is in the account. */
  predicate Affords(db: Db, order: Trade) {
    order.pair in db.bank && order.entry * order.size <= db.bank[order.pair].current
  }

  /** Everything between a signal and a row in the table. */
  ghost predicate Accepted(
    cfg: Config, db: Db, counts: Windows.Counts, cooldown: Risk.Cooldowns, p: Pair, signal: Signal, w: World, now: real)
    requires p in cfg.bots && now >= 0.0
  {
    && Ripe(db, p, signal, w) && InTime(cfg, counts, p, w, now)
    && Risk.AllOk(cfg.risk, cooldown, db, p, now)
    && Buyable(cfg, db.trades, p, signal, w)
    && Affords(db, OrderFor(cfg, db, p, signal, w, now))
  }

  lemma PriceIsWith(cfg: Config, ask: real)
    ensures EntryPrice(cfg, ask) == PriceWith(cfg, ask)
  {
    var share := cfg.slippageBps / 10000.0;
    assert ask * (1.0 + share) == ask + ask * share;
  }

  /** What a placed order does to the tables: its row, its stake and its gas. */
  ghost predicate Entered(cfg: Config, before: Db, after: Db, order: Trade)
    requires order.pair in before.bank
  {
    && after.trades == before.trades + [order] && after.dead == before.dead
    && after.bank == before.bank[order.pair := Account(
         before.bank[order.pair].current - order.entry * order.size - cfg.gas, before.bank[order.pair].peak)]
  }

  function Written(cfg: Config, db: Db, order: Trade): Db {
    if Reserve(db, order).1.Some? then Deduct(Reserve(db, order).0, order.pair, cfg.gas) else db
  }

  lemma WrittenEnters(cfg: Config, db: Db, order: Trade)
    requires order.pair in db.bank
    ensures if Affords(db, order) then Entered(cfg, db, Written(cfg, db, order), order)
            else Written(cfg, db, order) == db
  {
    var p, cost := order.pair, order.entry * order.size;
    assert order.Cost() == cost;
    if cost <= db.bank[p].current {
      var left := Account(db.bank[p].current - cost - cfg.gas, db.bank[p].peak);
      assert Written(cfg, db, order).bank == db.bank[p := left];
    }
  }

  /** The tables at the end of the script, once the order is priced. */
  lemma WriteEnds(
    cfg: Config, start: Sys, s: Sys, p: Pair, signal: Signal, w: World, b: real, order: Trade, end: Sys)
    requires p in cfg.bots && s.stages == map[p := Ready(b, order)] && order.pair == p && order.placedAt == s.clock
    requires OnTrack(cfg, start, s, p, signal, w, 6) && end == Run(cfg, start, Script(p, signal, w, 0))
    ensures end.db == Written(cfg, s.db, order)
  {
    var (db, id) := Reserve(s.db, order);
    BookStep(cfg, start, s, p, signal, w, b, order);
    if id.Some? {
      GasEnds(cfg, start, s.(db := db, stages := map[p := Booked]), p, signal, w, end);
    }
  }

  lemma GasEnds(cfg: Config, start: Sys, s: Sys, p: Pair, signal: Signal, w: World, end: Sys)
    requires p in cfg.bots && s.stages == map[p := Booked]
    requires OnTrack(cfg, start, s, p, signal, w, 7) && end == Run(cfg, start, Script(p, signal, w, 0))
    ensures end.db == Deduct(s.db, p, cfg.gas)
  {
    ChargeStep(cfg, start, s, p, signal, w);
    CountStep(cfg, start, s.(db := Deduct(s.db, p, cfg.gas), stages := map[p := Charged]), p, signal, w);
  }

  lemma PriceEnds(
    cfg: Config, start: Sys, s: Sys, p: Pair, signal: Signal, w: World, b: real, order: Option<Trade>, end: Sys)
    requires p in cfg.bots && s.stages == map[p := Cleared(signal, b)]
    requires order == PriceOrder(cfg, s.db, p, signal, b, w.market, w.ask, w.regime, s.clock)
    requires OnTrack(cfg, start, s, p, signal, w, 5) && end == Run(cfg, start, Script(p, signal, w, 0))
    ensures end.db == if order.Some? then Written(cfg, s.db, order.value) else s.db
  {
    Check(cfg, start, s, p, signal, w, 5, Cleared(signal, b), if order.Some? then Ready(b, order.value) else Idle);
    if order.Some? {
      WriteEnds(cfg, start, s.(stages := map[p := Ready(b, order.value)]), p, signal, w, b, order.value, end);
    }
  }

  /** The order the bot comes to once the checks before it have passed. */
  function Priced(cfg: Config, db: Db, p: Pair, signal: Signal, w: World, now: real): Option<Trade>
    requires p in cfg.bots
  {
    PriceOrder(cfg, db, p, signal, Current(db, p), w.market, w.ask, w.regime, now)
  }

  function IfPriced(cfg: Config, db: Db, order: Option<Trade>): Db {
    if order.Some? then Written(cfg, db, order.value) else db
  }

  lemma BreakerEnds(cfg: Config, start: Sys, s: Sys, p: Pair, signal: Signal, w: World, b: real, ok: bool, end: Sys)
    requires p in cfg.bots && s.stages == map[p := Balanced(signal, b)] && b == Current(s.db, p)
    requires ok == Risk.BreakerOk(cfg.risk, s.cooldown, s.db, p, s.clock)
    requires OnTrack(cfg, start, s, p, signal, w, 4) && end == Run(cfg, start, Script(p, signal, w, 0))
    ensures end.db == if ok then IfPriced(cfg, s.db, Priced(cfg, s.db, p, signal, w, s.clock)) else s.db
  {
    BreakerStep(cfg, start, s, p, signal, w, b);
    if ok {
      var after := Risk.BreakerAfter(cfg.risk, s.cooldown, s.db, p, s.clock);
      PriceEnds(cfg, start, s.(cooldown := after, stages := map[p := Cleared(signal, b)]), p, signal, w, b,
                Priced(cfg, s.db, p, signal, w, s.clock), end);
    }
  }

  lemma ShareEnds(
    cfg: Config, start: Sys, s: Sys, p: Pair, signal: Signal, w: World, b: real, even: bool, ok: bool, end: Sys)
    requires p in cfg.bots && s.stages == map[p := Sound(signal, b)] && b == Current(s.db, p)
    requires even == Risk.CorrelationOk(cfg.risk, s.db.trades, p.asset)
    requires ok == Risk.BreakerOk(cfg.risk, s.cooldown, s.db, p, s.clock)
    requires OnTrack(cfg, start, s, p, signal, w, 3) && end == Run(cfg, start, Script(p, signal, w, 0))
    ensures end.db == if even && ok then IfPriced(cfg, s.db, Priced(cfg, s.db, p, signal, w, s.clock)) else s.db
  {
    Check(cfg, start, s, p, signal, w, 3, Sound(signal, b), if even then Balanced(signal, b) else Idle);
    if even {
      BreakerEnds(cfg, start, s.(stages := map[p := Balanced(signal, b)]), p, signal, w, b, ok, end);
    }
  }

  lemma RiskEnds(cfg: Config, start: Sys, s: Sys, p: Pair, signal: Signal, w: World, b: real, ok: bool, end: Sys)
    requires p in cfg.bots && s.stages == map[p := Spaced(signal, b)] && b == Current(s.db, p)
    requires ok == Risk.AllOk(cfg.risk, s.cooldown, s.db, p, s.clock)
    requires OnTrack(cfg, start, s, p, signal, w, 2) && end == Run(cfg, start, Script(p, signal, w, 0))
    ensures end.db == if ok then IfPriced(cfg, s.db, Priced(cfg, s.db, p, signal, w, s.clock)) else s.db
  {
    var sound := Risk.DrawdownOk(cfg.risk, s.db.bank, p);
    DrawdownStep(cfg, start, s, p, signal, w, b, sound);
    if sound {
      ShareEnds(cfg, start, s.(stages := map[p := Sound(signal, b)]), p, signal, w, b,
                Risk.CorrelationOk(cfg.risk, s.db.trades, p.asset),
                Risk.BreakerOk(cfg.risk, s.cooldown, s.db, p, s.clock), end);
    }
  }

  lemma WindowEnds(
    cfg: Config, start: Sys, s: Sys, p: Pair, signal: Signal, w: World, b: real, timely: bool, ok: bool, end: Sys)
    requires p in cfg.bots && s.stages == map[p := Funded(signal, b)] && b == Current(s.db, p) && s.clock >= 0.0
    requires timely == InTime(cfg, s.counts, p, w, s.clock)
    requires ok == Risk.AllOk(cfg.risk, s.cooldown, s.db, p, s.clock)
    requires OnTrack(cfg, start, s, p, signal, w, 1) && end == Run(cfg, start, Script(p, signal, w, 0))
    ensures end.db == if timely && ok then IfPriced(cfg, s.db, Priced(cfg, s.db, p, signal, w, s.clock)) else s.db
  {
    Check(cfg, start, s, p, signal, w, 1, Funded(signal, b), if timely then Spaced(signal, b) else Idle);
    if timely {
      RiskEnds(cfg, start, s.(stages := map[p := Spaced(signal, b)]), p, signal, w, b, ok, end);
    }
  }

  /** What the whole script leaves in the tables. */
  lemma ScriptEnds(cfg: Config, start: Sys, p: Pair, signal: Signal, w: World, timely: bool, ok: bool, end: Sys)
    requires p in cfg.bots && start.stages == map[p := Idle] && start.clock >= 0.0
    requires timely == InTime(cfg, start.counts, p, w, start.clock)
    requires ok == Risk.AllOk(cfg.risk, start.cooldown, start.db, p, start.clock)
    requires end == Run(cfg, start, Script(p, signal, w, 0))
    ensures end.db == if Fundable(start.db, p, signal, w) && timely && ok
                      then IfPriced(cfg, start.db, Priced(cfg, start.db, p, signal, w, start.clock)) else start.db
  {
    var b := Current(start.db, p);
    BeginStep(cfg, start, p, signal, w);
    if Fundable(start.db, p, signal, w) {
      WindowEnds(cfg, start, start.(stages := map[p := Funded(signal, b)]), p, signal, w, b, timely, ok, end);
    }
  }

  lemma OrderIsBuyable(cfg: Config, db: Db, p: Pair, signal: Signal, w: World, now: real)
    requires p in cfg.bots
    ensures Priced(cfg, db, p, signal, w, now)
         == if Buyable(cfg, db.trades, p, signal, w) then Some(OrderFor(cfg, db, p, signal, w, now)) else None
  {
    PriceIsWith(cfg, w.ask);
  }

  lemma DecidedEnters(
    cfg: Config, db: Db, p: Pair, passes: bool, buyable: bool, affords: bool, order: Trade, end: Db)
    requires order.pair == p && (passes ==> p in db.bank) && affords == Affords(db, order)
    requires end == if passes then IfPriced(cfg, db, if buyable then Some(order) else None) else db
    ensures if passes && buyable && affords then Entered(cfg, db, end, order) else end == db
  {
    if passes {
      WrittenEnters(cfg, db, order);
    }
  }

  lemma RipeIsFundable(db: Db, p: Pair, signal: Signal, w: World)
    ensures Ripe(db, p, signal, w) <==> Fundable(db, p, signal, w)
  {
  }

  lemma AcceptedEnters(
    cfg: Config, db: Db, p: Pair, signal: Signal, w: World, now: real, passes: bool, buyable: bool, order: Trade,
    end: Db)
    requires p in cfg.bots && (passes ==> p in db.bank)
    requires buyable == Buyable(cfg, db.trades, p, signal, w) && order == OrderFor(cfg, db, p, signal, w, now)
    requires end == if passes then IfPriced(cfg, db, Priced(cfg, db, p, signal, w, now)) else db
    ensures if passes && buyable && Affords(db, order) then Entered(cfg, db, end, order) else end == db
  {
    OrderIsBuyable(cfg, db, p, signal, w, now);
    DecidedEnters(cfg, db, p, passes, buyable, Affords(db, order), order, end);
  }

  /** The script books exactly the accepted orders. */
  lemma ScriptDecides(cfg: Config, start: Sys, p: Pair, signal: Signal, w: World, end: Sys)
    requires p in cfg.bots && start.stages == map[p := Idle] && start.clock >= 0.0
    requires end == Run(cfg, start, Script(p, signal, w, 0))
    ensures if Accepted(cfg, start.db, start.counts, start.cooldown, p, signal, w, start.clock)
            then Entered(cfg, start.db, end.db, OrderFor(cfg, start.db, p, signal, w, start.clock))
            else end.db == start.db
  {
    var timely := InTime(cfg, start.counts, p, w, start.clock);
    var ok := Risk.AllOk(cfg.risk, start.cooldown, start.db, p, start.clock);
    ScriptEnds(cfg, start, p, signal, w, timely, ok, end);
    RipeIsFundable(start.db, p, signal, w);
    AcceptedEnters(cfg, start.db, p, signal, w, start.clock, Ripe(start.db, p, signal, w) && timely && ok,
                   Buyable(cfg, start.db.trades, p, signal, w), OrderFor(cfg, start.db, p, signal, w, start.clock),
                   end.db);
  }

  class Executor {
    const cfg: Config
    const db: Database
    const tracker: Windows.WindowTracker
    const risk: Risk.RiskManager

    constructor (cfg: Config, db: Database, tracker: Windows.WindowTracker, risk: Risk.RiskManager)
      requires risk.cfg == cfg.risk
      ensures this.cfg == cfg && this.db == db && this.tracker == tracker && this.risk == risk && Wired()
    {
      this.cfg, this.db, this.tracker, this.risk := cfg, db, tracker, risk;
    }

    ghost predicate Wired() {
      risk.cfg == cfg.risk
    }

    /** The shared state as the protocol sees it, with p the one bot that is running. */
    ghost function View(now: real, p: Pair, stage: Stage): Sys
      reads db, tracker, risk
    {
      Sys(db.View(), tracker.counts, risk.cooldown, now, map[p := stage], Resting)
    }

    /**
     The ordered checks of one order, the write of the order, its gas and its count.  An id comes back
     exactly when every check of the state the call starts from passes, and then the row is the order
     those answers lead to.
     */
    method Execute(p: Pair, signal: Signal, w: World, now: real) returns (id: Option<nat>)
      requires Wired() && p in cfg.bots && now >= 0.0
      modifies db, tracker, risk
      ensures View(now, p, Idle) == Run(cfg, old(View(now, p, Idle)), Script(p, signal, w, 0))
      ensures id.Some? ==> id.value == |old(db.trades)| && |db.trades| == id.value + 1
      ensures id.None? ==> db.View() == old(db.View()) && tracker.counts == old(tracker.counts)
      ensures id.Some? <==> Accepted(cfg, old(db.View()), old(tracker.counts), old(risk.cooldown), p, signal, w, now)
      ensures id.Some? ==> Entered(cfg, old(db.View()), db.View(), OrderFor(cfg, old(db.View()), p, signal, w, now))
    {
      ghost var start := View(now, p, Idle);
      id := Attempt(p, signal, w, now);
      ScriptDecides(cfg, start, p, signal, w, View(now, p, Idle));
    }

    method Attempt(p: Pair, signal: Signal, w: World, now: real) returns (id: Option<nat>)
      requires Wired() && p in cfg.bots && now >= 0.0
      modifies db, tracker, risk
      ensures View(now, p, Idle) == Run(cfg, old(View(now, p, Idle)), Script(p, signal, w, 0))
      ensures id.Some? ==> id.value == |old(db.trades)| && |db.trades| == id.value + 1
      ensures id.None? ==> db.View() == old(db.View()) && tracker.counts == old(tracker.counts)
    {
      ghost var start := View(now, p, Idle);
      var balance := if p in db.bank then db.bank[p].current else 0.0;
      BeginStep(cfg, start, p, signal, w);
      if signal.Skip? || !w.vpn || balance < 1.0 {
        return None;
      }
      var allowed := Checks(p, signal, balance, w, now, start);
      if !allowed {
        return None;
      }
      id := Place(p, signal, balance, w, now, start);
    }

    /** Window, then risk. */
    method Checks(p: Pair, signal: Signal, balance: real, w: World, now: real, ghost start: Sys)
      returns (ok: bool)
      requires Wired() && p in cfg.bots && now >= 0.0
      requires OnTrack(cfg, start, View(now, p, Funded(signal, balance)), p, signal, w, 1)
      modifies risk
      ensures ok ==> OnTrack(cfg, start, View(now, p, Cleared(signal, balance)), p, signal, w, 5)
      ensures !ok ==> View(now, p, Idle) == Run(cfg, start, Script(p, signal, w, 0))
    {
      ok := CheckWindow(p, signal, balance, w, now, start);
      if ok {
        ok := CheckRisk(p, signal, balance, w, now, start);
      }
    }

    /** Window capacity and elapsed time. */
    method CheckWindow(p: Pair, signal: Signal, balance: real, w: World, now: real, ghost start: Sys)
      returns (ok: bool)
      requires Wired() && p in cfg.bots && now >= 0.0
      requires OnTrack(cfg, start, View(now, p, Funded(signal, balance)), p, signal, w, 1)
      ensures Reached(cfg, start, View(now, p, if ok then Spaced(signal, balance) else Idle), p, signal, w, 2)
    {
      var room := tracker.CanPlace(p, cfg.bots[p].maxOrders, now.Floor);
      ok := room && w.elapsed <= cfg.bots[p].maxElapsed;
      Check(cfg, start, View(now, p, Funded(signal, balance)), p, signal, w, 1, Funded(signal, balance),
            if ok then Spaced(signal, balance) else Idle);
    }

    /** Drawdown, correlation and breaker; a refusal stops the checks after it. */
    method CheckRisk(p: Pair, signal: Signal, balance: real, w: World, now: real, ghost start: Sys)
      returns (ok: bool)
      requires Wired() && p in cfg.bots && now >= 0.0
      requires OnTrack(cfg, start, View(now, p, Spaced(signal, balance)), p, signal, w, 2)
      modifies risk
      ensures ok ==> OnTrack(cfg, start, View(now, p, Cleared(signal, balance)), p, signal, w, 5)
      ensures !ok ==> View(now, p, Idle) == Run(cfg, start, Script(p, signal, w, 0))
    {
      ok := risk.CheckDrawdown(db, p);
      DrawdownStep(cfg, start, View(now, p, Spaced(signal, balance)), p, signal, w, balance, ok);
      if !ok {
        return;
      }
      ok := CheckBalanceAndBreaker(p, signal, balance, w, now, start);
    }

    method CheckBalanceAndBreaker(p: Pair, signal: Signal, balance: real, w: World, now: real, ghost start: Sys)
      returns (ok: bool)
      requires Wired() && p in cfg.bots && now >= 0.0
      requires OnTrack(cfg, start, View(now, p, Sound(signal, balance)), p, signal, w, 3)
      modifies risk
      ensures ok ==> OnTrack(cfg, start, View(now, p, Cleared(signal, balance)), p, signal, w, 5)
      ensures !ok ==> View(now, p, Idle) == Run(cfg, start, Script(p, signal, w, 0))
    {
      ok := risk.CheckCorrelation(db, p.asset);
      Check(cfg, start, View(now, p, Sound(signal, balance)), p, signal, w, 3, Sound(signal, balance),
            if ok then Balanced(signal, balance) else Idle);
      if !ok {
        return;
      }
      BreakerStep(cfg, start, View(now, p, Balanced(signal, balance)), p, signal, w, balance);
      ok := risk.CheckCircuitBreaker(db, p, now);
    }

    /** Market, idempotency, price, guard and size. */
    method PriceTheOrder(p: Pair, signal: Signal, balance: real, w: World, now: real) returns (order: Option<Trade>)
      requires p in cfg.bots
      ensures order == PriceOrder(cfg, db.View(), p, signal, balance, w.market, w.ask, w.regime, now)
    {
      if w.market.None? {
        return None;
      }
      if !cfg.bots[p].scaling {
        var taken := AlreadyOn(db.trades, p, w.market.value);
        if taken {
          return None;
        }
      }
      var entry := EntryPrice(cfg, w.ask);
      if entry <= 0.0 || entry >= 1.0 {
        return None;
      }
      var maxEntry := if signal == BuyYes then cfg.bots[p].maxEntryYes else cfg.bots[p].maxEntryNo;
      if entry > maxEntry {
        return None;
      }
      var size := OrderSize(cfg, Db(db.bank, db.trades, db.dead), p, balance, w.regime);
      return Some(Trade(p, w.market, signal, entry, size, now, None, None));
    }

    /** Price, then write. */
    method Place(p: Pair, signal: Signal, balance: real, w: World, now: real, ghost start: Sys)
      returns (id: Option<nat>)
      requires Wired() && p in cfg.bots && now >= 0.0
      requires OnTrack(cfg, start, View(now, p, Cleared(signal, balance)), p, signal, w, 5)
      modifies db, tracker
      ensures View(now, p, Idle) == Run(cfg, start, Script(p, signal, w, 0))
      ensures id.Some? ==> id.value == |old(db.trades)| && |db.trades| == id.value + 1
      ensures id.None? ==> db.View() == old(db.View()) && tracker.counts == old(tracker.counts)
    {
      var order := PriceTheOrder(p, signal, balance, w, now);
      Check(cfg, start, View(now, p, Cleared(signal, balance)), p, signal, w, 5, Cleared(signal, balance),
            if order.Some? then Ready(balance, order.value) else Idle);
      if order.None? {
        return None;
      }
      id := Commit(p, signal, balance, order.value, w, now, start);
    }

    /** Reserve, gas and record. */
    method Commit(p: Pair, signal: Signal, balance: real, order: Trade, w: World, now: real, ghost start: Sys)
      returns (id: Option<nat>)
      requires Wired() && p in cfg.bots && now >= 0.0 && order.placedAt == now
      requires OnTrack(cfg, start, View(now, p, Ready(balance, order)), p, signal, w, 6)
      modifies db, tracker
      ensures View(now, p, Idle) == Run(cfg, start, Script(p, signal, w, 0))
      ensures id.Some? ==> id.value == |old(db.trades)| && |db.trades| == id.value + 1
      ensures id.None? ==> db.View() == old(db.View()) && tracker.counts == old(tracker.counts)
    {
      BookStep(cfg, start, View(now, p, Ready(balance, order)), p, signal, w, balance, order);
      id := db.ReserveAndInsertTrade(order);
      if id.None? {
        return;
      }
      ChargeAndRecord(p, signal, w, now, start);
    }

    method ChargeAndRecord(p: Pair, signal: Signal, w: World, now: real, ghost start: Sys)
      requires Wired() && p in cfg.bots && now >= 0.0
      requires OnTrack(cfg, start, View(now, p, Booked), p, signal, w, 7)
      modifies db, tracker
      ensures View(now, p, Idle) == Run(cfg, start, Script(p, signal, w, 0))
      ensures db.trades == old(db.trades)
    {
      ChargeStep(cfg, start, View(now, p, Booked), p, signal, w);
      db.DeductFee(p, cfg.gas);
      CountStep(cfg, start, View(now, p, Charged), p, signal, w);
      var _ := tracker.Record(p, now.Floor);
    }
  }
}
