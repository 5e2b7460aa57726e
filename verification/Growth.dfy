/** When the exposure check caps an asset over all runs, and when nothing does. */
module Growth {
  import opened Common
  import opened Ledger
  import opened Overlaps
  import opened Positions
  import opened Protocol
  import Guarantees
  import Risk
  import Sizing
  import Streaks
  import Windows

  // ---- a system two bots can go on trading in ----

  /** Accounts opened with the same amount, of which the two bots have spent at most `lost` each. */
  ghost predicate Intact(bank: map<Pair, Account>, p: Pair, q: Pair, initial: real, lost: real) {
    && p in bank && q in bank
    && (forall r | r in bank :: bank[r].peak == initial && (r != p && r != q ==> bank[r].current == initial))
    && initial - lost <= bank[p].current <= initial && initial - lost <= bank[q].current <= initial
  }

  /** Nothing has been settled, and markets have been used in order of the length of their names. */
  ghost predicate Unsettled(trades: seq<Trade>, n: nat) {
    forall t | t in trades :: t.Open() && t.market.Some? && |t.market.value| <= n
  }

  ghost predicate Even(trades: seq<Trade>, asset: string, n: nat) {
    CountOpen(trades, asset, BuyYes) == n && CountOpen(trades, asset, BuyNo) == n
  }

  ghost predicate Books(db: Db, p: Pair, q: Pair, initial: real, n: nat, lost: real) {
    Intact(db.bank, p, q, initial, lost) && Unsettled(db.trades, n) && Even(db.trades, p.asset, n)
  }

  /** Neither bot is in the middle of an order, and its window is empty. */
  ghost predicate Clear(s: Sys, p: Pair, q: Pair) {
    && p in s.stages && q in s.stages && StageOf(s, p).Idle? && StageOf(s, q).Idle?
    && s.cooldown == map[] && s.clock >= 0.0 && Windows.NothingAhead(s.counts, Seconds(s))
    && OrdersNow(s, p) == 0 && OrdersNow(s, q) == 0
  }

  ghost predicate Rested(s: Sys, p: Pair, q: Pair, initial: real, n: nat, lost: real) {
    Books(s.db, p, q, initial, n, lost) && Clear(s, p, q)
  }

  /** What a drawdown limit allows to be lost of a seed. */
  function Allowance(limit: real, initial: real): real {
    limit * initial
  }

  ghost predicate Going(cfg: Config, s: Sys, p: Pair, q: Pair, initial: real, n: nat, lost: real) {
    Tidy(cfg, s) && Solvent(cfg, s) && Rested(s, p, q, initial, n, lost)
  }

  /** The losses so far trip neither the bankroll pre-check nor a drawdown limit. */
  predicate Enough(cfg: Config, initial: real, lost: real) {
    && lost >= 0.0 && initial - lost >= 1.0
    && lost < Allowance(cfg.risk.disable, initial) && lost < Allowance(cfg.risk.pause, initial)
  }

  /** The bot has room for an order in a fresh window, and accepts some price on either side. */
  predicate Willing(cfg: Config, p: Pair) {
    p in cfg.bots && cfg.bots[p].maxOrders >= 1 && cfg.bots[p].maxEntryYes > 0.0 && cfg.bots[p].maxEntryNo > 0.0
  }

  /** A price both bots accept. */
  predicate Cheap(cfg: Config, p: Pair, q: Pair, e: real) {
    && p in cfg.bots && q in cfg.bots && 0.0 < e < 1.0
    && e <= cfg.bots[p].maxEntryYes && e <= cfg.bots[q].maxEntryNo
  }

  /** Two distinct willing bots of one asset, in a configuration whose breaker needs at least one loss. */
  predicate Rivals(cfg: Config, p: Pair, q: Pair) {
    && Proper(cfg) && p != q && p.asset == q.asset && Willing(cfg, p) && Willing(cfg, q)
    && cfg.risk.losses >= 1 && cfg.slippageBps > -10000.0
  }

  function Name(n: nat): (m: string)
    ensures |m| == n
  {
    seq(n, _ => 'm')
  }

  function AskFor(cfg: Config, e: real): real
    requires cfg.slippageBps > -10000.0
  {
    e / (1.0 + cfg.slippageBps / 10000.0)
  }

  function OfferFor(cfg: Config, p: Pair, side: Signal, n: nat, e: real): Offer
    requires p in cfg.bots && cfg.slippageBps > -10000.0
  {
    Offer(side, cfg.bots[p].maxElapsed, Name(n + 1), AskFor(cfg, e), Unknown)
  }

  // ---- both are permitted ----

  /** Where every account is at its peak the two sums agree. */
  lemma {:induction false} PortfolioUntouched(asset: string, bank: map<Pair, Account>)
    requires forall r | r in bank :: bank[r].current == bank[r].peak && bank[r].peak >= 0.0
    ensures Risk.Portfolio(Risk.Held, asset, bank) == Risk.Portfolio(Risk.Highest, asset, bank) >= 0.0
    decreases |bank|
  {
    if bank != map[] {
      var r :| r in bank;
      PortfolioUntouched(asset, bank - {r});
      Risk.PortfolioWithout(Risk.Held, asset, bank, r);
      Risk.PortfolioWithout(Risk.Highest, asset, bank, r);
    }
  }

  lemma PortfolioShape(bank: map<Pair, Account>, p: Pair, q: Pair, initial: real, lost: real) returns (rest: real)
    requires Intact(bank, p, q, initial, lost) && initial > 0.0 && p != q && p.asset == q.asset
    ensures rest >= 0.0
    ensures Risk.Portfolio(Risk.Held, p.asset, bank) == bank[p].current + bank[q].current + rest
    ensures Risk.Portfolio(Risk.Highest, p.asset, bank) == 2.0 * initial + rest
  {
    Risk.PortfolioWithout(Risk.Held, p.asset, bank, p);
    Risk.PortfolioWithout(Risk.Held, p.asset, bank - {p}, q);
    Risk.PortfolioWithout(Risk.Highest, p.asset, bank, p);
    Risk.PortfolioWithout(Risk.Highest, p.asset, bank - {p}, q);
    PortfolioUntouched(p.asset, bank - {p} - {q});
    rest := Risk.Portfolio(Risk.Held, p.asset, bank - {p} - {q});
  }

  lemma NotTooDeep(current: real, peak: real, lost: real, limit: real)
    requires peak > 0.0 && peak - current <= lost && lost < limit * peak
    ensures !Risk.TooDeep(current, peak, limit)
  {
    QuotientOrder(peak - current, limit * peak, peak);
    QuotientIs(limit * peak, peak, limit);
  }

  lemma MoreStillHolds(limit: real, initial: real, rest: real, lost: real)
    requires 0.0 <= lost < limit * initial && initial > 0.0 && rest >= 0.0
    ensures 2.0 * lost < limit * (2.0 * initial + rest)
  {
    ProductSign(limit, initial);
    assert limit * rest >= 0.0;
    assert limit * (2.0 * initial + rest) == 2.0 * (limit * initial) + limit * rest;
  }

  lemma DrawdownPasses(cfg: Config, bank: map<Pair, Account>, p: Pair, q: Pair, initial: real, lost: real)
    requires Intact(bank, p, q, initial, lost) && Enough(cfg, initial, lost) && p != q && p.asset == q.asset
    ensures Risk.DrawdownOk(cfg.risk, bank, p) && Risk.DrawdownOk(cfg.risk, bank, q)
  {
    NotTooDeep(bank[p].current, initial, lost, cfg.risk.disable);
    NotTooDeep(bank[q].current, initial, lost, cfg.risk.disable);
    var rest := PortfolioShape(bank, p, q, initial, lost);
    MoreStillHolds(cfg.risk.pause, initial, rest, lost);
    NotTooDeep(bank[p].current + bank[q].current + rest, 2.0 * initial + rest, 2.0 * lost, cfg.risk.pause);
  }

  lemma {:induction false} NoneRecent(rows: seq<Trade>, n: nat)
    requires forall t | t in rows :: t.Open()
    ensures Recent(rows, n) == []
  {
    if |rows| > 0 {
      NoneRecent(rows[..|rows| - 1], n);
    }
  }

  lemma NoStreak(cfg: Config, db: Db, p: Pair, n: nat)
    requires Unsettled(db.trades, n) && cfg.risk.losses >= 1
    ensures !Risk.OnLosingStreak(cfg.risk, db, p)
  {
    Sizing.OfSubset(db.trades, p);
    NoneRecent(Of(db.trades, p), cfg.risk.losses);
    Streaks.StreakIsRecent(db.trades, p, cfg.risk.losses);
  }

  lemma AskGivesEntry(cfg: Config, e: real)
    requires cfg.slippageBps > -10000.0
    ensures EntryPrice(cfg, AskFor(cfg, e)) == e
  {
  }

  lemma OrderIsPriced(cfg: Config, s: Sys, p: Pair, side: Signal, n: nat, e: real)
    requires p in cfg.bots && cfg.slippageBps > -10000.0 && Unsettled(s.db.trades, n) && 0.0 < e < 1.0
    requires e <= if side == BuyYes then cfg.bots[p].maxEntryYes else cfg.bots[p].maxEntryNo
    ensures var order := OrderOn(cfg, s, p, OfferFor(cfg, p, side, n, e));
      && order.Some? && order.value.market == Some(Name(n + 1)) && order.value.entry == e
      && order.value.pair == p && order.value.signal == side && order.value.Open()
      && order.value.size == OrderSize(cfg, s.db, p, Current(s.db, p), Unknown)
  {
    AskGivesEntry(cfg, e);
  }

  lemma RestedPermits(cfg: Config, s: Sys, p: Pair, q: Pair, initial: real, n: nat, lost: real, e: real)
    requires Rivals(cfg, p, q) && Rested(s, p, q, initial, n, lost) && Enough(cfg, initial, lost)
    requires Cheap(cfg, p, q, e) && Risk.BalancedEnough(cfg.risk, n, n)
    ensures Permitted(cfg, s, p, OfferFor(cfg, p, BuyYes, n, e))
    ensures Permitted(cfg, s, q, OfferFor(cfg, q, BuyNo, n, e))
  {
    DrawdownPasses(cfg, s.db.bank, p, q, initial, lost);
    NoStreak(cfg, s.db, p, n);
    NoStreak(cfg, s.db, q, n);
    OrderIsPriced(cfg, s, p, BuyYes, n, e);
    OrderIsPriced(cfg, s, q, BuyNo, n, e);
  }

  // ---- one round: both get ready, book, pay gas, count, and wait for the next window ----

  function Ended(p: Pair, q: Pair): seq<Action> {
    [Charge(p), Charge(q)] + ([Count(p), Count(q)] + [Tick(900.0)])
  }

  function Booked2(cfg: Config, s: Sys, p: Pair, q: Pair, tp: Trade, tq: Trade): Sys {
    Staged(Staged(s.(db := Reserve(Reserve(s.db, tp).0, tq).0), p, Booked), q, Booked)
  }

  function Paid2(cfg: Config, s: Sys, p: Pair, q: Pair): Sys {
    Staged(Staged(s.(db := Deduct(Deduct(s.db, p, cfg.gas), q, cfg.gas)), p, Charged), q, Charged)
  }

  function Counted2(s: Sys, p: Pair, q: Pair): Sys {
    var counts := Windows.Recorded(Windows.Recorded(s.counts, p, Seconds(s)), q, Seconds(s));
    Staged(Staged(s.(counts := counts), p, Idle), q, Idle)
  }

  lemma BookStep(cfg: Config, s: Sys, p: Pair)
    requires p in cfg.bots && StageOf(s, p).Ready?
    requires Reserve(s.db, StageOf(s, p).order.(placedAt := s.clock)).1.Some?
    ensures Step(cfg, s, Book(p))
         == Staged(s.(db := Reserve(s.db, StageOf(s, p).order.(placedAt := s.clock)).0), p, Booked)
  {
  }

  lemma ChargeStep(cfg: Config, s: Sys, p: Pair)
    requires p in cfg.bots && StageOf(s, p).Booked?
    ensures Step(cfg, s, Charge(p)) == Staged(s.(db := Deduct(s.db, p, cfg.gas)), p, Charged)
  {
  }

  lemma CountStep(cfg: Config, s: Sys, p: Pair)
    requires p in cfg.bots && StageOf(s, p).Charged?
    ensures Step(cfg, s, Count(p))
         == Staged(s.(counts := Windows.Recorded(s.counts, p, Seconds(s))), p, Idle)
  {
  }

  lemma BookTwo(cfg: Config, s: Sys, p: Pair, q: Pair, tp: Trade, tq: Trade)
    requires Proper(cfg) && Tidy(cfg, s) && Solvent(cfg, s) && p != q && p in cfg.bots && q in cfg.bots
    requires StageOf(s, p).Ready? && tp == StageOf(s, p).order.(placedAt := s.clock)
    requires StageOf(s, q).Ready? && tq == StageOf(s, q).order.(placedAt := s.clock)
    ensures Reserve(s.db, tp).1.Some? && Reserve(Reserve(s.db, tp).0, tq).1.Some?
    ensures Run(cfg, s, [Book(p), Book(q)]) == Booked2(cfg, s, p, q, tp, tq)
  {
    NeverRefused(cfg, s, p);
    BookStep(cfg, s, p);
    var s1 := Step(cfg, s, Book(p));
    TidyStep(cfg, s, Book(p));
    SolventStep(cfg, s, Book(p));
    NeverRefused(cfg, s1, q);
    BookStep(cfg, s1, q);
    RunTwo(cfg, s, Book(p), Book(q));
  }

  lemma PayTwo(cfg: Config, s: Sys, p: Pair, q: Pair)
    requires p != q && p in cfg.bots && q in cfg.bots && StageOf(s, p).Booked? && StageOf(s, q).Booked?
    ensures Run(cfg, s, [Charge(p), Charge(q)]) == Paid2(cfg, s, p, q)
  {
    ChargeStep(cfg, s, p);
    ChargeStep(cfg, Step(cfg, s, Charge(p)), q);
    RunTwo(cfg, s, Charge(p), Charge(q));
  }

  lemma CountTwo(cfg: Config, s: Sys, p: Pair, q: Pair)
    requires p != q && p in cfg.bots && q in cfg.bots && StageOf(s, p).Charged? && StageOf(s, q).Charged?
    ensures Run(cfg, s, [Count(p), Count(q)]) == Counted2(s, p, q)
  {
    CountStep(cfg, s, p);
    CountStep(cfg, Step(cfg, s, Count(p)), q);
    RunTwo(cfg, s, Count(p), Count(q));
  }

  lemma EndedRun(cfg: Config, s: Sys, p: Pair, q: Pair)
    requires p != q && p in cfg.bots && q in cfg.bots && StageOf(s, p).Booked? && StageOf(s, q).Booked?
    ensures Run(cfg, s, Ended(p, q))
         == Counted2(Paid2(cfg, s, p, q), p, q).(clock := s.clock + 900.0)
  {
    var paid := Paid2(cfg, s, p, q);
    RunConcat(cfg, s, [Charge(p), Charge(q)], [Count(p), Count(q)] + [Tick(900.0)]);
    PayTwo(cfg, s, p, q);
    RunConcat(cfg, paid, [Count(p), Count(q)], [Tick(900.0)]);
    CountTwo(cfg, paid, p, q);
    RunOne(cfg, Counted2(paid, p, q), Tick(900.0));
    TickStep(cfg, Counted2(paid, p, q), 900.0);
  }

  // ---- what a round leaves ----

  /** A quarter of an hour later every window is a new one, and nothing is counted in it. */
  lemma NewWindowEmpty(counts: Windows.Counts, now: nat, p: Pair)
    requires Windows.NothingAhead(counts, now)
    ensures Windows.WindowKey(p.asset, now + 900) != Windows.WindowKey(p.asset, now)
    ensures Windows.Lookup(counts, p, Windows.WindowKey(p.asset, now + 900)) == 0
  {
    Windows.KeyStartsMarketWindow(p.asset, now);
    Windows.KeyStartsMarketWindow(p.asset, now + 900);
    assert Windows.MarketWindow(p.asset, now + 900) > now;
  }

  lemma RoundCounts(counts: Windows.Counts, now: nat, p: Pair, q: Pair)
    requires Windows.NothingAhead(counts, now)
    ensures var after := Windows.Recorded(Windows.Recorded(counts, p, now), q, now);
      && Windows.NothingAhead(after, now + 900)
      && Windows.Lookup(after, p, Windows.WindowKey(p.asset, now + 900)) == 0
      && Windows.Lookup(after, q, Windows.WindowKey(q.asset, now + 900)) == 0
  {
    var mid := Windows.Recorded(counts, p, now);
    Windows.RecordCounts(counts, now, now, p, p);
    Windows.RecordCounts(mid, now, now, q, p);
    var after := Windows.Recorded(mid, q, now);
    NewWindowEmpty(after, now, p);
    NewWindowEmpty(after, now, q);
  }

  lemma RoundBank(db: Db, p: Pair, q: Pair, tp: Trade, tq: Trade, gas: real, initial: real, lost: real, more: real)
    requires Intact(db.bank, p, q, initial, lost) && p != q && tp.pair == p && tq.pair == q && gas >= 0.0
    requires 0.0 <= tp.Cost() <= more - gas && 0.0 <= tq.Cost() <= more - gas
    requires Reserve(db, tp).1.Some? && Reserve(Reserve(db, tp).0, tq).1.Some?
    ensures var after := Deduct(Deduct(Reserve(Reserve(db, tp).0, tq).0, p, gas), q, gas);
      Intact(after.bank, p, q, initial, lost + more) && after.trades == db.trades + [tp] + [tq]
  {
  }

  lemma RoundTrades(trades: seq<Trade>, tp: Trade, tq: Trade, asset: string, n: nat)
    requires Unsettled(trades, n) && Even(trades, asset, n) && tp.Open() && tq.Open()
    requires tp.pair.asset == tq.pair.asset == asset && tp.signal == BuyYes && tq.signal == BuyNo
    requires tp.market == tq.market == Some(Name(n + 1))
    ensures var after := trades + [tp] + [tq]; Unsettled(after, n + 1) && Even(after, asset, n + 1)
  {
    CountAppend(trades, tp, asset, BuyYes);
    CountAppend(trades, tp, asset, BuyNo);
    CountAppend(trades + [tp], tq, asset, BuyYes);
    CountAppend(trades + [tp], tq, asset, BuyNo);
  }

  lemma CostAtMost(cfg: Config, db: Db, p: Pair, t: Trade, initial: real, e: real)
    requires Proper(cfg) && 1.0 <= Current(db, p) <= initial && 0.0 < e < 1.0
    requires t.entry == e && t.size == OrderSize(cfg, db, p, Current(db, p), Unknown)
    ensures 0.0 <= t.Cost() <= Stake(e, initial)
  {
    OrderSizeWithin(cfg, db, p, Current(db, p), Unknown);
    StakeGrows(e, t.size, initial);
  }

  lemma StakeGrows(e: real, a: real, b: real)
    requires e > 0.0 && 0.0 <= a <= b
    ensures 0.0 <= Stake(e, a) <= Stake(e, b)
  {
    ProductSign(a, e);
    ProductSign(b - a, e);
    assert (b - a) * e == b * e - a * e;
  }

  function Round(cfg: Config, p: Pair, q: Pair, n: nat, e: real): seq<Action>
    requires p in cfg.bots && q in cfg.bots && cfg.slippageBps > -10000.0
  {
    Prep(p, OfferFor(cfg, p, BuyYes, n, e)) + Prep(q, OfferFor(cfg, q, BuyNo, n, e)) + [Book(p), Book(q)] + Ended(p, q)
  }

  lemma RoundRun(cfg: Config, s: Sys, p: Pair, q: Pair, initial: real, n: nat, lost: real, e: real)
    requires Rivals(cfg, p, q) && Going(cfg, s, p, q, initial, n, lost)
    requires Enough(cfg, initial, lost) && Cheap(cfg, p, q, e) && Risk.BalancedEnough(cfg.risk, n, n)
    ensures var op, oq := OfferFor(cfg, p, BuyYes, n, e), OfferFor(cfg, q, BuyNo, n, e);
      && OrderOn(cfg, s, p, op).Some? && OrderOn(cfg, s, q, oq).Some?
      && var tp, tq := OrderOn(cfg, s, p, op).value, OrderOn(cfg, s, q, oq).value;
         && Reserve(s.db, tp).1.Some? && Reserve(Reserve(s.db, tp).0, tq).1.Some?
         && Run(cfg, s, Round(cfg, p, q, n, e))
            == Counted2(Paid2(cfg, Booked2(cfg, BothReady(cfg, s, p, op, q, oq), p, q, tp, tq), p, q), p, q)
               .(clock := s.clock + 900.0)
  {
    var op, oq := OfferFor(cfg, p, BuyYes, n, e), OfferFor(cfg, q, BuyNo, n, e);
    RestedPermits(cfg, s, p, q, initial, n, lost, e);
    var tp, tq := OrderOn(cfg, s, p, op).value, OrderOn(cfg, s, q, oq).value;
    var ready := BothReady(cfg, s, p, op, q, oq);
    var prep := Prep(p, op) + Prep(q, oq);
    BothReadyRun(cfg, s, p, op, q, oq);
    TidyRun(cfg, s, prep);
    SolventRun(cfg, s, prep);
    BookTwo(cfg, ready, p, q, tp, tq);
    EndedRun(cfg, Booked2(cfg, ready, p, q, tp, tq), p, q);
    RunConcat(cfg, s, prep, [Book(p), Book(q)]);
    RunConcat(cfg, s, prep + [Book(p), Book(q)], Ended(p, q));
  }

  /** A round puts one more bet on each side, and the two bots can go on. */
  lemma RoundRests(cfg: Config, s: Sys, p: Pair, q: Pair, initial: real, n: nat, lost: real, e: real)
    requires Rivals(cfg, p, q) && Going(cfg, s, p, q, initial, n, lost)
    requires Enough(cfg, initial, lost) && Cheap(cfg, p, q, e) && Risk.BalancedEnough(cfg.risk, n, n)
    ensures Rested(Run(cfg, s, Round(cfg, p, q, n, e)), p, q, initial, n + 1, lost + (Stake(e, initial) + cfg.gas))
  {
    var op, oq := OfferFor(cfg, p, BuyYes, n, e), OfferFor(cfg, q, BuyNo, n, e);
    RoundRun(cfg, s, p, q, initial, n, lost, e);
    var tp, tq := OrderOn(cfg, s, p, op).value, OrderOn(cfg, s, q, oq).value;
    OrderIsPriced(cfg, s, p, BuyYes, n, e);
    OrderIsPriced(cfg, s, q, BuyNo, n, e);
    CostAtMost(cfg, s.db, p, tp, initial, e);
    CostAtMost(cfg, s.db, q, tq, initial, e);
    var ready := BothReady(cfg, s, p, op, q, oq);
    RoundParts(cfg, ready, p, q, tp, tq);
    assert ready.cooldown == map[];
    var end := Run(cfg, s, Round(cfg, p, q, n, e));
    BooksParts(cfg, s.db, end.db, p, q, tp, tq, initial, n, lost, Stake(e, initial) + cfg.gas);
    ClearParts(s, end, p, q);
  }

  lemma RoundParts(cfg: Config, s: Sys, p: Pair, q: Pair, tp: Trade, tq: Trade)
    ensures var end := Counted2(Paid2(cfg, Booked2(cfg, s, p, q, tp, tq), p, q), p, q);
      && end.db == Deduct(Deduct(Reserve(Reserve(s.db, tp).0, tq).0, p, cfg.gas), q, cfg.gas)
      && end.counts == Windows.Recorded(Windows.Recorded(s.counts, p, Seconds(s)), q, Seconds(s))
      && end.cooldown == s.cooldown && end.clock == s.clock
      && p in end.stages && q in end.stages && end.stages[p] == Idle && end.stages[q] == Idle
  {
  }

  lemma SecondsAfter(s: Sys, s': Sys)
    requires s.clock >= 0.0 && s'.clock == s.clock + 900.0
    ensures Seconds(s') == Seconds(s) + 900
  {
  }

  lemma BooksParts(
    cfg: Config, db: Db, db': Db, p: Pair, q: Pair, tp: Trade, tq: Trade,
    initial: real, n: nat, lost: real, more: real)
    requires Books(db, p, q, initial, n, lost) && p != q && p.asset == q.asset && cfg.gas >= 0.0
    requires tp.pair == p && tp.Open() && tp.signal == BuyYes && tp.market == Some(Name(n + 1))
    requires tq.pair == q && tq.Open() && tq.signal == BuyNo && tq.market == Some(Name(n + 1))
    requires 0.0 <= tp.Cost() <= more - cfg.gas && 0.0 <= tq.Cost() <= more - cfg.gas
    requires Reserve(db, tp).1.Some? && Reserve(Reserve(db, tp).0, tq).1.Some?
    requires db' == Deduct(Deduct(Reserve(Reserve(db, tp).0, tq).0, p, cfg.gas), q, cfg.gas)
    ensures Books(db', p, q, initial, n + 1, lost + more)
  {
    RoundBank(db, p, q, tp, tq, cfg.gas, initial, lost, more);
    RoundTrades(db.trades, tp, tq, p.asset, n);
  }

  lemma ClearParts(s: Sys, s': Sys, p: Pair, q: Pair)
    requires Clear(s, p, q)
    requires s'.counts == Windows.Recorded(Windows.Recorded(s.counts, p, Seconds(s)), q, Seconds(s))
    requires s'.cooldown == map[] && s'.clock == s.clock + 900.0
    requires p in s'.stages && q in s'.stages && s'.stages[p] == Idle && s'.stages[q] == Idle
    ensures Clear(s', p, q)
  {
    RoundCounts(s.counts, Seconds(s), p, q);
    SecondsAfter(s, s');
  }

  // ---- many rounds ----

  lemma {:induction false} SpentGrows(step: real, k: nat)
    requires step >= 0.0
    ensures Guarantees.GasFor(step, k) >= 0.0
  {
    if k > 0 {
      SpentGrows(step, k - 1);
    }
  }

  /** The most either bot can have spent after k rounds. */
  function Spent(cfg: Config, initial: real, e: real, k: nat): real {
    Guarantees.GasFor(Stake(e, initial) + cfg.gas, k)
  }

  /** The money lasts to the start of round k. */
  predicate Lasts(cfg: Config, initial: real, e: real, k: nat) {
    k > 0 ==> Enough(cfg, initial, Spent(cfg, initial, e, k - 1))
  }

  lemma LastsBefore(cfg: Config, initial: real, e: real, k: nat)
    requires cfg.gas >= 0.0 && e > 0.0 && initial >= 0.0 && Lasts(cfg, initial, e, k + 1)
    ensures Lasts(cfg, initial, e, k)
  {
    StakeGrows(e, 0.0, initial);
    if k > 0 {
      SpentGrows(Stake(e, initial) + cfg.gas, k - 1);
    }
  }

  /** One more round at the end of a run. */
  lemma RoundAfter(
    cfg: Config, s: Sys, before: seq<Action>, p: Pair, q: Pair, initial: real, n: nat, lost: real, e: real)
    requires Rivals(cfg, p, q) && Going(cfg, Run(cfg, s, before), p, q, initial, n, lost)
    requires Enough(cfg, initial, lost) && Cheap(cfg, p, q, e) && Risk.BalancedEnough(cfg.risk, n, n)
    ensures Going(cfg, Run(cfg, s, before + Round(cfg, p, q, n, e)), p, q, initial, n + 1,
                  lost + (Stake(e, initial) + cfg.gas))
  {
    var mid, round := Run(cfg, s, before), Round(cfg, p, q, n, e);
    RoundRests(cfg, mid, p, q, initial, n, lost, e);
    TidyRun(cfg, mid, round);
    SolventRun(cfg, mid, round);
    RunConcat(cfg, s, before, round);
  }

  lemma NextRound(cfg: Config, s: Sys, before: seq<Action>, p: Pair, q: Pair, initial: real, e: real, k: nat)
    returns (actions: seq<Action>)
    requires Rivals(cfg, p, q) && Cheap(cfg, p, q, e) && Risk.BalancedEnough(cfg.risk, k, k)
    requires Lasts(cfg, initial, e, k + 1)
    requires Going(cfg, Run(cfg, s, before), p, q, initial, k, Spent(cfg, initial, e, k))
    ensures Going(cfg, Run(cfg, s, actions), p, q, initial, k + 1, Spent(cfg, initial, e, k + 1))
  {
    RoundAfter(cfg, s, before, p, q, initial, k, Spent(cfg, initial, e, k), e);
    actions := before + Round(cfg, p, q, k, e);
  }

  /** As long as the money lasts and even books pass, round follows round. */
  lemma {:induction false} RoundsRest(cfg: Config, s: Sys, p: Pair, q: Pair, initial: real, e: real, k: nat)
    returns (actions: seq<Action>)
    requires Rivals(cfg, p, q) && Cheap(cfg, p, q, e) && initial >= 0.0
    requires Going(cfg, s, p, q, initial, 0, Spent(cfg, initial, e, 0))
    requires forall j: nat | j < k :: Risk.BalancedEnough(cfg.risk, j, j)
    requires Lasts(cfg, initial, e, k)
    ensures Going(cfg, Run(cfg, s, actions), p, q, initial, k, Spent(cfg, initial, e, k))
    decreases k
  {
    if k == 0 {
      actions := [];
    } else {
      LastsBefore(cfg, initial, e, k - 1);
      var before := RoundsRest(cfg, s, p, q, initial, e, k - 1);
      actions := NextRound(cfg, s, before, p, q, initial, e, k - 1);
    }
  }

  lemma SeededIsRested(cfg: Config, accounts: set<Pair>, initial: real, clock: real, p: Pair, q: Pair)
    requires Rivals(cfg, p, q) && cfg.bots.Keys <= accounts && initial > -cfg.gas && clock >= 0.0
    ensures Going(cfg, Init(cfg, accounts, initial, clock), p, q, initial, 0, 0.0)
  {
    Guarantees.HealthyAtStart(cfg, accounts, initial, clock);
  }

  /** From a seeded system: k rounds of two bots have 2k trades of the asset open. */
  lemma RoundsFromSeed(
    cfg: Config, accounts: set<Pair>, initial: real, clock: real, p: Pair, q: Pair, e: real, k: nat)
    returns (actions: seq<Action>)
    requires Rivals(cfg, p, q) && cfg.bots.Keys <= accounts && clock >= 0.0 && Cheap(cfg, p, q, e) && k > 0
    requires forall j: nat | j < k :: Risk.BalancedEnough(cfg.risk, j, j)
    requires Lasts(cfg, initial, e, k)
    ensures OpenOn(Run(cfg, Init(cfg, accounts, initial, clock), actions).db.trades, p.asset) == 2 * k
  {
    SeededIsRested(cfg, accounts, initial, clock, p, q);
    actions := RoundsRest(cfg, Init(cfg, accounts, initial, clock), p, q, initial, e, k);
  }

  // ---- the cap, exactly ----

  /** Every bot of the asset is willing, and the seed survives one order's gas with something to spare. */
  ghost predicate AbleToTrade(cfg: Config, asset: string, initial: real) {
    && (forall p | p in cfg.bots && p.asset == asset :: Willing(cfg, p))
    && cfg.risk.losses >= 1 && cfg.slippageBps > -10000.0
    && initial - cfg.gas > 1.0
    && cfg.gas < Allowance(cfg.risk.disable, initial) && cfg.gas < Allowance(cfg.risk.pause, initial)
  }

  ghost predicate OneBot(cfg: Config, asset: string) {
    forall p, q | p in cfg.bots && q in cfg.bots && p.asset == asset && q.asset == asset :: p == q
  }

  /** A price low enough for both bots and for what is left of the seed. */
  lemma LowPrice(cfg: Config, p: Pair, q: Pair, initial: real, slack: real) returns (e: real)
    requires Willing(cfg, p) && Willing(cfg, q) && initial > 0.0 && slack > 0.0
    ensures Cheap(cfg, p, q, e) && Stake(e, initial) <= slack
  {
    var share := slack / initial;
    QuotientOrder(0.0, slack, initial);
    e := Min(Min(0.5, share), Min(cfg.bots[p].maxEntryYes, cfg.bots[q].maxEntryNo));
    assert share * initial == slack;
    ProductSign(share - e + 1.0, initial);
    StakeAtMost(e, share, initial);
  }

  lemma StakeAtMost(e: real, share: real, initial: real)
    requires e <= share && initial > 0.0
    ensures Stake(e, initial) <= share * initial
  {
    if e < share {
      ProductSign(share - e, initial);
    }
  }

  lemma TwoBotsReachFour(cfg: Config, accounts: set<Pair>, initial: real, clock: real, p: Pair, q: Pair)
    returns (actions: seq<Action>)
    requires Rivals(cfg, p, q) && cfg.bots.Keys <= accounts && clock >= 0.0
    requires AbleToTrade(cfg, p.asset, initial)
    ensures OpenOn(Run(cfg, Init(cfg, accounts, initial, clock), actions).db.trades, p.asset) == 4
  {
    var slack := Min(initial - cfg.gas - 1.0,
                     Min(Allowance(cfg.risk.disable, initial), Allowance(cfg.risk.pause, initial)) - cfg.gas);
    var e := LowPrice(cfg, p, q, initial, slack / 2.0);
    StakeGrows(e, 0.0, initial);
    OneStep(Stake(e, initial) + cfg.gas);
    SmallBooksPass(cfg);
    EnoughAfterOne(cfg, initial, Stake(e, initial), slack);
    actions := RoundsFromSeed(cfg, accounts, initial, clock, p, q, e, 2);
  }

  lemma SmallBooksPass(cfg: Config)
    ensures forall j: nat | j < 2 :: Risk.BalancedEnough(cfg.risk, j, j)
  {
  }

  lemma EnoughAfterOne(cfg: Config, initial: real, stake: real, slack: real)
    requires 0.0 <= stake <= slack / 2.0 && slack > 0.0 && cfg.gas >= 0.0
    requires slack <= initial - cfg.gas - 1.0
    requires slack <= Min(Allowance(cfg.risk.disable, initial), Allowance(cfg.risk.pause, initial)) - cfg.gas
    ensures Enough(cfg, initial, stake + cfg.gas)
  {
  }

  lemma OneStep(step: real)
    ensures Guarantees.GasFor(step, 1) == step
  {
    assert Guarantees.GasFor(step, 0) == 0.0;
  }

  /**
   With the limit below two thirds and bots that can trade at all, an asset stays at three open trades
   over all runs from a seeded system exactly when it has at most one bot.
   */
  lemma CapHoldsExactlyWhen(cfg: Config, asset: string, accounts: set<Pair>, initial: real, clock: real)
    requires Proper(cfg) && cfg.risk.maxUnidirectional < 2.0 / 3.0 && cfg.bots.Keys <= accounts && clock >= 0.0
    requires AbleToTrade(cfg, asset, initial)
    ensures (forall actions :: OpenOn(Run(cfg, Init(cfg, accounts, initial, clock), actions).db.trades, asset) <= 3)
       <==> OneBot(cfg, asset)
  {
    var start := Init(cfg, accounts, initial, clock);
    if OneBot(cfg, asset) {
      Guarantees.HealthyAtStart(cfg, accounts, initial, clock);
      forall actions ensures OpenOn(Run(cfg, start, actions).db.trades, asset) <= 3 {
        OneBotStaysCapped(cfg, start, actions, asset);
      }
    } else {
      var p, q :| p in cfg.bots && q in cfg.bots && p.asset == asset && q.asset == asset && p != q;
      var actions := TwoBotsReachFour(cfg, accounts, initial, clock, p, q);
      assert OpenOn(Run(cfg, start, actions).db.trades, asset) > 3;
    }
  }

  lemma OneBotStaysCapped(cfg: Config, s: Sys, actions: seq<Action>, asset: string)
    requires Proper(cfg) && Tidy(cfg, s) && cfg.risk.maxUnidirectional < 2.0 / 3.0 && OneBot(cfg, asset)
    requires Capped(s, asset)
    ensures OpenOn(Run(cfg, s, actions).db.trades, asset) <= 3
  {
    if p :| p in cfg.bots && p.asset == asset {
      SingleBotAlone(cfg, s, actions, p);
    } else {
      SingleBotAlone(cfg, s, actions, Pair("", asset));
    }
    NeverMoreThanThree(cfg, s, actions, asset);
  }

  // ---- without bound ----

  /** Amounts in proportion: k steps fit into half of what the limits leave of a large enough seed. */
  lemma {:induction false} SpentAtMost(step: real, bound: real, k: nat, m: nat)
    requires k <= m && m > 0 && 0.0 <= step && step * m as real <= bound
    ensures Guarantees.GasFor(step, k) <= bound
  {
    SpentIs(step, k);
    assert step * k as real <= step * m as real;
  }

  lemma {:induction false} SpentIs(step: real, k: nat)
    ensures Guarantees.GasFor(step, k) == step * k as real
  {
    if k > 0 {
      SpentIs(step, k - 1);
      assert step * k as real == step * (k - 1) as real + step;
    }
  }

  /** A seed and a price under which k rounds of two bots spend at most half of what the limits allow. */
  lemma LargeSeed(cfg: Config, p: Pair, q: Pair, k: nat) returns (initial: real, e: real)
    requires Rivals(cfg, p, q) && cfg.risk.disable > 0.0 && cfg.risk.pause > 0.0 && k > 0
    ensures Cheap(cfg, p, q, e) && Enough(cfg, initial, Spent(cfg, initial, e, k - 1))
  {
    var part := Min(1.0, Min(cfg.risk.disable, cfg.risk.pause));
    initial := SeedFor(part, cfg.gas * k as real);
    var room := Allowance(part, initial);
    ProductSign(part, initial);
    PositiveShare(room, k);
    e := LowPrice(cfg, p, q, initial, room / (4.0 * k as real));
    StakeGrows(e, 0.0, initial);
    SpentFits(Stake(e, initial), cfg.gas, room, k);
    SpentAtMost(Stake(e, initial) + cfg.gas, room / 2.0, k - 1, k);
    SpentGrows(Stake(e, initial) + cfg.gas, k - 1);
    HalfIsEnough(cfg, initial, part, Guarantees.GasFor(Stake(e, initial) + cfg.gas, k - 1));
  }

  lemma PositiveShare(room: real, k: nat)
    requires room > 0.0 && k > 0
    ensures room / (4.0 * k as real) > 0.0
  {
    QuotientOrder(0.0, room, 4.0 * k as real);
  }

  lemma SeedFor(part: real, gas: real) returns (initial: real)
    requires 0.0 < part <= 1.0 && gas >= 0.0
    ensures initial >= 4.0 && 4.0 * gas <= Allowance(part, initial)
  {
    var q := 4.0 * gas / part;
    QuotientOrder(0.0, 4.0 * gas, part);
    assert q * part == 4.0 * gas;
    initial := 4.0 + q;
    assert part * initial == part * 4.0 + q * part;
  }

  lemma HalfIsEnough(cfg: Config, initial: real, part: real, lost: real)
    requires initial >= 4.0 && 0.0 < part <= 1.0 && part <= cfg.risk.disable && part <= cfg.risk.pause
    requires 0.0 <= lost <= Allowance(part, initial) / 2.0
    ensures Enough(cfg, initial, lost)
  {
    ProductSign(part, initial);
    assert Allowance(part, initial) > 0.0 && Allowance(1.0, initial) == initial;
    PartOf(part, cfg.risk.disable, initial);
    PartOf(part, cfg.risk.pause, initial);
    PartOf(part, 1.0, initial);
  }

  lemma PartOf(part: real, limit: real, initial: real)
    requires part <= limit && initial > 0.0
    ensures Allowance(part, initial) <= Allowance(limit, initial)
  {
    if part < limit {
      ProductSign(limit - part, initial);
    }
  }

  lemma SpentFits(stake: real, gas: real, room: real, k: nat)
    requires k > 0 && stake <= room / (4.0 * k as real) && 4.0 * (gas * k as real) <= room
    ensures (stake + gas) * k as real <= room / 2.0
  {
    var n := k as real;
    var quarter := room / (4.0 * n);
    assert quarter * (4.0 * n) == room;
    assert stake * n <= quarter * n;
    assert (stake + gas) * n == stake * n + gas * n;
  }

  /** From a limit of one half on an even book is never refused: two bots of a large enough seed pass any number. */
  lemma EvenBookGrowsWithoutBound(cfg: Config, accounts: set<Pair>, clock: real, p: Pair, q: Pair, k: nat)
    returns (initial: real, actions: seq<Action>)
    requires Rivals(cfg, p, q) && cfg.bots.Keys <= accounts && clock >= 0.0 && k > 0
    requires cfg.risk.maxUnidirectional >= 0.5 && cfg.risk.disable > 0.0 && cfg.risk.pause > 0.0
    ensures OpenOn(Run(cfg, Init(cfg, accounts, initial, clock), actions).db.trades, p.asset) == 2 * k
  {
    var e;
    initial, e := LargeSeed(cfg, p, q, k);
    forall j: nat | j < k ensures Risk.BalancedEnough(cfg.risk, j, j) {
      EvenBookNeverBlocks(cfg.risk, j);
    }
    actions := RoundsFromSeed(cfg, accounts, initial, clock, p, q, e, k);
  }
}
