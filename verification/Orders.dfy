/** What the idempotency and price checks guarantee once orders are in the table, under any interleaving. */
module Orders {
  import opened Common
  import opened Ledger
  import opened Protocol
  import Interleaving

  /** Two open bets of one bot on one market. */
  predicate Twins(a: Trade, b: Trade) {
    a.pair == b.pair && a.Open() && b.Open() && a.market.Some? && a.market == b.market
  }

  /** The entry price is within what the bot allows for that side. */
  predicate Guarded(cfg: Config, t: Trade) {
    t.pair in cfg.bots
    && t.entry <= if t.signal == BuyYes then cfg.bots[t.pair].maxEntryYes else cfg.bots[t.pair].maxEntryNo
  }

  predicate Scaling(cfg: Config, p: Pair) {
    p in cfg.bots && cfg.bots[p].scaling
  }

  /** A bot that does not scale in has at most one open bet on a market. */
  ghost predicate NoTwins(cfg: Config, trades: seq<Trade>) {
    forall i, j | 0 <= i < j < |trades| && Twins(trades[i], trades[j]) :: Scaling(cfg, trades[i].pair)
  }

  /** The order may go in as far as the table is concerned. */
  ghost predicate Fits(cfg: Config, trades: seq<Trade>, t: Trade) {
    && Guarded(cfg, t) && t.market.Some?
    && (Scaling(cfg, t.pair) || !AlreadyOn(trades, t.pair, t.market.value))
  }

  ghost predicate Orderly(cfg: Config, s: Sys) {
    && NoTwins(cfg, s.db.trades)
    && (forall i | 0 <= i < |s.db.trades| :: Guarded(cfg, s.db.trades[i]))
    && (forall p | p in s.stages && s.stages[p].Ready? :: Fits(cfg, s.db.trades, s.stages[p].order))
  }

  lemma PlaceKeeps(cfg: Config, trades: seq<Trade>, t: Trade)
    requires NoTwins(cfg, trades) && Fits(cfg, trades, t) && t.Open()
    ensures NoTwins(cfg, trades + [t])
  {
  }

  lemma CloseKeeps(cfg: Config, trades: seq<Trade>, i: nat, t: Trade)
    requires NoTwins(cfg, trades) && i < |trades| && !t.Open()
    ensures NoTwins(cfg, trades[i := t])
  {
  }

  lemma CallKeeps(cfg: Config, db: Db, op: Interleaving.Op)
    requires GoodCall(cfg, db, op) && NoTwins(cfg, db.trades)
    requires forall i | 0 <= i < |db.trades| :: Guarded(cfg, db.trades[i])
    requires op.Place? ==> Fits(cfg, db.trades, op.t)
    ensures var after := Interleaving.Whole(db, op).trades;
      NoTwins(cfg, after) && forall i | 0 <= i < |after| :: Guarded(cfg, after[i])
  {
    match op
    case Place(t) => PlaceKeeps(cfg, db.trades, t);
    case Fee(_, _) =>
    case Settle(id, o, pnl) => CloseKeeps(cfg, db.trades, id, db.trades[id].(outcome := Some(o), pnl := Some(pnl)));
    case Discard(id) => CloseKeeps(cfg, db.trades, id, db.trades[id].(outcome := Some(Void), pnl := Some(0.0)));
  }

  /** Only the pair's own placement can put the pair on a market. */
  lemma FitsAfterCall(cfg: Config, db: Db, op: Interleaving.Op, t: Trade)
    requires GoodCall(cfg, db, op) && Fits(cfg, db.trades, t) && (op.Place? ==> op.t.pair != t.pair)
    ensures Fits(cfg, Interleaving.Whole(db, op).trades, t)
  {
  }

  lemma PricedFits(
    cfg: Config, db: Db, p: Pair, signal: Signal, budget: real, market: Option<string>, ask: real, regime: Regime,
    now: real)
    requires p in cfg.bots
    ensures var order := PriceOrder(cfg, db, p, signal, budget, market, ask, regime, now);
      order.Some? ==> Fits(cfg, db.trades, order.value)
  {
  }

  lemma OrderlyStep(cfg: Config, s: Sys, a: Action)
    requires Proper(cfg) && Tidy(cfg, s) && Orderly(cfg, s)
    ensures Orderly(cfg, Step(cfg, s, a))
  {
    var s' := Step(cfg, s, a);
    var call := Call(cfg, s, a);
    CallsAreGood(cfg, s, a);
    if call.Some? {
      if a.Book? {
        FitsLater(cfg, s, a.p);
      }
      CallKeeps(cfg, s.db, call.value);
    }
    forall p | p in s'.stages && s'.stages[p].Ready? ensures Fits(cfg, s'.db.trades, s'.stages[p].order) {
      ReadyFits(cfg, s, a, p);
    }
  }

  /** Stamping the order with the time it is written changes nothing about it. */
  lemma FitsLater(cfg: Config, s: Sys, p: Pair)
    requires Orderly(cfg, s)
    ensures StageOf(s, p).Ready? ==> Fits(cfg, s.db.trades, StageOf(s, p).order.(placedAt := s.clock))
  {
  }

  lemma ReadyFits(cfg: Config, s: Sys, a: Action, p: Pair)
    requires Proper(cfg) && Tidy(cfg, s) && Orderly(cfg, s)
    requires p in Step(cfg, s, a).stages && Step(cfg, s, a).stages[p].Ready?
    ensures Fits(cfg, Step(cfg, s, a).db.trades, Step(cfg, s, a).stages[p].order)
  {
    StepFacts(cfg, s, a, p);
    if ByBot(a) && a.p == p && p in cfg.bots {
      ReadyAfter(cfg, s, p, a);
    } else {
      CallsAreGood(cfg, s, a);
      var call := Call(cfg, s, a);
      if call.Some? {
        assert StageSane(StageOf(s, p), p);
        if a.Book? {
          assert StageSane(StageOf(s, a.p), a.p);
        }
        FitsAfterCall(cfg, s.db, call.value, StageOf(s, p).order);
      }
    }
  }

  /** A bot becomes ready by pricing an order, and stays so until it books; neither touches the table. */
  lemma ReadyAfter(cfg: Config, s: Sys, p: Pair, a: Action)
    requires p in cfg.bots && ByBot(a) && a.p == p && Orderly(cfg, s) && StageAfter(cfg, s, p, a).Ready?
    ensures Fits(cfg, s.db.trades, StageAfter(cfg, s, p, a).order) && DbAfter(cfg, s, a) == s.db
  {
    if a.Price? && StageOf(s, p).Cleared? {
      var st := StageOf(s, p);
      PricedFits(cfg, s.db, p, st.signal, st.budget, a.market, a.ask, a.regime, s.clock);
    } else {
      ReadyBefore(cfg, s, p, a);
    }
  }

  lemma ReadyBefore(cfg: Config, s: Sys, p: Pair, a: Action)
    requires p in cfg.bots && ByBot(a) && a.p == p && StageAfter(cfg, s, p, a).Ready?
    requires !(a.Price? && StageOf(s, p).Cleared?)
    ensures StageAfter(cfg, s, p, a) == StageOf(s, p) && p in s.stages && DbAfter(cfg, s, a) == s.db
  {
  }

  /**
   In every reachable state a bot that does not scale in holds at most one open bet per market, and
   every bet ever written was within the bot's price limit for its side: no interleaving of the other
   bots, the resolver and the clock between check and insert can break either.
   */
  lemma {:induction false} OrderlyForever(cfg: Config, s: Sys, actions: seq<Action>)
    requires Proper(cfg) && Tidy(cfg, s) && Orderly(cfg, s)
    ensures Orderly(cfg, Run(cfg, s, actions))
    decreases |actions|
  {
    if |actions| > 0 {
      TidyStep(cfg, s, actions[0]);
      OrderlyStep(cfg, s, actions[0]);
      OrderlyForever(cfg, Step(cfg, s, actions[0]), actions[1..]);
    }
  }

  lemma OrderlyAtStart(cfg: Config, accounts: set<Pair>, initial: real, clock: real)
    ensures Orderly(cfg, Init(cfg, accounts, initial, clock))
  {
  }
}
