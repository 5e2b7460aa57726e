/** The order cap told by the rows: how many orders of a bot were written in one market window. */
module Quota {
  import opened Common
  import opened Ledger
  import opened Protocol
  import Guarantees
  import Interleaving
  import Windows

  function Second(at: real): nat {
    if at < 0.0 then 0 else at.Floor
  }

  predicate WrittenIn(t: Trade, p: Pair, w: Windows.Window) {
    t.pair == p && Windows.WindowKey(p.asset, Second(t.placedAt)) == w
  }

  /** The pair's rows written in the window. */
  function RowsIn(trades: seq<Trade>, p: Pair, w: Windows.Window): nat {
    if |trades| == 0 then 0
    else RowsIn(trades[..|trades| - 1], p, w) + if WrittenIn(trades[|trades| - 1], p, w) then 1 else 0
  }

  lemma RowsAppend(trades: seq<Trade>, t: Trade, p: Pair, w: Windows.Window)
    ensures RowsIn(trades + [t], p, w) == RowsIn(trades, p, w) + if WrittenIn(t, p, w) then 1 else 0
  {
  }

  /** Closing a row does not move it. */
  lemma {:induction false} RowsUpdate(trades: seq<Trade>, i: nat, t: Trade, p: Pair, w: Windows.Window)
    requires i < |trades| && t.pair == trades[i].pair && t.placedAt == trades[i].placedAt
    ensures RowsIn(trades[i := t], p, w) == RowsIn(trades, p, w)
  {
    var n := |trades| - 1;
    if i == n {
      assert trades[i := t][..n] == trades[..n];
    } else {
      assert trades[i := t][..n] == trades[..n][i := t];
      RowsUpdate(trades[..n], i, t, p, w);
    }
  }

  /** No row lies in a window that is still to come. */
  lemma {:induction false} NoneYet(trades: seq<Trade>, now: nat, p: Pair, w: Windows.Window)
    requires (forall t | t in trades :: Second(t.placedAt) <= now) && Windows.Start(w) > now
    ensures RowsIn(trades, p, w) == 0
  {
    if |trades| > 0 {
      var t := trades[|trades| - 1];
      NoneYet(trades[..|trades| - 1], now, p, w);
      Windows.KeyStartsMarketWindow(p.asset, Second(t.placedAt));
    }
  }

  /** One row more than has been counted while an order waits to be. */
  function Uncounted(st: Stage): nat {
    if st.Booked? || st.Charged? then 1 else 0
  }

  function Window(s: Sys, p: Pair): Windows.Window {
    Windows.WindowKey(p.asset, Seconds(s))
  }

  /** Rows were written in the past; those of the current window are counted, but for one on its way. */
  ghost predicate Counted(cfg: Config, s: Sys) {
    && (forall t | t in s.db.trades :: Second(t.placedAt) <= Seconds(s))
    && (forall p | p in cfg.bots :: RowsIn(s.db.trades, p, Window(s, p)) <= OrdersNow(s, p) + Uncounted(StageOf(s, p)))
  }

  /** No window has more rows of a bot than its cap. */
  ghost predicate WithinQuota(cfg: Config, trades: seq<Trade>) {
    forall p, w | p in cfg.bots && RowsIn(trades, p, w) > 0 :: RowsIn(trades, p, w) <= cfg.bots[p].maxOrders
  }

  lemma RowsAfterCall(cfg: Config, db: Db, op: Interleaving.Op, p: Pair, w: Windows.Window)
    requires GoodCall(cfg, db, op)
    ensures RowsIn(Interleaving.Whole(db, op).trades, p, w) == RowsIn(db.trades, p, w)
      + if op.Place? && Reserve(db, op.t).1.Some? && WrittenIn(op.t, p, w) then 1 else 0
  {
    match op
    case Place(t) => RowsAppend(db.trades, t, p, w);
    case Fee(_, _) =>
    case Settle(id, o, pnl) =>
      if id < |db.trades| { RowsUpdate(db.trades, id, db.trades[id].(outcome := Some(o), pnl := Some(pnl)), p, w); }
    case Discard(id) =>
      if id < |db.trades| { RowsUpdate(db.trades, id, db.trades[id].(outcome := Some(Void), pnl := Some(0.0)), p, w); }
  }

  /** Only a booking of p adds a row of p, and it adds it to the current window. */
  lemma RowsAfterStep(cfg: Config, s: Sys, a: Action, p: Pair, w: Windows.Window)
    requires Proper(cfg) && Tidy(cfg, s) && p in cfg.bots
    ensures RowsIn(Step(cfg, s, a).db.trades, p, w) == RowsIn(s.db.trades, p, w)
      + if Books(cfg, s, a, p) && w == Window(s, p) then 1 else 0
  {
    StepFacts(cfg, s, a, p);
    CallsAreGood(cfg, s, a);
    var call := Call(cfg, s, a);
    if call.Some? {
      RowsAfterCall(cfg, s.db, call.value, p, w);
      if a.Book? {
        assert StageSane(StageOf(s, a.p), a.p);
      }
    }
  }

  /** The step writes an order of p. */
  ghost predicate Books(cfg: Config, s: Sys, a: Action, p: Pair) {
    a == Book(p) && p in cfg.bots && StageOf(s, p).Ready?
    && Reserve(s.db, StageOf(s, p).order.(placedAt := s.clock)).1.Some?
  }

  lemma RowComesFrom(db: Db, op: Interleaving.Op, t: Trade)
    requires t in Interleaving.Whole(db, op).trades
    ensures (op.Place? && t == op.t) || exists u :: u in db.trades && u.placedAt == t.placedAt
  {
    var i: nat :| i < |Interleaving.Whole(db, op).trades| && Interleaving.Whole(db, op).trades[i] == t;
    if i < |db.trades| {
      assert db.trades[i].placedAt == t.placedAt;
    }
  }

  lemma RowIsPast(cfg: Config, s: Sys, a: Action, s': Sys, t: Trade)
    requires s' == Step(cfg, s, a) && (forall u | u in s.db.trades :: Second(u.placedAt) <= Seconds(s))
    requires t in s'.db.trades && s'.db == DbAfter(cfg, s, a) && Seconds(s) <= Seconds(s')
    ensures Second(t.placedAt) <= Seconds(s')
  {
    var call := Call(cfg, s, a);
    if call.Some? {
      RowComesFrom(s.db, call.value, t);
    }
  }

  lemma RowsArePast(cfg: Config, s: Sys, a: Action, s': Sys)
    requires Tidy(cfg, s) && (forall t | t in s.db.trades :: Second(t.placedAt) <= Seconds(s))
    requires s' == Step(cfg, s, a)
    ensures forall t | t in s'.db.trades :: Second(t.placedAt) <= Seconds(s')
  {
    StepFacts(cfg, s, a, Pair("", ""));
    assert Seconds(s) <= Seconds(s');
    forall t | t in s'.db.trades ensures Second(t.placedAt) <= Seconds(s') {
      RowIsPast(cfg, s, a, s', t);
    }
  }

  lemma CountedTick(cfg: Config, s: Sys, a: Action, p: Pair, s': Sys)
    requires Proper(cfg) && Tidy(cfg, s) && Counted(cfg, s) && p in cfg.bots && a.Tick? && s' == Step(cfg, s, a)
    ensures RowsIn(s'.db.trades, p, Window(s', p)) <= OrdersNow(s', p) + Uncounted(StageOf(s', p))
  {
    assert s'.db == s.db && s'.stages == s.stages && s'.counts == s.counts && Seconds(s) <= Seconds(s');
    if Window(s', p) != Window(s, p) {
      Rolled(s, s', p);
      NoneYet(s.db.trades, Seconds(s), p, Window(s', p));
    }
  }

  lemma CountedMove(cfg: Config, s: Sys, a: Action, p: Pair, s': Sys)
    requires Proper(cfg) && Tidy(cfg, s) && Guarantees.CountsWithin(cfg, s) && Counted(cfg, s) && p in cfg.bots
    requires !a.Tick? && s' == Step(cfg, s, a)
    ensures RowsIn(s'.db.trades, p, Window(s', p)) <= OrdersNow(s', p) + Uncounted(StageOf(s', p))
  {
    assert Window(s', p) == Window(s, p);
    RowsAfterStep(cfg, s, a, p, Window(s, p));
    StepFacts(cfg, s, a, p);
    CountsMove(cfg, s, a, p);
    StageWaits(cfg, s, a, p);
  }

  lemma CountedStep(cfg: Config, s: Sys, a: Action, p: Pair, s': Sys)
    requires Proper(cfg) && Tidy(cfg, s) && Guarantees.CountsWithin(cfg, s) && Counted(cfg, s) && p in cfg.bots
    requires s' == Step(cfg, s, a)
    ensures RowsIn(s'.db.trades, p, Window(s', p)) <= OrdersNow(s', p) + Uncounted(StageOf(s', p))
  {
    if a.Tick? {
      CountedTick(cfg, s, a, p, s');
    } else {
      CountedMove(cfg, s, a, p, s');
    }
  }

  lemma Rolled(s: Sys, s': Sys, p: Pair)
    requires Seconds(s) <= Seconds(s') && Window(s', p) != Window(s, p)
    ensures Windows.Start(Window(s', p)) > Seconds(s)
  {
    if Windows.Start(Window(s', p)) <= Seconds(s) {
      Windows.StillCurrent(p.asset, Seconds(s), Seconds(s'));
    }
  }

  lemma CountsMove(cfg: Config, s: Sys, a: Action, p: Pair)
    requires Guarantees.CountsWithin(cfg, s) && p in cfg.bots && !a.Tick?
    ensures OrdersNow(Step(cfg, s, a), p) == OrdersNow(s, p) + if a == Count(p) && StageOf(s, p).Charged? then 1 else 0
  {
    if a.Count? && a.p in cfg.bots && StageOf(s, a.p).Charged? {
      Windows.RecordCounts(s.counts, Seconds(s), Seconds(s), a.p, p);
    }
  }

  lemma StageWaits(cfg: Config, s: Sys, a: Action, p: Pair)
    requires p in cfg.bots
    ensures var after := if ByBot(a) && a.p == p then StageAfter(cfg, s, p, a) else StageOf(s, p);
      Uncounted(after) == if Books(cfg, s, a, p) then 1
                          else if a == Count(p) && StageOf(s, p).Charged? then 0 else Uncounted(StageOf(s, p))
  {
  }

  lemma QuotaStep(cfg: Config, s: Sys, a: Action, p: Pair, w: Windows.Window)
    requires Proper(cfg) && Tidy(cfg, s) && Guarantees.CountsWithin(cfg, s) && Counted(cfg, s)
    requires WithinQuota(cfg, s.db.trades) && p in cfg.bots && RowsIn(Step(cfg, s, a).db.trades, p, w) > 0
    ensures RowsIn(Step(cfg, s, a).db.trades, p, w) <= cfg.bots[p].maxOrders
  {
    RowsAfterStep(cfg, s, a, p, w);
    if Books(cfg, s, a, p) && w == Window(s, p) {
      assert p in s.stages && Guarantees.MidOrder(s.stages[p]);
    }
  }

  /**
   In every reachable state no market window has more rows of a bot than the bot's cap, although the
   capacity is checked several awaits before the row is written and counted after it.
   */
  lemma {:induction false} QuotaForever(cfg: Config, s: Sys, actions: seq<Action>)
    requires Proper(cfg) && Tidy(cfg, s) && Guarantees.CountsWithin(cfg, s) && Counted(cfg, s)
    requires WithinQuota(cfg, s.db.trades)
    ensures WithinQuota(cfg, Run(cfg, s, actions).db.trades) && Counted(cfg, Run(cfg, s, actions))
    decreases |actions|
  {
    if |actions| > 0 {
      var a := actions[0];
      forall p, w | p in cfg.bots && RowsIn(Step(cfg, s, a).db.trades, p, w) > 0
        ensures RowsIn(Step(cfg, s, a).db.trades, p, w) <= cfg.bots[p].maxOrders
      {
        QuotaStep(cfg, s, a, p, w);
      }
      forall p | p in cfg.bots
        ensures var s' := Step(cfg, s, a);
          RowsIn(s'.db.trades, p, Window(s', p)) <= OrdersNow(s', p) + Uncounted(StageOf(s', p))
      {
        CountedStep(cfg, s, a, p, Step(cfg, s, a));
      }
      RowsArePast(cfg, s, a, Step(cfg, s, a));
      TidyStep(cfg, s, a);
      Guarantees.CountsStep(cfg, s, a);
      QuotaForever(cfg, Step(cfg, s, a), actions[1..]);
    }
  }

  lemma QuotaAtStart(cfg: Config, accounts: set<Pair>, initial: real, clock: real)
    requires clock >= 0.0
    ensures var s := Init(cfg, accounts, initial, clock);
      Guarantees.CountsWithin(cfg, s) && Counted(cfg, s) && WithinQuota(cfg, s.db.trades)
  {
  }
}
