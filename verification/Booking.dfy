/** No run books an order that has not passed every check, each against the state of its own moment. */
module Booking {
  import opened Common
  import opened Ledger
  import opened Protocol
  import Risk

  /** How many checks the order has behind it. */
  function Height(st: Stage): nat {
    match st
    case Idle => 0
    case Funded(_, _) => 1
    case Spaced(_, _) => 2
    case Sound(_, _) => 3
    case Balanced(_, _) => 4
    case Cleared(_, _) => 5
    case Ready(_, _) => 6
    case Booked => 7
    case Charged => 8
  }

  /** The k-th check of an order of p, as the outside world and the tables answered it. */
  ghost predicate Passed(cfg: Config, s: Sys, a: Action, p: Pair, k: nat)
    requires p in cfg.bots
  {
    if k == 0 then a.Begin? && a.p == p && !a.signal.Skip? && a.vpn && p in s.db.bank && s.db.bank[p].current >= 1.0
    else if k == 1 then
      a.Space? && a.p == p && OrdersNow(s, p) < cfg.bots[p].maxOrders && a.elapsed <= cfg.bots[p].maxElapsed
    else if k == 2 then a == CheckDrawdown(p) && Risk.DrawdownOk(cfg.risk, s.db.bank, p)
    else if k == 3 then a == CheckCorrelation(p) && Risk.CorrelationOk(cfg.risk, s.db.trades, p.asset)
    else if k == 4 then a == CheckBreaker(p) && Risk.BreakerOk(cfg.risk, s.cooldown, s.db, p, s.clock)
    else
      && a.Price? && a.p == p && a.market.Some?
      && (cfg.bots[p].scaling || forall t | t in s.db.trades && t.pair == p && t.Open() :: t.market != a.market)
      && 0.0 < EntryPrice(cfg, a.ask) < 1.0
  }

  /** What the stage carries of the answers given so far. */
  ghost predicate Carries(cfg: Config, st: Stage, actions: seq<Action>, at: seq<nat>)
    requires forall k | 0 <= k < |at| :: at[k] < |actions|
  {
    match st
    case Ready(_, order) =>
      && |at| == 6 && actions[at[0]].Begin? && actions[at[5]].Price?
      && order.signal == actions[at[0]].signal && order.market == actions[at[5]].market
      && order.entry == EntryPrice(cfg, actions[at[5]].ask)
    case Booked => true
    case Charged => true
    case Idle => true
    case _ => |at| > 0 && actions[at[0]].Begin? && st.signal == actions[at[0]].signal
  }

  /** `at` lists the steps at which the order now under way passed its checks, in their order. */
  ghost predicate History(cfg: Config, s: Sys, actions: seq<Action>, p: Pair, at: seq<nat>)
    requires p in cfg.bots
  {
    && (forall k | 0 <= k < |at| :: at[k] < |actions|)
    && (forall k | 0 <= k < |at| :: Passed(cfg, Run(cfg, s, actions[..at[k]]), actions[at[k]], p, k))
    && (forall j, k | 0 <= j < k < |at| :: at[j] < at[k])
  }

  lemma Climbs(cfg: Config, s: Sys, a: Action, p: Pair)
    requires p in cfg.bots && ByBot(a) && a.p == p
    ensures var st, st' := StageOf(s, p), StageAfter(cfg, s, p, a);
      && (Height(st') == Height(st) ==> st' == st)
      && (Height(st') == Height(st) + 1 && Height(st') <= 6 ==> Passed(cfg, s, a, p, Height(st)))
      && (st' == Idle || Height(st') == Height(st) || Height(st') == Height(st) + 1)
  {
  }

  lemma {:induction false} OrderHistory(cfg: Config, s: Sys, actions: seq<Action>, p: Pair) returns (at: seq<nat>)
    requires p in cfg.bots && StageOf(s, p).Idle?
    ensures var st := StageOf(Run(cfg, s, actions), p);
      Height(st) <= 6 ==> |at| == Height(st) && History(cfg, s, actions, p, at) && Carries(cfg, st, actions, at)
    decreases |actions|
  {
    at := [];
    if |actions| > 0 {
      var n := |actions| - 1;
      var before := OrderHistory(cfg, s, actions[..n], p);
      var mid := Run(cfg, s, actions[..n]);
      assert actions[..n + 1] == actions;
      RunNext(cfg, s, actions, n, mid);
      at := HistoryNext(cfg, s, actions, p, before, mid);
    }
  }

  lemma HistoryNext(cfg: Config, s: Sys, actions: seq<Action>, p: Pair, before: seq<nat>, mid: Sys)
    returns (at: seq<nat>)
    requires p in cfg.bots && |actions| > 0 && mid == Run(cfg, s, actions[..|actions| - 1])
    requires Height(StageOf(mid, p)) <= 6 ==>
      && |before| == Height(StageOf(mid, p)) && History(cfg, s, actions[..|actions| - 1], p, before)
      && Carries(cfg, StageOf(mid, p), actions[..|actions| - 1], before)
    ensures var st := StageOf(Step(cfg, mid, actions[|actions| - 1]), p);
      Height(st) <= 6 ==> |at| == Height(st) && History(cfg, s, actions, p, at) && Carries(cfg, st, actions, at)
  {
    var n := |actions| - 1;
    var a, st := actions[n], StageOf(mid, p);
    var st' := StageOf(Step(cfg, mid, a), p);
    StageMoves(cfg, mid, a, p);
    if ByBot(a) && a.p == p {
      Climbs(cfg, mid, a, p);
    }
    if st' == Idle {
      at := [];
    } else if st' == st {
      at := before;
      if Height(st) <= 6 { HistoryLonger(cfg, s, actions, p, at); }
    } else if Height(st') <= 6 {
      HistoryLonger(cfg, s, actions, p, before);
      at := before + [n];
      OneMorePassed(cfg, s, actions, p, before, mid);
      CarriesOn(cfg, mid, a, p, actions, before);
    } else {
      at := before;
    }
  }

  lemma StageMoves(cfg: Config, s: Sys, a: Action, p: Pair)
    requires p in cfg.bots
    ensures StageOf(Step(cfg, s, a), p) == if ByBot(a) && a.p == p then StageAfter(cfg, s, p, a) else StageOf(s, p)
  {
  }

  lemma HistoryLonger(cfg: Config, s: Sys, actions: seq<Action>, p: Pair, at: seq<nat>)
    requires p in cfg.bots && |actions| > 0 && History(cfg, s, actions[..|actions| - 1], p, at)
    ensures History(cfg, s, actions, p, at)
    ensures forall k | 0 <= k < |at| :: actions[..|actions| - 1][at[k]] == actions[at[k]]
  {
    var n := |actions| - 1;
    forall k | 0 <= k < |at| ensures Passed(cfg, Run(cfg, s, actions[..at[k]]), actions[at[k]], p, k) {
      assert actions[..n][..at[k]] == actions[..at[k]];
    }
  }

  lemma OneMorePassed(cfg: Config, s: Sys, actions: seq<Action>, p: Pair, before: seq<nat>, mid: Sys)
    requires p in cfg.bots && |actions| > 0 && History(cfg, s, actions, p, before)
    requires History(cfg, s, actions[..|actions| - 1], p, before)
    requires mid == Run(cfg, s, actions[..|actions| - 1]) && Passed(cfg, mid, actions[|actions| - 1], p, |before|)
    ensures History(cfg, s, actions, p, before + [|actions| - 1])
  {
  }

  lemma CarriesOn(cfg: Config, s: Sys, a: Action, p: Pair, actions: seq<Action>, before: seq<nat>)
    requires p in cfg.bots && |actions| > 0 && a == actions[|actions| - 1] && ByBot(a) && a.p == p
    requires |before| == Height(StageOf(s, p)) && Height(StageAfter(cfg, s, p, a)) == |before| + 1 <= 6
    requires forall k | 0 <= k < |before| :: before[k] < |actions| - 1
    requires Carries(cfg, StageOf(s, p), actions[..|actions| - 1], before)
    ensures Carries(cfg, StageAfter(cfg, s, p, a), actions, before + [|actions| - 1])
  {
  }

  /**
   Whenever a run writes an order of a bot that started idle, the order has six steps of that run behind
   it, in order: a signal with the tunnel up and a dollar in the account, a window with room and not too
   far gone, the three risk checks, and a market at a valid price that is not held yet.  The row carries
   that signal, that market and that price.
   */
  lemma OnlyCheckedOrdersAreBooked(cfg: Config, s: Sys, actions: seq<Action>, a: Action, p: Pair) returns (at: seq<nat>)
    requires p in cfg.bots && StageOf(s, p).Idle? && a == Book(p)
    requires |Step(cfg, Run(cfg, s, actions), a).db.trades| > |Run(cfg, s, actions).db.trades|
    ensures |at| == 6 && History(cfg, s, actions, p, at)
    ensures var trades := Step(cfg, Run(cfg, s, actions), a).db.trades;
      var row := trades[|trades| - 1];
      && actions[at[0]].Begin? && row.signal == actions[at[0]].signal
      && actions[at[5]].Price? && row.market == actions[at[5]].market
      && row.entry == EntryPrice(cfg, actions[at[5]].ask)
  {
    at := OrderHistory(cfg, s, actions, p);
    assert StageOf(Run(cfg, s, actions), p).Ready?;
  }
}
