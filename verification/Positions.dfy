/** How many trades an asset can have open at once under the correlation check. */
module Positions {
  import opened Common
  import opened Ledger
  import opened Protocol
  import Interleaving
  import Risk

  function OpenOn(trades: seq<Trade>, asset: string): nat {
    CountOpen(trades, asset, BuyYes) + CountOpen(trades, asset, BuyNo)
  }

  function Counted(t: Trade, asset: string, sig: Signal): nat {
    if t.Open() && t.pair.asset == asset && t.signal == sig then 1 else 0
  }

  lemma CountAppend(trades: seq<Trade>, t: Trade, asset: string, sig: Signal)
    ensures CountOpen(trades + [t], asset, sig) == CountOpen(trades, asset, sig) + Counted(t, asset, sig)
  {
  }

  lemma {:induction false} CountUpdate(trades: seq<Trade>, i: nat, t: Trade, asset: string, sig: Signal)
    requires i < |trades|
    ensures CountOpen(trades[i := t], asset, sig)
         == CountOpen(trades, asset, sig) - Counted(trades[i], asset, sig) + Counted(t, asset, sig)
  {
    var n := |trades| - 1;
    if i == n {
      assert trades[i := t][..n] == trades[..n];
    } else {
      assert trades[i := t][..n] == trades[..n][i := t];
      CountUpdate(trades[..n], i, t, asset, sig);
    }
  }

  /** Three open trades are refused company, however they are split, exactly below two thirds. */
  lemma ThreeBlockedExactlyWhen(cfg: Risk.Config)
    ensures (forall yes: nat, no: nat | yes + no == 3 :: !Risk.BalancedEnough(cfg, yes, no))
       <==> cfg.maxUnidirectional < 2.0 / 3.0
  {
    if cfg.maxUnidirectional < 2.0 / 3.0 {
      forall yes: nat, no: nat | yes + no == 3 ensures !Risk.BalancedEnough(cfg, yes, no) {
        var dominant := if yes < no then no else yes;
        assert dominant == 2 || dominant == 3;
        assert dominant as real / 3.0 >= 2.0 / 3.0;
      }
    } else {
      assert Risk.BalancedEnough(cfg, 2, 1);
    }
  }

  /** An evenly split book is never refused, whatever its size: the check bounds only small books. */
  lemma EvenBookNeverBlocks(cfg: Risk.Config, n: nat)
    ensures cfg.maxUnidirectional >= 0.5 ==> Risk.BalancedEnough(cfg, n, n)
    ensures n >= 2 && cfg.maxUnidirectional < 0.5 ==> !Risk.BalancedEnough(cfg, n, n)
  {
    if n > 0 {
      assert n as real / (n + n) as real == 0.5 by {
        assert (n + n) as real == 2.0 * n as real;
        assert 0.5 * (n + n) as real == n as real;
      }
    }
  }

  // ---- the cap ----

  /** Past the correlation check but not yet in the trades table. */
  predicate Checked(st: Stage) {
    st.Balanced? || st.Cleared? || st.Ready?
  }

  ghost predicate NoneChecked(s: Sys, asset: string, except: Pair) {
    forall q | q in s.stages && q.asset == asset && q != except :: !Checked(s.stages[q])
  }

  /** A bot passes the check only while no other bot of the asset is between check and insert. */
  ghost predicate Alone(s: Sys, a: Action, asset: string) {
    a.CheckCorrelation? && a.p.asset == asset && StageOf(s, a.p).Sound? ==> NoneChecked(s, asset, a.p)
  }

  ghost predicate AllAlone(cfg: Config, s: Sys, actions: seq<Action>, asset: string)
    decreases |actions|
  {
    |actions| == 0 || (Alone(s, actions[0], asset) && AllAlone(cfg, Step(cfg, s, actions[0]), actions[1..], asset))
  }

  /** At most three, and at most two while a bot is about to add one; at most one bot is. */
  ghost predicate Capped(s: Sys, asset: string) {
    && OpenOn(s.db.trades, asset) <= 3
    && (forall p | p in s.stages && p.asset == asset && Checked(s.stages[p]) ::
          OpenOn(s.db.trades, asset) <= 2 && NoneChecked(s, asset, p))
  }

  lemma OpenAfterCall(cfg: Config, db: Db, op: Interleaving.Op, asset: string)
    requires GoodCall(cfg, db, op)
    ensures OpenOn(Interleaving.Whole(db, op).trades, asset)
         <= OpenOn(db.trades, asset) + if op.Place? && op.t.pair.asset == asset then 1 else 0
    ensures op.Place? && op.t.pair.asset == asset && Reserve(db, op.t).1.Some? ==>
      OpenOn(Interleaving.Whole(db, op).trades, asset) == OpenOn(db.trades, asset) + 1
  {
    match op
    case Place(t) =>
      CountAppend(db.trades, t, asset, BuyYes);
      CountAppend(db.trades, t, asset, BuyNo);
    case Fee(_, _) =>
    case Settle(id, o, pnl) =>
      var t := db.trades[id].(outcome := Some(o), pnl := Some(pnl));
      CountUpdate(db.trades, id, t, asset, BuyYes);
      CountUpdate(db.trades, id, t, asset, BuyNo);
    case Discard(id) =>
      var t := db.trades[id].(outcome := Some(Void), pnl := Some(0.0));
      CountUpdate(db.trades, id, t, asset, BuyYes);
      CountUpdate(db.trades, id, t, asset, BuyNo);
  }

  lemma OpenAfterStep(cfg: Config, s: Sys, a: Action, asset: string)
    requires Proper(cfg) && Tidy(cfg, s)
    ensures OpenOn(Step(cfg, s, a).db.trades, asset) <= OpenOn(s.db.trades, asset)
      + if a.Book? && a.p.asset == asset && StageOf(s, a.p).Ready? then 1 else 0
  {
    StepFacts(cfg, s, a, Pair("", ""));
    CallsAreGood(cfg, s, a);
    var call := Call(cfg, s, a);
    if call.Some? {
      if a.Book? {
        assert StageSane(StageOf(s, a.p), a.p);
      }
      OpenAfterCall(cfg, s.db, call.value, asset);
    }
  }

  lemma CheckedAfter(cfg: Config, s: Sys, a: Action, p: Pair)
    requires p in cfg.bots
    ensures Checked(StageAfter(cfg, s, p, a)) ==>
      if Checked(StageOf(s, p)) then !(a.Book? && StageOf(s, p).Ready?)
      else a.CheckCorrelation? && StageOf(s, p).Sound? && Risk.CorrelationOk(cfg.risk, s.db.trades, p.asset)
  {
  }

  lemma CappedStep(cfg: Config, s: Sys, a: Action, asset: string)
    requires Proper(cfg) && Tidy(cfg, s) && cfg.risk.maxUnidirectional < 2.0 / 3.0
    requires Capped(s, asset) && Alone(s, a, asset)
    ensures Capped(Step(cfg, s, a), asset)
  {
    var s' := Step(cfg, s, a);
    OpenAfterStep(cfg, s, a, asset);
    ThreeBlockedExactlyWhen(cfg.risk);
    forall q ensures StageOf(s', q)
                  == if ByBot(a) && a.p == q && q in cfg.bots then StageAfter(cfg, s, q, a) else StageOf(s, q)
    {
      StepFacts(cfg, s, a, q);
    }
    if ByBot(a) && a.p in cfg.bots {
      CheckedAfter(cfg, s, a, a.p);
    }
    forall p | p in s'.stages && p.asset == asset && Checked(s'.stages[p])
      ensures OpenOn(s'.db.trades, asset) <= 2 && NoneChecked(s', asset, p)
    {
      CheckedBefore(cfg, s, a, p, asset);
    }
  }

  lemma CheckedBefore(cfg: Config, s: Sys, a: Action, p: Pair, asset: string)
    requires Proper(cfg) && Tidy(cfg, s) && cfg.risk.maxUnidirectional < 2.0 / 3.0
    requires Capped(s, asset) && Alone(s, a, asset) && p.asset == asset
    requires p in Step(cfg, s, a).stages && Checked(Step(cfg, s, a).stages[p])
    ensures OpenOn(Step(cfg, s, a).db.trades, asset) <= 2 && NoneChecked(Step(cfg, s, a), asset, p)
  {
    StepFacts(cfg, s, a, p);
    RoomWhenChecked(cfg, s, a, p, asset);
    forall q | q in Step(cfg, s, a).stages && q.asset == asset && q != p ensures !Checked(Step(cfg, s, a).stages[q]) {
      StepFacts(cfg, s, a, q);
      StillUnchecked(cfg, s, a, p, q, asset);
    }
  }

  /** While one bot is past the check, or passes it, no other bot does. */
  lemma StillUnchecked(cfg: Config, s: Sys, a: Action, p: Pair, q: Pair, asset: string)
    requires Alone(s, a, asset) && NoneChecked(s, asset, p) && p.asset == q.asset == asset && q != p
    requires Checked(if ByBot(a) && a.p == p && p in cfg.bots then StageAfter(cfg, s, p, a) else StageOf(s, p))
    ensures !Checked(if ByBot(a) && a.p == q && q in cfg.bots then StageAfter(cfg, s, q, a) else StageOf(s, q))
  {
    assert !Checked(StageOf(s, q));
    if ByBot(a) && a.p == q && q in cfg.bots {
      CheckedAfter(cfg, s, a, q);
      assert p in s.stages;
    }
  }

  /** A bot that is past the check had room before the step, and nobody else was past it. */
  lemma RoomWhenChecked(cfg: Config, s: Sys, a: Action, p: Pair, asset: string)
    requires Proper(cfg) && Tidy(cfg, s) && cfg.risk.maxUnidirectional < 2.0 / 3.0
    requires Capped(s, asset) && Alone(s, a, asset) && p.asset == asset
    requires Checked(if ByBot(a) && a.p == p && p in cfg.bots then StageAfter(cfg, s, p, a) else StageOf(s, p))
    ensures OpenOn(Step(cfg, s, a).db.trades, asset) <= 2 && NoneChecked(s, asset, p)
  {
    OpenAfterStep(cfg, s, a, asset);
    if ByBot(a) && a.p == p && p in cfg.bots {
      CheckedAfter(cfg, s, a, p);
    }
    if Checked(StageOf(s, p)) && a.Book? && a.p.asset == asset {
      OthersCannotBook(s, a, p, asset);
    }
    if !Checked(StageOf(s, p)) {
      ThreeBlockedExactlyWhen(cfg.risk);
    }
  }

  lemma OthersCannotBook(s: Sys, a: Action, p: Pair, asset: string)
    requires Capped(s, asset) && p.asset == asset && Checked(StageOf(s, p)) && a.Book? && a.p.asset == asset
    ensures StageOf(s, a.p).Ready? ==> a.p == p
  {
    assert StageOf(s, p) != Idle && p in s.stages;
  }

  /** From at most three open, an asset whose bots check and insert one at a time never has four. */
  lemma {:induction false} NeverMoreThanThree(cfg: Config, s: Sys, actions: seq<Action>, asset: string)
    requires Proper(cfg) && Tidy(cfg, s) && cfg.risk.maxUnidirectional < 2.0 / 3.0
    requires Capped(s, asset) && AllAlone(cfg, s, actions, asset)
    ensures Capped(Run(cfg, s, actions), asset)
    decreases |actions|
  {
    if |actions| > 0 {
      CappedStep(cfg, s, actions[0], asset);
      TidyStep(cfg, s, actions[0]);
      NeverMoreThanThree(cfg, Step(cfg, s, actions[0]), actions[1..], asset);
    }
  }

  /** An asset with a single bot is checked and inserted one at a time without anyone's help. */
  lemma {:induction false} SingleBotAlone(cfg: Config, s: Sys, actions: seq<Action>, p: Pair)
    requires Proper(cfg) && Tidy(cfg, s) && forall q | q in cfg.bots && q.asset == p.asset :: q == p
    ensures AllAlone(cfg, s, actions, p.asset)
    decreases |actions|
  {
    if |actions| > 0 {
      TidyStep(cfg, s, actions[0]);
      SingleBotAlone(cfg, Step(cfg, s, actions[0]), actions[1..], p);
    }
  }

  lemma BookAdds(cfg: Config, s: Sys, p: Pair)
    requires Proper(cfg) && Tidy(cfg, s) && Solvent(cfg, s) && StageOf(s, p).Ready?
    ensures OpenOn(Step(cfg, s, Book(p)).db.trades, p.asset) == OpenOn(s.db.trades, p.asset) + 1
  {
    StepFacts(cfg, s, Book(p), p);
    NeverRefused(cfg, s, p);
    CallsAreGood(cfg, s, Book(p));
    assert StageSane(StageOf(s, p), p);
    OpenAfterCall(cfg, s.db, Call(cfg, s, Book(p)).value, p.asset);
  }
}
