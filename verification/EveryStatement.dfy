/**
 The guarantees about whole runs, for calls that are not taken whole: order caps per window, the bets
 of one bot on one market, the cap on open trades, permanent halts and peaks, under any interleaving
 of statements.
 */
module EveryStatement {
  import opened Common
  import opened Interleaving
  import opened Ledger
  import opened Statements
  import P = Protocol
  import Guarantees
  import Growth
  import N = Positions
  import Orders
  import Streaks

  // ---- what one move does to the trades and the stages ----

  datatype Kind = Whole(a: P.Action) | Banked | Closed(id: nat, t: Trade) | Inserted(p: Pair, t: Trade)

  /** Counters, cooldowns and clock are as they were. */
  predicate SameRest(s: P.Sys, s': P.Sys) {
    s'.counts == s.counts && s'.cooldown == s.cooldown && s'.clock == s.clock
  }

  ghost predicate Did(cfg: P.Config, s: P.Sys, s': P.Sys, kind: Kind) {
    match kind
    case Whole(a) => s' == P.Step(cfg, s, a)
    case Banked => SameRest(s, s') && s'.stages == s.stages && s'.db.trades == s.db.trades
    case Closed(id, t) =>
      && SameRest(s, s') && s'.stages == s.stages && OpenAt(s.db.trades, id) && !t.Open()
      && t == s.db.trades[id].(outcome := t.outcome, pnl := t.pnl) && s'.db.trades == s.db.trades[id := t]
    case Inserted(p, t) =>
      && SameRest(s, s') && p in s.stages && s.stages[p].Ready? && P.OrderSane(t, p) && p in cfg.bots
      && t == s.stages[p].order.(placedAt := t.placedAt)
      && s'.stages == s.stages[p := P.Booked] && s'.db.trades == s.db.trades + [t]
  }

  function KindOf(cfg: P.Config, m: Machine, move: Move): Kind {
    match move
    case Act(a) => if Busy(cfg, m, a) || Begun(cfg, m.sys, a).Some? then Banked else Whole(a)
    case PlaceNext(p) => if p in m.placing && m.placing[p].StakeTaken? then Inserted(p, m.placing[p].t) else Banked
    case ResolveNext =>
      if m.resolving.None? then Banked
      else match m.resolving.value
        case RowRead(id, o, pnl, row) => Closed(id, row.(outcome := Some(o), pnl := Some(pnl)))
        case Copied(id, row) =>
          var t := if id < |m.sys.db.trades| then m.sys.db.trades[id] else row;
          Closed(id, t.(outcome := Some(Void), pnl := Some(0.0)))
        case _ => Banked
  }

  lemma KindIs(cfg: P.Config, m: Machine, move: Move)
    requires P.Proper(cfg) && Sound(cfg, m)
    ensures Did(cfg, m.sys, Advance(cfg, m, move).sys, KindOf(cfg, m, move))
  {
    match move
    case Act(_) =>
    case PlaceNext(p) => PlacementIs(cfg, m, p);
    case ResolveNext => ResolverIs(cfg, m);
  }

  lemma PlacementIs(cfg: P.Config, m: Machine, p: Pair)
    requires Sound(cfg, m)
    ensures Did(cfg, m.sys, Advance(cfg, m, PlaceNext(p)).sys, KindOf(cfg, m, PlaceNext(p)))
  {
    if p in m.placing {
      assert OwnOrder(m.placing[p], m.sys.stages[p], p);
      if m.placing[p].StakeTaken? {
        RowStep(cfg, m, p, m.placing[p].t);
      }
    }
  }

  lemma ResolverIs(cfg: P.Config, m: Machine)
    requires Sound(cfg, m)
    ensures Did(cfg, m.sys, Advance(cfg, m, ResolveNext).sys, KindOf(cfg, m, ResolveNext))
  {
  }

  // ---- orders per window ----

  lemma CountsKept(cfg: P.Config, s: P.Sys, s': P.Sys, kind: Kind)
    requires P.Tidy(cfg, s) && Guarantees.CountsWithin(cfg, s) && Did(cfg, s, s', kind)
    ensures Guarantees.CountsWithin(cfg, s')
  {
    if kind.Whole? {
      Guarantees.CountsStep(cfg, s, kind.a);
    }
  }

  lemma {:induction false} CountsForever(cfg: P.Config, m: Machine, moves: seq<Move>)
    requires P.Proper(cfg) && Sound(cfg, m) && Guarantees.CountsWithin(cfg, m.sys)
    ensures Guarantees.CountsWithin(cfg, Drive(cfg, m, moves).sys)
    decreases |moves|
  {
    if |moves| > 0 {
      KindIs(cfg, m, moves[0]);
      CountsKept(cfg, m.sys, Advance(cfg, m, moves[0]).sys, KindOf(cfg, m, moves[0]));
      MoveKeeps(cfg, m, moves[0]);
      CountsForever(cfg, Advance(cfg, m, moves[0]), moves[1..]);
    }
  }

  // ---- the bets of one bot ----

  lemma OrderlyKept(cfg: P.Config, s: P.Sys, s': P.Sys, kind: Kind)
    requires P.Proper(cfg) && P.Tidy(cfg, s) && Orders.Orderly(cfg, s) && Did(cfg, s, s', kind)
    ensures Orders.Orderly(cfg, s')
  {
    match kind
    case Whole(a) => Orders.OrderlyStep(cfg, s, a);
    case Banked =>
    case Closed(id, t) => Orders.CloseKeeps(cfg, s.db.trades, id, t);
    case Inserted(p, t) => InsertedOrderly(cfg, s, s', p, t);
  }

  lemma InsertedOrderly(cfg: P.Config, s: P.Sys, s': P.Sys, p: Pair, t: Trade)
    requires P.Tidy(cfg, s) && Orders.Orderly(cfg, s) && Did(cfg, s, s', Inserted(p, t))
    ensures Orders.Orderly(cfg, s')
  {
    assert Orders.Fits(cfg, s.db.trades, t);
    Orders.PlaceKeeps(cfg, s.db.trades, t);
    forall q | q in s'.stages && s'.stages[q].Ready? ensures Orders.Fits(cfg, s'.db.trades, s'.stages[q].order) {
      assert P.StageSane(s.stages[q], q) && Orders.Fits(cfg, s.db.trades, s.stages[q].order);
    }
  }

  lemma {:induction false} OrderlyForever(cfg: P.Config, m: Machine, moves: seq<Move>)
    requires P.Proper(cfg) && Sound(cfg, m) && Orders.Orderly(cfg, m.sys)
    ensures Orders.Orderly(cfg, Drive(cfg, m, moves).sys)
    decreases |moves|
  {
    if |moves| > 0 {
      KindIs(cfg, m, moves[0]);
      OrderlyKept(cfg, m.sys, Advance(cfg, m, moves[0]).sys, KindOf(cfg, m, moves[0]));
      MoveKeeps(cfg, m, moves[0]);
      OrderlyForever(cfg, Advance(cfg, m, moves[0]), moves[1..]);
    }
  }

  // ---- open trades of an asset ----

  lemma CappedKept(cfg: P.Config, s: P.Sys, s': P.Sys, kind: Kind, asset: string)
    requires P.Proper(cfg) && P.Tidy(cfg, s) && cfg.risk.maxUnidirectional < 2.0 / 3.0
    requires N.Capped(s, asset) && Did(cfg, s, s', kind) && (kind.Whole? ==> N.Alone(s, kind.a, asset))
    ensures N.Capped(s', asset)
  {
    match kind
    case Whole(a) => N.CappedStep(cfg, s, a, asset);
    case Banked =>
    case Closed(id, t) =>
      N.CountUpdate(s.db.trades, id, t, asset, BuyYes);
      N.CountUpdate(s.db.trades, id, t, asset, BuyNo);
    case Inserted(p, t) => InsertedCapped(cfg, s, s', p, t, asset);
  }

  lemma InsertedCapped(cfg: P.Config, s: P.Sys, s': P.Sys, p: Pair, t: Trade, asset: string)
    requires N.Capped(s, asset) && Did(cfg, s, s', Inserted(p, t))
    ensures N.Capped(s', asset)
  {
    N.CountAppend(s.db.trades, t, asset, BuyYes);
    N.CountAppend(s.db.trades, t, asset, BuyNo);
    if p.asset == asset {
      assert N.Checked(s.stages[p]);
      forall q | q in s'.stages && q.asset == asset ensures !N.Checked(s'.stages[q]) {
        assert q != p ==> !N.Checked(s.stages[q]);
      }
    }
  }

  /** The check is passed only while no other bot of the asset is between check and insert. */
  ghost predicate AllAlone(cfg: P.Config, m: Machine, moves: seq<Move>, asset: string)
    decreases |moves|
  {
    |moves| == 0 ||
    (&& (moves[0].Act? ==> N.Alone(m.sys, moves[0].a, asset))
     && AllAlone(cfg, Advance(cfg, m, moves[0]), moves[1..], asset))
  }

  lemma {:induction false} NeverMoreThanThree(cfg: P.Config, m: Machine, moves: seq<Move>, asset: string)
    requires P.Proper(cfg) && Sound(cfg, m) && cfg.risk.maxUnidirectional < 2.0 / 3.0
    requires N.Capped(m.sys, asset) && AllAlone(cfg, m, moves, asset)
    ensures N.Capped(Drive(cfg, m, moves).sys, asset)
    decreases |moves|
  {
    if |moves| > 0 {
      KindIs(cfg, m, moves[0]);
      CappedKept(cfg, m.sys, Advance(cfg, m, moves[0]).sys, KindOf(cfg, m, moves[0]), asset);
      MoveKeeps(cfg, m, moves[0]);
      NeverMoreThanThree(cfg, Advance(cfg, m, moves[0]), moves[1..], asset);
    }
  }

  lemma {:induction false} OneBotAlone(cfg: P.Config, m: Machine, moves: seq<Move>, asset: string)
    requires P.Proper(cfg) && Sound(cfg, m) && Growth.OneBot(cfg, asset)
    ensures AllAlone(cfg, m, moves, asset)
    decreases |moves|
  {
    if |moves| > 0 {
      if moves[0].Act? {
        OnlyBotAlone(cfg, m.sys, moves[0].a, asset);
      }
      MoveKeeps(cfg, m, moves[0]);
      OneBotAlone(cfg, Advance(cfg, m, moves[0]), moves[1..], asset);
    }
  }

  lemma OnlyBotAlone(cfg: P.Config, s: P.Sys, a: P.Action, asset: string)
    requires P.Tidy(cfg, s) && Growth.OneBot(cfg, asset)
    ensures N.Alone(s, a, asset)
  {
  }

  /**
   With the limit below two thirds and bots that can trade at all, no interleaving of statements from a
   seeded system has more than three trades of the asset open exactly when it has at most one bot.
   */
  lemma CapHoldsExactlyWhen(cfg: P.Config, asset: string, accounts: set<Pair>, initial: real, clock: real)
    requires P.Proper(cfg) && cfg.risk.maxUnidirectional < 2.0 / 3.0 && cfg.bots.Keys <= accounts && clock >= 0.0
    requires Growth.AbleToTrade(cfg, asset, initial)
    ensures var start := Seeded(cfg, accounts, initial, clock);
      (forall moves :: N.OpenOn(Drive(cfg, start, moves).sys.db.trades, asset) <= 3) <==> Growth.OneBot(cfg, asset)
  {
    var start := Seeded(cfg, accounts, initial, clock);
    Guarantees.HealthyAtStart(cfg, accounts, initial, clock);
    assert Sound(cfg, start);
    if Growth.OneBot(cfg, asset) {
      forall moves ensures N.OpenOn(Drive(cfg, start, moves).sys.db.trades, asset) <= 3 {
        OneBotAlone(cfg, start, moves, asset);
        NeverMoreThanThree(cfg, start, moves, asset);
      }
    } else {
      var p, q :| p in cfg.bots && q in cfg.bots && p.asset == asset && q.asset == asset && p != q;
      var actions := Growth.TwoBotsReachFour(cfg, accounts, initial, clock, p, q);
      var moves := RunIsDriven(cfg, start.sys, actions);
      assert N.OpenOn(Drive(cfg, start, moves).sys.db.trades, asset) > 3;
    }
  }

  // ---- permanent halts ----

  ghost predicate Halted(cfg: P.Config, m: Machine, p: Pair) {
    Guarantees.StreakHalt(cfg, m.sys, p) || Guarantees.DrawdownHalt(cfg, m.sys, p)
  }

  /** Rows of other pairs come and go. */
  lemma RowsElsewhere(cfg: P.Config, s: P.Sys, s': P.Sys, kind: Kind, p: Pair)
    requires P.Tidy(cfg, s) && Guarantees.NoneOpen(s, p) && Did(cfg, s, s', kind)
    requires !kind.Whole? && (kind.Inserted? ==> kind.p != p)
    ensures Of(s'.db.trades, p) == Of(s.db.trades, p) && P.StageOf(s', p) == P.StageOf(s, p)
  {
    match kind
    case Banked =>
    case Closed(id, t) =>
      Guarantees.OfMember(s.db.trades, id);
      Guarantees.OfUpdate(s.db.trades, id, t, p);
    case Inserted(q, t) => Guarantees.OfAppend(s.db.trades, t, p);
  }

  /** Moves that write no account and begin or finish no call but those of other pairs. */
  ghost predicate Untouched(m: Machine, m': Machine, p: Pair) {
    && Still(m', p)
    && (p in m.sys.db.bank <==> p in m'.sys.db.bank)
    && (p in m.sys.db.bank ==> m'.sys.db.bank[p] == m.sys.db.bank[p])
  }

  /** With no call on p under way, none begins while it is halted, and its account is not written. */
  lemma NothingBegins(cfg: P.Config, m: Machine, move: Move, p: Pair)
    requires P.Proper(cfg) && Sound(cfg, m) && Still(m, p) && Guarantees.NoneOpen(m.sys, p)
    requires !P.StageOf(m.sys, p).Ready? && !KindOf(cfg, m, move).Whole?
    ensures Untouched(m, Advance(cfg, m, move), p)
  {
    match move
    case Act(a) => NoCallBegins(cfg, m, a, p);
    case PlaceNext(q) => OtherPlacement(cfg, m, q, p);
    case ResolveNext =>
  }

  lemma NoCallBegins(cfg: P.Config, m: Machine, a: P.Action, p: Pair)
    requires Sound(cfg, m) && Still(m, p) && Guarantees.NoneOpen(m.sys, p)
    requires !P.StageOf(m.sys, p).Ready? && !KindOf(cfg, m, Act(a)).Whole?
    ensures Untouched(m, Advance(cfg, m, Act(a)), p)
  {
    if !Busy(cfg, m, a) && !a.Book? {
      var id := m.sys.work.ids[0];
      assert OpenAt(m.sys.db.trades, id);
      Guarantees.OfMember(m.sys.db.trades, id);
    }
  }

  lemma OtherPlacement(cfg: P.Config, m: Machine, q: Pair, p: Pair)
    requires Sound(cfg, m) && Still(m, p)
    ensures Untouched(m, Advance(cfg, m, PlaceNext(q)), p)
  {
    if q in m.placing {
      assert OwnOrder(m.placing[q], m.sys.stages[q], q);
    }
  }

  lemma HaltMove(cfg: P.Config, m: Machine, move: Move, p: Pair)
    requires P.Proper(cfg) && Sound(cfg, m) && Still(m, p) && Halted(cfg, m, p)
    ensures var m' := Advance(cfg, m, move);
      Still(m', p) && Halted(cfg, m', p) && Guarantees.Frozen(m.sys, m'.sys, p)
  {
    KindIs(cfg, m, move);
    var kind := KindOf(cfg, m, move);
    if kind.Whole? {
      Guarantees.HaltStep(cfg, m.sys, kind.a, p);
    } else {
      NothingBegins(cfg, m, move, p);
      RowsElsewhere(cfg, m.sys, Advance(cfg, m, move).sys, kind, p);
      HaltCarries(cfg, m.sys, Advance(cfg, m, move).sys, p);
    }
  }

  lemma HaltCarries(cfg: P.Config, s: P.Sys, s': P.Sys, p: Pair)
    requires Guarantees.Frozen(s, s', p) && P.StageOf(s', p) == P.StageOf(s, p)
    ensures Guarantees.StreakHalt(cfg, s, p) ==> Guarantees.StreakHalt(cfg, s', p)
    ensures Guarantees.DrawdownHalt(cfg, s, p) ==> Guarantees.DrawdownHalt(cfg, s', p)
  {
    Streaks.SameRowsSameStreak(s.db.trades, s'.db.trades, p, cfg.risk.losses);
  }

  /** A halt is for good under any interleaving of statements, once no call on the pair is under way. */
  lemma {:induction false} HaltedForever(cfg: P.Config, m: Machine, moves: seq<Move>, p: Pair)
    requires P.Proper(cfg) && Sound(cfg, m) && Still(m, p) && Halted(cfg, m, p)
    ensures var end := Drive(cfg, m, moves);
      Still(end, p) && Halted(cfg, end, p) && Guarantees.Frozen(m.sys, end.sys, p)
    decreases |moves|
  {
    if |moves| > 0 {
      HaltMove(cfg, m, moves[0], p);
      MoveKeeps(cfg, m, moves[0]);
      HaltedForever(cfg, Advance(cfg, m, moves[0]), moves[1..], p);
    }
  }

  /**
   A settlement that has read the account of a halted pair still writes it, and changes it exactly when
   the pair has spent something since the read or the trade pays something.
   */
  lemma PendingWriteMoves(cfg: P.Config, m: Machine, p: Pair)
    requires Sound(cfg, m) && p in m.sys.db.bank && ReadOf(m.resolving, p).Some?
    ensures var m' := Advance(cfg, m, ResolveNext);
      p in m'.sys.db.bank &&
      (m'.sys.db.bank[p] == m.sys.db.bank[p] <==>
         && m.sys.db.bank[p].current == ReadOf(m.resolving, p).value.current
         && m.resolving.value.row.Cost() + m.resolving.value.pnl == 0.0)
  {
    assert Covered(cfg, P.StageOf(m.sys, p), PlacementOf(m.placing, p), m.sys.db.bank[p]);
    assert UpToDate(ReadOf(m.resolving, p), m.sys.db.bank[p]);
  }

  // ---- peaks ----

  /** A peak that rises rises to the balance just written. */
  lemma PeakMoves(cfg: P.Config, m: Machine, move: Move, p: Pair)
    requires P.Proper(cfg) && Sound(cfg, m) && p in m.sys.db.bank
    ensures var m' := Advance(cfg, m, move);
      p in m'.sys.db.bank && m'.sys.db.bank[p].peak == Max(m.sys.db.bank[p].peak, m'.sys.db.bank[p].current)
  {
    MoveKeeps(cfg, m, move);
    var m' := Advance(cfg, m, move);
    assert Covered(cfg, P.StageOf(m'.sys, p), PlacementOf(m'.placing, p), m'.sys.db.bank[p]);
    if move.ResolveNext? {
      assert UpToDate(ReadOf(m.resolving, p), m.sys.db.bank[p]);
      ResolverPeaks(m.sys.db, m.resolving, p);
    } else {
      BotsPeaks(cfg, m, move, p);
    }
  }

  lemma ResolverPeaks(db: Db, resolving: Option<Flight>, p: Pair)
    requires p in db.bank && UpToDate(ReadOf(resolving, p), db.bank[p])
    requires resolving.Some? && resolving.value.AccountRead? ==> resolving.value.account.Some?
    ensures resolving.Some? && !resolving.value.BalanceRead? ==>
      var after := Next(db, resolving.value).0;
      && p in after.bank
      && (after.bank[p] == db.bank[p] || after.bank[p].peak == Max(db.bank[p].peak, after.bank[p].current))
  {
  }

  /** Bots never write a peak. */
  lemma BotsPeaks(cfg: P.Config, m: Machine, move: Move, p: Pair)
    requires P.Proper(cfg) && Sound(cfg, m) && p in m.sys.db.bank && !move.ResolveNext?
    ensures var m' := Advance(cfg, m, move); p in m'.sys.db.bank && m'.sys.db.bank[p].peak == m.sys.db.bank[p].peak
  {
    if move.Act? && !Busy(cfg, m, move.a) && Begun(cfg, m.sys, move.a).None? {
      WholeWrites(cfg, m.sys, move.a);
      P.StepFacts(cfg, m.sys, move.a, p);
    }
  }

  ghost function HighestHeld(cfg: P.Config, m: Machine, moves: seq<Move>, p: Pair): real
    decreases |moves|
  {
    if |moves| == 0 then Current(m.sys.db, p)
    else Max(Current(m.sys.db, p), HighestHeld(cfg, Advance(cfg, m, moves[0]), moves[1..], p))
  }

  lemma CurrentIsHeld(cfg: P.Config, m: Machine, moves: seq<Move>, p: Pair)
    ensures HighestHeld(cfg, m, moves, p) >= Current(m.sys.db, p)
  {
  }

  /** Under any interleaving of statements the stored peak is the largest balance ever held. */
  lemma {:induction false} PeakIsHighestHeld(cfg: P.Config, m: Machine, moves: seq<Move>, p: Pair)
    requires P.Proper(cfg) && Sound(cfg, m) && p in m.sys.db.bank
    ensures Peak(Drive(cfg, m, moves).sys.db, p) == Max(Peak(m.sys.db, p), HighestHeld(cfg, m, moves, p))
    decreases |moves|
  {
    if |moves| == 0 {
      assert Covered(cfg, P.StageOf(m.sys, p), PlacementOf(m.placing, p), m.sys.db.bank[p]);
    } else {
      var m' := Advance(cfg, m, moves[0]);
      assert Covered(cfg, P.StageOf(m.sys, p), PlacementOf(m.placing, p), m.sys.db.bank[p]);
      PeakMoves(cfg, m, moves[0], p);
      MoveKeeps(cfg, m, moves[0]);
      PeakIsHighestHeld(cfg, m', moves[1..], p);
      CurrentIsHeld(cfg, m', moves[1..], p);
    }
  }
}
