/**
 What overlapping statements cost, to the cent.  A placement writes the balance it read less the
 stake, a settlement the balance it read plus the payout; whatever was written in between is undone.
 The amounts so undone are the only thing by which the books of a pair are ever off.
 */
module Losses {
  import opened Common
  import opened Interleaving
  import opened Ledger
  import opened Statements
  import P = Protocol
  import Guarantees
  import O = Overlaps

  // ---- what one move takes or undoes ----

  /** Gas the move takes out of p's account. */
  function GasTaken(cfg: P.Config, m: Machine, move: Move, p: Pair): real {
    if move.Act? && move.a.Charge? && move.a.p == p && !Busy(cfg, m, move.a) && P.StageOf(m.sys, p).Booked?
       && p in m.sys.db.bank
    then cfg.gas else 0.0
  }

  /** Payouts that arrived since the placement read the balance, and that its write undoes. */
  function PayoutUndone(m: Machine, move: Move, p: Pair): real {
    if move == PlaceNext(p) && p in m.placing && m.placing[p].BalanceRead? && p in m.sys.db.bank
    then m.sys.db.bank[p].current - m.placing[p].read else 0.0
  }

  /** Stakes and gas taken since the settlement read the account, and that its write undoes. */
  function DeductionUndone(m: Machine, move: Move, p: Pair): real {
    if move.ResolveNext? && p in m.sys.db.bank then Fallen(ReadOf(m.resolving, p), m.sys.db.bank[p]) else 0.0
  }

  function Fallen(read: Option<Account>, a: Account): real {
    if read.Some? then read.value.current - a.current else 0.0
  }

  /** Money on its way: a stake already taken for a row not yet inserted, a payout of a row already marked. */
  function StakeOwed(placing: map<Pair, Flight>, p: Pair): real {
    if p in placing && placing[p].StakeTaken? then placing[p].t.Cost() else 0.0
  }

  function PayoutOwed(resolving: Option<Flight>, p: Pair): real {
    if resolving.Some? && (resolving.value.RowMarked? || resolving.value.AccountRead?) && resolving.value.row.pair == p
    then resolving.value.row.Cost() + resolving.value.pnl else 0.0
  }

  /** Balance, money on its way and stakes, less the profits: the seed, as long as nothing is spent or undone. */
  function Worth(db: Db, p: Pair): real
    requires p in db.bank
  {
    db.bank[p].current + Total(OpenStake, p, db.trades) + Total(VoidStake, p, db.trades) - Total(Profit, p, db.trades)
  }

  ghost function Held(m: Machine, p: Pair): real
    requires p in m.sys.db.bank
  {
    Worth(m.sys.db, p) + StakeOwed(m.placing, p) + PayoutOwed(m.resolving, p)
  }

  // ---- one move ----

  lemma InsertedWorth(db: Db, t: Trade, p: Pair)
    requires p in db.bank && t.Open()
    ensures Worth(db.(trades := db.trades + [t]), p) == Worth(db, p) + if t.pair == p then t.Cost() else 0.0
  {
    TotalAppend(OpenStake, p, db.trades, t);
    TotalAppend(VoidStake, p, db.trades, t);
    TotalAppend(Profit, p, db.trades, t);
  }

  lemma MarkedWorth(db: Db, id: nat, o: Outcome, pnl: real, p: Pair)
    requires p in db.bank && OpenAt(db.trades, id)
    ensures Worth(SetResult(db, id, o, pnl), p)
         == Worth(db, p) - if o != Void && db.trades[id].pair == p then db.trades[id].Cost() + pnl else 0.0
  {
    var t := db.trades[id].(outcome := Some(o), pnl := Some(pnl));
    TotalUpdate(OpenStake, p, db.trades, id, t);
    TotalUpdate(VoidStake, p, db.trades, id, t);
    TotalUpdate(Profit, p, db.trades, id, t);
  }

  lemma ActHolds(cfg: P.Config, m: Machine, a: P.Action, p: Pair)
    requires P.Proper(cfg) && Sound(cfg, m) && p in m.sys.db.bank
    ensures var m' := Advance(cfg, m, Act(a));
      p in m'.sys.db.bank && Held(m', p) == Held(m, p) - GasTaken(cfg, m, Act(a), p)
  {
    if !Busy(cfg, m, a) && Begun(cfg, m.sys, a).None? {
      WholeWrites(cfg, m.sys, a);
      P.StepFacts(cfg, m.sys, a, p);
    }
  }

  lemma WrittenWorth(db: Db, q: Pair, a: Account, p: Pair)
    requires p in db.bank
    ensures Worth(SetAccount(db, q, a), p) == Worth(db, p) + if q == p then a.current - db.bank[p].current else 0.0
  {
  }

  lemma PlaceHolds(cfg: P.Config, m: Machine, q: Pair, p: Pair)
    requires P.Proper(cfg) && Sound(cfg, m) && p in m.sys.db.bank
    ensures var m' := Advance(cfg, m, PlaceNext(q));
      p in m'.sys.db.bank && Held(m', p) == Held(m, p) - PayoutUndone(m, PlaceNext(q), p)
  {
    if q in m.placing {
      var f := m.placing[q];
      assert OwnOrder(f, m.sys.stages[q], q);
      if f.BalanceRead? {
        StakeHolds(cfg, m, q, f.t, f.read, p);
      } else {
        RowStep(cfg, m, q, f.t);
        InsertedWorth(m.sys.db, f.t, p);
      }
    }
  }

  lemma StakeHolds(cfg: P.Config, m: Machine, q: Pair, t: Trade, read: real, p: Pair)
    requires q in m.placing && m.placing[q] == BalanceRead(t, read) && t.pair == q && q in m.sys.db.bank
    requires p in m.sys.db.bank
    ensures var m' := Advance(cfg, m, PlaceNext(q));
      p in m'.sys.db.bank && Held(m', p) == Held(m, p) - PayoutUndone(m, PlaceNext(q), p)
  {
    var left := Account(read - t.Cost(), m.sys.db.bank[q].peak);
    StakeStep(cfg, m, q, t, read, left);
    WrittenWorth(m.sys.db, q, left, p);
  }

  lemma ResolveHolds(cfg: P.Config, m: Machine, p: Pair)
    requires Sound(cfg, m) && p in m.sys.db.bank
    ensures var m' := Advance(cfg, m, ResolveNext);
      p in m'.sys.db.bank && Held(m', p) == Held(m, p) + DeductionUndone(m, ResolveNext, p)
  {
    if m.resolving.Some? {
      ResolverStatement(cfg, m.sys.db, m.sys.work, m.resolving.value, p);
    }
  }

  lemma ResolverStatement(cfg: P.Config, db: Db, work: P.Work, f: Flight, p: Pair)
    requires OwnTrade(cfg, db.trades, work, f) && p in db.bank
    ensures var (db', f') := Next(db, f);
      && p in db'.bank
      && Worth(db', p) + PayoutOwed(f', p)
         == Worth(db, p) + PayoutOwed(Some(f), p) + Fallen(ReadOf(Some(f), p), db.bank[p])
  {
    match f
    case RowRead(id, o, pnl, _) => MarkedWorth(db, id, o, pnl, p);
    case Copied(id, _) => MarkedWorth(db, id, Void, 0.0, p);
    case AccountRead(_, _, pnl, row, account) =>
      WrittenWorth(db, row.pair, Credited(account.value, row.Cost() + pnl), p);
    case _ =>
  }

  lemma MoveHolds(cfg: P.Config, m: Machine, move: Move, p: Pair)
    requires P.Proper(cfg) && Sound(cfg, m) && p in m.sys.db.bank
    ensures var m' := Advance(cfg, m, move);
      && p in m'.sys.db.bank
      && Held(m', p)
         == Held(m, p) - GasTaken(cfg, m, move, p) - PayoutUndone(m, move, p) + DeductionUndone(m, move, p)
    ensures PayoutUndone(m, move, p) >= 0.0 && DeductionUndone(m, move, p) >= 0.0
  {
    match move
    case Act(a) => ActHolds(cfg, m, a, p);
    case PlaceNext(q) => PlaceHolds(cfg, m, q, p);
    case ResolveNext => ResolveHolds(cfg, m, p);
    UndoneSigns(cfg, m, move, p);
  }

  /** Between a bot's read and its write the balance only rises; between the resolver's it only falls. */
  lemma UndoneSigns(cfg: P.Config, m: Machine, move: Move, p: Pair)
    requires Sound(cfg, m) && p in m.sys.db.bank
    ensures PayoutUndone(m, move, p) >= 0.0 && DeductionUndone(m, move, p) >= 0.0
  {
    assert Covered(cfg, P.StageOf(m.sys, p), PlacementOf(m.placing, p), m.sys.db.bank[p]);
    assert UpToDate(ReadOf(m.resolving, p), m.sys.db.bank[p]);
  }

  // ---- whole runs ----

  datatype Flow = Flow(gas: real, payouts: real, deductions: real)

  /** Totals over a run: gas taken, payouts undone, deductions undone. */
  ghost function Flows(cfg: P.Config, m: Machine, moves: seq<Move>, p: Pair): Flow
    decreases |moves|
  {
    if |moves| == 0 then Flow(0.0, 0.0, 0.0)
    else
      var rest := Flows(cfg, Advance(cfg, m, moves[0]), moves[1..], p);
      Flow(rest.gas + GasTaken(cfg, m, moves[0], p),
           rest.payouts + PayoutUndone(m, moves[0], p),
           rest.deductions + DeductionUndone(m, moves[0], p))
  }

  lemma {:induction false} RunHolds(cfg: P.Config, m: Machine, moves: seq<Move>, p: Pair)
    requires P.Proper(cfg) && Sound(cfg, m) && p in m.sys.db.bank
    ensures var end, flow := Drive(cfg, m, moves), Flows(cfg, m, moves, p);
      && p in end.sys.db.bank && flow.payouts >= 0.0 && flow.deductions >= 0.0
      && Held(end, p) == Held(m, p) - flow.gas - flow.payouts + flow.deductions
    decreases |moves|
  {
    if |moves| > 0 {
      MoveHolds(cfg, m, moves[0], p);
      MoveKeeps(cfg, m, moves[0]);
      RunHolds(cfg, Advance(cfg, m, moves[0]), moves[1..], p);
    }
  }

  /** Nothing of p is half done. */
  ghost predicate NothingHalfDone(m: Machine, p: Pair) {
    StakeOwed(m.placing, p) == 0.0 && PayoutOwed(m.resolving, p) == 0.0
  }

  /**
   After any interleaving of statements from a seeded system, the books of a pair with nothing half
   done balance exactly when the payouts that placements undid and the deductions that settlements
   undid come to the same amount.
   */
  lemma BooksBalanceExactlyWhen(
    cfg: P.Config, accounts: set<Pair>, initial: real, clock: real, moves: seq<Move>, p: Pair)
    requires P.Proper(cfg) && cfg.bots.Keys <= accounts && initial > -cfg.gas && clock >= 0.0 && p in accounts
    requires NothingHalfDone(Drive(cfg, Seeded(cfg, accounts, initial, clock), moves), p)
    ensures var start := Seeded(cfg, accounts, initial, clock);
      var end, flow := Drive(cfg, start, moves), Flows(cfg, start, moves, p);
      && flow.payouts >= 0.0 && flow.deductions >= 0.0
      && (Conserved(end.sys.db, p, initial, flow.gas) <==> flow.payouts == flow.deductions)
  {
    var start := Seeded(cfg, accounts, initial, clock);
    Guarantees.HealthyAtStart(cfg, accounts, initial, clock);
    assert Sound(cfg, start);
    RunHolds(cfg, start, moves, p);
  }

  // ---- a run that loses money ----

  lemma {:induction false} FlowsConcat(cfg: P.Config, m: Machine, a: seq<Move>, b: seq<Move>, p: Pair)
    ensures var x, y := Flows(cfg, m, a, p), Flows(cfg, Drive(cfg, m, a), b, p);
      Flows(cfg, m, a + b, p) == Flow(x.gas + y.gas, x.payouts + y.payouts, x.deductions + y.deductions)
    decreases |a|
  {
    if |a| == 0 {
      assert a + b == b;
    } else {
      assert (a + b)[1..] == a[1..] + b;
      FlowsConcat(cfg, Advance(cfg, m, a[0]), a[1..], b, p);
    }
  }

  lemma FlowsOne(cfg: P.Config, m: Machine, move: Move, p: Pair)
    ensures Flows(cfg, m, [move], p)
         == Flow(GasTaken(cfg, m, move, p), PayoutUndone(m, move, p), DeductionUndone(m, move, p))
  {
    assert Flows(cfg, Advance(cfg, m, move), [move][1..], p) == Flow(0.0, 0.0, 0.0);
  }

  /** The moves lead from m to end, with this flow on p's account. */
  ghost predicate Leads(cfg: P.Config, m: Machine, moves: seq<Move>, end: Machine, p: Pair, flow: Flow) {
    Drive(cfg, m, moves) == end && Flows(cfg, m, moves, p) == flow
  }

  lemma LeadsOn(cfg: P.Config, m: Machine, a: seq<Move>, mid: Machine, move: Move, p: Pair, x: Flow)
    requires Leads(cfg, m, a, mid, p, x)
    ensures Leads(cfg, m, a + [move], Advance(cfg, mid, move), p,
                  Flow(x.gas + GasTaken(cfg, mid, move, p), x.payouts + PayoutUndone(mid, move, p),
                       x.deductions + DeductionUndone(mid, move, p)))
  {
    DriveNext(cfg, m, a, move, mid);
    FlowsConcat(cfg, m, a, [move], p);
    FlowsOne(cfg, mid, move, p);
  }

  const NONE: Flow := Flow(0.0, 0.0, 0.0)

  /** An action of a bot that touches no table. */
  predicate Bare(cfg: P.Config, a: P.Action) {
    P.ByBot(a) && a.p in cfg.bots && !a.Book? && !a.Charge?
  }

  lemma {:induction false} BareLeads(cfg: P.Config, s: P.Sys, actions: seq<P.Action>, p: Pair)
    returns (moves: seq<Move>)
    requires forall k | 0 <= k < |actions| :: Bare(cfg, actions[k])
    ensures Leads(cfg, Machine(s, map[], None), moves, Machine(P.Run(cfg, s, actions), map[], None), p, NONE)
    decreases |actions|
  {
    moves := [];
    if |actions| > 0 {
      var n := |actions| - 1;
      var before := BareLeads(cfg, s, actions[..n], p);
      assert actions[..n + 1] == actions;
      P.RunNext(cfg, s, actions, n, P.Run(cfg, s, actions[..n]));
      LeadsOn(cfg, Machine(s, map[], None), before, Machine(P.Run(cfg, s, actions[..n]), map[], None),
              Act(actions[n]), p, NONE);
      moves := before + [Act(actions[n])];
    }
  }

  /** The bot's order written in full, without gas. */
  lemma BookLeads(cfg: P.Config, m: Machine, before: seq<Move>, s: P.Sys, p: Pair)
    requires p in cfg.bots && Begun(cfg, s, P.Book(p)).Some? && p in s.db.bank
    requires Leads(cfg, m, before, Machine(s, map[], None), p, NONE) && P.StageOf(s, p).order.pair == p
    ensures Leads(cfg, m, before + [Act(P.Book(p))] + [PlaceNext(p)] + [PlaceNext(p)],
                  Machine(P.Step(cfg, s, P.Book(p)), map[], None), p, NONE)
  {
    var m0 := Machine(s, map[], None);
    LeadsOn(cfg, m, before, m0, Act(P.Book(p)), p, NONE);
    var m1 := Advance(cfg, m0, Act(P.Book(p)));
    LeadsOn(cfg, m, before + [Act(P.Book(p))], m1, PlaceNext(p), p, NONE);
    var m2 := Advance(cfg, m1, PlaceNext(p));
    LeadsOn(cfg, m, before + [Act(P.Book(p))] + [PlaceNext(p)], m2, PlaceNext(p), p, NONE);
    assert Advance(cfg, m2, PlaceNext(p)) == Machine(P.Step(cfg, s, P.Book(p)), map[], None);
  }

  /** The resolver polls trade 0, which has a market to ask about, and reads its row. */
  lemma RowReadLeads(cfg: P.Config, m: Machine, before: seq<Move>, s: P.Sys, p: Pair)
    returns (moves: seq<Move>, mid: Machine)
    requires Leads(cfg, m, before, Machine(s, map[], None), p, NONE)
    requires s.work.Resting? && |s.db.trades| == 1 && s.db.trades[0].Open()
    requires s.db.trades[0].market.Some? && s.db.trades[0].market.value != ""
    ensures Leads(cfg, m, moves, mid, p, NONE)
    ensures mid.placing == map[] && mid.sys == s.(work := P.Settling([]))
    ensures mid.resolving.Some? && mid.resolving.value.RowRead? && mid.resolving.value.row == s.db.trades[0]
  {
    var m0 := Machine(s, map[], None);
    LeadsOn(cfg, m, before, m0, Act(P.Poll([0])), p, NONE);
    var m1 := Advance(cfg, m0, Act(P.Poll([0])));
    moves := before + [Act(P.Poll([0]))];
    assert m1.sys == s.(work := P.Settling([0]));
    assert [0][1..] == [];
    LeadsOn(cfg, m, moves, m1, Act(P.SettleNext(Some("1"))), p, NONE);
    moves, mid := moves + [Act(P.SettleNext(Some("1")))], Advance(cfg, m1, Act(P.SettleNext(Some("1"))));
  }

  /** It marks the row and reads the account. */
  lemma AccountReadLeads(cfg: P.Config, m: Machine, before: seq<Move>, m2: Machine, p: Pair)
    returns (moves: seq<Move>, mid: Machine)
    requires Leads(cfg, m, before, m2, p, NONE) && p in m2.sys.db.bank
    requires m2.resolving.Some? && m2.resolving.value.RowRead? && m2.resolving.value.row.pair == p
    ensures Leads(cfg, m, moves, mid, p, NONE)
    ensures mid.placing == m2.placing && mid.sys.stages == m2.sys.stages && mid.sys.db.bank == m2.sys.db.bank
    ensures mid.resolving.Some? && mid.resolving.value.AccountRead?
    ensures ReadOf(mid.resolving, p) == Some(m2.sys.db.bank[p])
  {
    LeadsOn(cfg, m, before, m2, ResolveNext, p, NONE);
    var m3 := Advance(cfg, m2, ResolveNext);
    LeadsOn(cfg, m, before + [ResolveNext], m3, ResolveNext, p, NONE);
    moves, mid := before + [ResolveNext] + [ResolveNext], Advance(cfg, m3, ResolveNext);
  }

  /** Gas charged between the resolver's read and its write is undone. */
  lemma GasUndone(cfg: P.Config, m: Machine, before: seq<Move>, mid: Machine, p: Pair)
    requires Leads(cfg, m, before, mid, p, NONE) && p in cfg.bots && p in mid.sys.db.bank
    requires P.StageOf(mid.sys, p).Booked? && mid.placing == map[]
    requires mid.resolving.Some? && mid.resolving.value.AccountRead?
    requires ReadOf(mid.resolving, p) == Some(mid.sys.db.bank[p])
    ensures Drive(cfg, m, before + [Act(P.Charge(p))] + [ResolveNext]).placing == map[]
    ensures Drive(cfg, m, before + [Act(P.Charge(p))] + [ResolveNext]).resolving.None?
    ensures Flows(cfg, m, before + [Act(P.Charge(p))] + [ResolveNext], p) == Flow(cfg.gas, 0.0, cfg.gas)
  {
    LeadsOn(cfg, m, before, mid, Act(P.Charge(p)), p, NONE);
    var paid := Advance(cfg, mid, Act(P.Charge(p)));
    WholeWrites(cfg, mid.sys, P.Charge(p));
    assert paid.sys.db.bank[p].current == mid.sys.db.bank[p].current - cfg.gas;
    LeadsOn(cfg, m, before + [Act(P.Charge(p))], paid, ResolveNext, p, Flow(cfg.gas, 0.0, 0.0));
  }

  /** A permitted bot gets ready on a seeded system. */
  lemma ReadyLeads(cfg: P.Config, accounts: set<Pair>, initial: real, clock: real, p: Pair, o: O.Offer)
    returns (moves: seq<Move>, ready: P.Sys)
    requires P.Proper(cfg) && cfg.bots.Keys <= accounts && initial > -cfg.gas && clock >= 0.0
    requires O.Permitted(cfg, P.Init(cfg, accounts, initial, clock), p, o)
    ensures Leads(cfg, Seeded(cfg, accounts, initial, clock), moves, Machine(ready, map[], None), p, NONE)
    ensures Sound(cfg, Machine(ready, map[], None)) && P.StageOf(ready, p).Ready? && p in ready.db.bank
    ensures ready.db.trades == [] && ready.work.Resting? && P.StageOf(ready, p).order.market == Some(o.market)
  {
    var init := P.Init(cfg, accounts, initial, clock);
    ready := P.Run(cfg, init, O.Prep(p, o));
    moves := BareLeads(cfg, init, O.Prep(p, o), p);
    O.PrepRun(cfg, init, p, o);
    Guarantees.HealthyAtStart(cfg, accounts, initial, clock);
    SoundForever(cfg, Seeded(cfg, accounts, initial, clock), moves);
  }

  /** Its order is written, up to the row. */
  lemma OrderLeads(cfg: P.Config, accounts: set<Pair>, initial: real, clock: real, p: Pair, o: O.Offer)
    returns (moves: seq<Move>, s: P.Sys)
    requires P.Proper(cfg) && cfg.bots.Keys <= accounts && initial > -cfg.gas && clock >= 0.0
    requires O.Permitted(cfg, P.Init(cfg, accounts, initial, clock), p, o)
    ensures Leads(cfg, Seeded(cfg, accounts, initial, clock), moves, Machine(s, map[], None), p, NONE)
    ensures P.StageOf(s, p).Booked? && s.work.Resting? && p in s.db.bank
    ensures |s.db.trades| == 1 && s.db.trades[0].Open() && s.db.trades[0].pair == p
    ensures s.db.trades[0].market == Some(o.market)
  {
    var before, ready := ReadyLeads(cfg, accounts, initial, clock, p, o);
    NotRefused(cfg, Machine(ready, map[], None), p);
    RowWritten(cfg, ready, p);
    BookLeads(cfg, Seeded(cfg, accounts, initial, clock), before, ready, p);
    moves := before + [Act(P.Book(p))] + [PlaceNext(p)] + [PlaceNext(p)];
    s := P.Step(cfg, ready, P.Book(p));
  }

  lemma RowWritten(cfg: P.Config, s: P.Sys, p: Pair)
    requires P.Tidy(cfg, s) && p in cfg.bots && Begun(cfg, s, P.Book(p)).Some? && s.db.trades == []
    ensures P.StageOf(s, p).order.pair == p
    ensures var s' := P.Step(cfg, s, P.Book(p));
      && P.StageOf(s', p).Booked? && s'.work == s.work && p in s'.db.bank
      && |s'.db.trades| == 1 && s'.db.trades[0].Open() && s'.db.trades[0].pair == p
      && s'.db.trades[0].market == P.StageOf(s, p).order.market
  {
    assert P.StageSane(P.StageOf(s, p), p);
  }

  /**
   It happens: if the bot may place one order on a seeded system, there is an interleaving after which
   the gas of that order has been charged and the account does not show it.
   */
  lemma GasCanBeForgotten(
    cfg: P.Config, accounts: set<Pair>, initial: real, clock: real, p: Pair, o: O.Offer) returns (moves: seq<Move>)
    requires P.Proper(cfg) && cfg.bots.Keys <= accounts && initial > -cfg.gas && clock >= 0.0
    requires O.Permitted(cfg, P.Init(cfg, accounts, initial, clock), p, o) && o.market != ""
    ensures var start := Seeded(cfg, accounts, initial, clock);
      var end := Drive(cfg, start, moves);
      && NothingHalfDone(end, p) && Flows(cfg, start, moves, p) == Flow(cfg.gas, 0.0, cfg.gas)
      && (Conserved(end.sys.db, p, initial, cfg.gas) <==> cfg.gas == 0.0)
  {
    var start := Seeded(cfg, accounts, initial, clock);
    var booked, s := OrderLeads(cfg, accounts, initial, clock, p, o);
    var begun, m := RowReadLeads(cfg, start, booked, s, p);
    var half, mid := AccountReadLeads(cfg, start, begun, m, p);
    GasUndone(cfg, start, half, mid, p);
    moves := half + [Act(P.Charge(p))] + [ResolveNext];
    BooksBalanceExactlyWhen(cfg, accounts, initial, clock, moves, p);
  }
}
