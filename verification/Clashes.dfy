/**
 Which moves break the books of a pair.  A move clashes when it writes the pair's account while the
 other side is between its read of that account and its write of it: a payout under a placement that
 has read the balance, a stake or gas under a settlement that has read the account.  Without a clash
 nothing is ever undone; and the first clash that moves any money can be finished into books that are off.
 */
module Clashes {
  import opened Common
  import opened Interleaving
  import opened Ledger
  import opened Losses
  import opened Statements
  import P = Protocol
  import Guarantees

  // ---- the guard ----

  predicate Pending(m: Machine, p: Pair) {
    p in m.placing && m.placing[p].BalanceRead?
  }

  /** What a scheduler would look at before letting the move through. */
  predicate Clash(cfg: P.Config, m: Machine, move: Move, p: Pair) {
    ReadOf(m.resolving, p).Some? &&
    match move
    case ResolveNext => Pending(m, p)
    case PlaceNext(q) => q == p && Pending(m, p)
    case Act(a) => a.Charge? && a.p == p && !Busy(cfg, m, a) && P.StageOf(m.sys, p).Booked?
  }

  ghost predicate ClashFree(cfg: P.Config, m: Machine, moves: seq<Move>, p: Pair)
    decreases |moves|
  {
    |moves| == 0 || (!Clash(cfg, m, moves[0], p) && ClashFree(cfg, Advance(cfg, m, moves[0]), moves[1..], p))
  }

  /** By how much a clashing settlement raises the balance a placement has already read. */
  function Raise(cfg: P.Config, m: Machine, move: Move, p: Pair): real {
    if move.ResolveNext? && Clash(cfg, m, move, p) && p in m.sys.db.bank
    then Fallen(ReadOf(m.resolving, p), m.sys.db.bank[p]) + PayoutOwed(m.resolving, p) else 0.0
  }

  /** By how much a clashing stake or gas lowers the account a settlement has already read. */
  function Lowering(cfg: P.Config, m: Machine, move: Move, p: Pair): real {
    if move.ResolveNext? || !Clash(cfg, m, move, p) || p !in m.sys.db.bank then 0.0
    else if move.Act? then cfg.gas
    else m.sys.db.bank[p].current - m.placing[p].read + m.placing[p].t.Cost()
  }

  // ---- what is waiting to be undone ----

  function Risen(placing: map<Pair, Flight>, p: Pair, a: Account): real {
    if p in placing && placing[p].BalanceRead? then a.current - placing[p].read else 0.0
  }

  ghost predicate Moved(cfg: P.Config, m: Machine, move: Move, p: Pair) {
    var m' := Advance(cfg, m, move);
    && p in m.sys.db.bank && p in m'.sys.db.bank
    && Risen(m'.placing, p, m'.sys.db.bank[p])
       == Risen(m.placing, p, m.sys.db.bank[p]) + Raise(cfg, m, move, p) - PayoutUndone(m, move, p)
    && Fallen(ReadOf(m'.resolving, p), m'.sys.db.bank[p])
       == Fallen(ReadOf(m.resolving, p), m.sys.db.bank[p]) + Lowering(cfg, m, move, p) - DeductionUndone(m, move, p)
  }

  lemma ActMoves(cfg: P.Config, m: Machine, a: P.Action, p: Pair)
    requires P.Proper(cfg) && Sound(cfg, m) && p in m.sys.db.bank
    ensures Moved(cfg, m, Act(a), p)
  {
    if !Busy(cfg, m, a) {
      if Begun(cfg, m.sys, a).None? {
        WholeMoves(cfg, m, a, p);
      } else if a.Book? {
        NotRefused(cfg, m, a.p);
      }
    }
  }

  lemma WholeMoves(cfg: P.Config, m: Machine, a: P.Action, p: Pair)
    requires Sound(cfg, m) && p in m.sys.db.bank && !Busy(cfg, m, a) && Begun(cfg, m.sys, a).None?
    ensures Moved(cfg, m, Act(a), p)
  {
    WholeWrites(cfg, m.sys, a);
    P.StepFacts(cfg, m.sys, a, p);
    assert Advance(cfg, m, Act(a)) == m.(sys := P.Step(cfg, m.sys, a));
  }

  lemma PlaceMoves(cfg: P.Config, m: Machine, q: Pair, p: Pair)
    requires P.Proper(cfg) && Sound(cfg, m) && p in m.sys.db.bank
    ensures Moved(cfg, m, PlaceNext(q), p)
  {
    if q in m.placing {
      var f := m.placing[q];
      assert OwnOrder(f, m.sys.stages[q], q);
      if f.BalanceRead? {
        StakeMoves(cfg, m, q, f.t, f.read, p);
      } else {
        RowStep(cfg, m, q, f.t);
      }
    }
  }

  lemma StakeMoves(cfg: P.Config, m: Machine, q: Pair, t: Trade, read: real, p: Pair)
    requires q in m.placing && m.placing[q] == BalanceRead(t, read) && t.pair == q && q in m.sys.db.bank
    requires p in m.sys.db.bank
    ensures Moved(cfg, m, PlaceNext(q), p)
  {
    StakeStep(cfg, m, q, t, read, Account(read - t.Cost(), m.sys.db.bank[q].peak));
  }

  lemma ResolveMoves(cfg: P.Config, m: Machine, p: Pair)
    requires Sound(cfg, m) && p in m.sys.db.bank
    ensures Moved(cfg, m, ResolveNext, p)
  {
  }

  lemma MoveMoves(cfg: P.Config, m: Machine, move: Move, p: Pair)
    requires P.Proper(cfg) && Sound(cfg, m) && p in m.sys.db.bank
    ensures Moved(cfg, m, move, p) && Raise(cfg, m, move, p) >= 0.0 && Lowering(cfg, m, move, p) >= 0.0
  {
    match move
    case Act(a) => ActMoves(cfg, m, a, p);
    case PlaceNext(q) => PlaceMoves(cfg, m, q, p);
    case ResolveNext => ResolveMoves(cfg, m, p);
    ClashSigns(cfg, m, move, p);
  }

  lemma ClashSigns(cfg: P.Config, m: Machine, move: Move, p: Pair)
    requires P.Proper(cfg) && Sound(cfg, m) && p in m.sys.db.bank
    ensures Raise(cfg, m, move, p) >= 0.0 && Lowering(cfg, m, move, p) >= 0.0
  {
    assert Covered(cfg, P.StageOf(m.sys, p), PlacementOf(m.placing, p), m.sys.db.bank[p]);
    assert UpToDate(ReadOf(m.resolving, p), m.sys.db.bank[p]);
    if Pending(m, p) {
      var f := m.placing[p];
      assert OwnOrder(f, m.sys.stages[p], p);
      P.StakePositive(f.t, f.t.Cost());
    }
  }

  // ---- whole runs ----

  datatype Crossing = Crossing(raised: real, lowered: real)

  /** What all clashes of a run move together. */
  ghost function Crossings(cfg: P.Config, m: Machine, moves: seq<Move>, p: Pair): Crossing
    decreases |moves|
  {
    if |moves| == 0 then Crossing(0.0, 0.0)
    else
      var rest := Crossings(cfg, Advance(cfg, m, moves[0]), moves[1..], p);
      Crossing(rest.raised + Raise(cfg, m, moves[0], p), rest.lowered + Lowering(cfg, m, moves[0], p))
  }

  /** Everything clashes have moved has been undone or is waiting to be. */
  lemma {:induction false} RunCrosses(cfg: P.Config, m: Machine, moves: seq<Move>, p: Pair)
    requires P.Proper(cfg) && Sound(cfg, m) && p in m.sys.db.bank
    ensures var end, flow, all := Drive(cfg, m, moves), Flows(cfg, m, moves, p), Crossings(cfg, m, moves, p);
      && p in end.sys.db.bank && all.raised >= 0.0 && all.lowered >= 0.0
      && flow.payouts + Risen(end.placing, p, end.sys.db.bank[p])
         == all.raised + Risen(m.placing, p, m.sys.db.bank[p])
      && flow.deductions + Fallen(ReadOf(end.resolving, p), end.sys.db.bank[p])
         == all.lowered + Fallen(ReadOf(m.resolving, p), m.sys.db.bank[p])
    decreases |moves|
  {
    if |moves| > 0 {
      MoveMoves(cfg, m, moves[0], p);
      MoveKeeps(cfg, m, moves[0]);
      RunCrosses(cfg, Advance(cfg, m, moves[0]), moves[1..], p);
    }
  }

  /** Every clash of the run moves nothing. */
  ghost predicate Harmless(cfg: P.Config, m: Machine, moves: seq<Move>, p: Pair)
    decreases |moves|
  {
    |moves| == 0 ||
    (&& Raise(cfg, m, moves[0], p) == 0.0 && Lowering(cfg, m, moves[0], p) == 0.0
     && Harmless(cfg, Advance(cfg, m, moves[0]), moves[1..], p))
  }

  lemma {:induction false} HarmlessCrossesNothing(cfg: P.Config, m: Machine, moves: seq<Move>, p: Pair)
    requires P.Proper(cfg) && Sound(cfg, m) && p in m.sys.db.bank
    ensures Crossings(cfg, m, moves, p) == Crossing(0.0, 0.0) <==> Harmless(cfg, m, moves, p)
    ensures ClashFree(cfg, m, moves, p) ==> Harmless(cfg, m, moves, p)
    decreases |moves|
  {
    if |moves| > 0 {
      var next := Advance(cfg, m, moves[0]);
      MoveMoves(cfg, m, moves[0], p);
      MoveKeeps(cfg, m, moves[0]);
      RunCrosses(cfg, next, moves[1..], p);
      HarmlessCrossesNothing(cfg, next, moves[1..], p);
    }
  }

  /**
   After any interleaving of statements from a seeded system, with no call on p under way: something
   was undone exactly when some clash moved money, and the books balance exactly when the clashes
   raised the account by as much as they lowered it.
   */
  lemma BooksAndClashes(
    cfg: P.Config, accounts: set<Pair>, initial: real, clock: real, moves: seq<Move>, p: Pair)
    requires P.Proper(cfg) && cfg.bots.Keys <= accounts && initial > -cfg.gas && clock >= 0.0 && p in accounts
    requires Still(Drive(cfg, Seeded(cfg, accounts, initial, clock), moves), p)
    ensures var start := Seeded(cfg, accounts, initial, clock);
      var end, flow := Drive(cfg, start, moves), Flows(cfg, start, moves, p);
      var all := Crossings(cfg, start, moves, p);
      && flow.payouts == all.raised && flow.deductions == all.lowered
      && (flow.payouts == 0.0 == flow.deductions <==> Harmless(cfg, start, moves, p))
      && (Conserved(end.sys.db, p, initial, flow.gas) <==> all.raised == all.lowered)
  {
    var start := Seeded(cfg, accounts, initial, clock);
    Guarantees.HealthyAtStart(cfg, accounts, initial, clock);
    assert Sound(cfg, start);
    RunCrosses(cfg, start, moves, p);
    HarmlessCrossesNothing(cfg, start, moves, p);
    BooksBalanceExactlyWhen(cfg, accounts, initial, clock, moves, p);
  }

  /** A run without a clash on p, same-pair overlaps or not, never undoes anything: its books balance. */
  lemma ClashFreeConserves(
    cfg: P.Config, accounts: set<Pair>, initial: real, clock: real, moves: seq<Move>, p: Pair)
    requires P.Proper(cfg) && cfg.bots.Keys <= accounts && initial > -cfg.gas && clock >= 0.0 && p in accounts
    requires ClashFree(cfg, Seeded(cfg, accounts, initial, clock), moves, p)
    ensures var start := Seeded(cfg, accounts, initial, clock);
      var end, flow := Drive(cfg, start, moves), Flows(cfg, start, moves, p);
      && flow.payouts == flow.deductions == 0.0
      && (NothingHalfDone(end, p) ==> Conserved(end.sys.db, p, initial, flow.gas))
  {
    var start := Seeded(cfg, accounts, initial, clock);
    var end := Drive(cfg, start, moves);
    Guarantees.HealthyAtStart(cfg, accounts, initial, clock);
    assert Sound(cfg, start);
    HarmlessCrossesNothing(cfg, start, moves, p);
    RunCrosses(cfg, start, moves, p);
    RunHolds(cfg, start, moves, p);
    SoundForever(cfg, start, moves);
    assert Covered(cfg, P.StageOf(end.sys, p), PlacementOf(end.placing, p), end.sys.db.bank[p]);
    assert UpToDate(ReadOf(end.resolving, p), end.sys.db.bank[p]);
  }

  // ---- the first clash ----

  lemma {:induction false} CrossingsConcat(cfg: P.Config, m: Machine, a: seq<Move>, b: seq<Move>, p: Pair)
    ensures var x, y := Crossings(cfg, m, a, p), Crossings(cfg, Drive(cfg, m, a), b, p);
      Crossings(cfg, m, a + b, p) == Crossing(x.raised + y.raised, x.lowered + y.lowered)
    decreases |a|
  {
    if |a| == 0 {
      assert a + b == b;
    } else {
      assert (a + b)[1..] == a[1..] + b;
      CrossingsConcat(cfg, Advance(cfg, m, a[0]), a[1..], b, p);
    }
  }

  lemma CrossingsOne(cfg: P.Config, m: Machine, move: Move, p: Pair)
    ensures Crossings(cfg, m, [move], p) == Crossing(Raise(cfg, m, move, p), Lowering(cfg, m, move, p))
  {
    assert Crossings(cfg, Advance(cfg, m, move), [move][1..], p) == Crossing(0.0, 0.0);
  }

  lemma DriveTwo(cfg: P.Config, m: Machine, a: Move, b: Move, p: Pair)
    ensures Drive(cfg, m, [a, b]) == Advance(cfg, Advance(cfg, m, a), b)
    ensures ClashFree(cfg, m, [a, b], p) <==> !Clash(cfg, m, a, p) && !Clash(cfg, Advance(cfg, m, a), b, p)
  {
    var m1 := Advance(cfg, m, a);
    assert [a, b][1..] == [b] && [b][1..] == [];
    DriveOne(cfg, m1, b);
    assert ClashFree(cfg, Advance(cfg, m1, b), [], p);
  }

  /** After a clash both calls can finish undisturbed. */
  lemma Finish(cfg: P.Config, m: Machine, move: Move, p: Pair) returns (rest: seq<Move>)
    requires P.Proper(cfg) && Sound(cfg, m) && Clash(cfg, m, move, p)
    ensures Still(Drive(cfg, Advance(cfg, m, move), rest), p)
    ensures ClashFree(cfg, Advance(cfg, m, move), rest, p)
  {
    match move
    case ResolveNext =>
      rest := FinishPlacement(cfg, m, p);
    case PlaceNext(_) =>
      rest := FinishBoth(cfg, m, p);
    case Act(a) =>
      rest := [ResolveNext];
      FinishCharge(cfg, m, p);
  }

  lemma FinishPlacement(cfg: P.Config, m: Machine, p: Pair) returns (rest: seq<Move>)
    requires Clash(cfg, m, ResolveNext, p)
    ensures Still(Drive(cfg, Advance(cfg, m, ResolveNext), rest), p)
    ensures ClashFree(cfg, Advance(cfg, m, ResolveNext), rest, p)
  {
    var m1 := Advance(cfg, m, ResolveNext);
    rest := [PlaceNext(p), PlaceNext(p)];
    assert m1.resolving == None && m1.placing == m.placing;
    DriveTwo(cfg, m1, PlaceNext(p), PlaceNext(p), p);
  }

  lemma FinishBoth(cfg: P.Config, m: Machine, p: Pair) returns (rest: seq<Move>)
    requires Clash(cfg, m, PlaceNext(p), p)
    ensures Still(Drive(cfg, Advance(cfg, m, PlaceNext(p)), rest), p)
    ensures ClashFree(cfg, Advance(cfg, m, PlaceNext(p)), rest, p)
  {
    var m1 := Advance(cfg, m, PlaceNext(p));
    rest := [PlaceNext(p), ResolveNext];
    assert m1.placing == m.placing[p := StakeTaken(m.placing[p].t)] && m1.resolving == m.resolving;
    var m2 := Advance(cfg, m1, PlaceNext(p));
    assert m2.placing == m1.placing - {p} && m2.resolving == m.resolving;
    assert Advance(cfg, m2, ResolveNext).placing == m2.placing;
    DriveTwo(cfg, m1, PlaceNext(p), ResolveNext, p);
  }

  lemma FinishCharge(cfg: P.Config, m: Machine, p: Pair)
    requires Clash(cfg, m, Act(P.Charge(p)), p)
    ensures Still(Drive(cfg, Advance(cfg, m, Act(P.Charge(p))), [ResolveNext]), p)
    ensures ClashFree(cfg, Advance(cfg, m, Act(P.Charge(p))), [ResolveNext], p)
  {
    var m1 := Advance(cfg, m, Act(P.Charge(p)));
    assert m1.placing == m.placing && m1.resolving == m.resolving;
    DriveOne(cfg, m1, ResolveNext);
    assert ClashFree(cfg, Advance(cfg, m1, ResolveNext), [ResolveNext][1..], p);
  }

  lemma {:induction false} HarmlessConcat(cfg: P.Config, m: Machine, a: seq<Move>, b: seq<Move>, p: Pair)
    ensures Harmless(cfg, m, a + b, p) <==> Harmless(cfg, m, a, p) && Harmless(cfg, Drive(cfg, m, a), b, p)
    decreases |a|
  {
    if |a| == 0 {
      assert a + b == b;
    } else {
      assert (a + b)[1..] == a[1..] + b;
      HarmlessConcat(cfg, Advance(cfg, m, a[0]), a[1..], b, p);
    }
  }

  /** A run that is not harmless has a first move that does harm. */
  lemma {:induction false} FirstHarm(cfg: P.Config, m: Machine, moves: seq<Move>, p: Pair) returns (k: nat)
    requires !Harmless(cfg, m, moves, p)
    ensures k < |moves| && Harmless(cfg, m, moves[..k], p)
    ensures var now := Drive(cfg, m, moves[..k]);
      Raise(cfg, now, moves[k], p) != 0.0 || Lowering(cfg, now, moves[k], p) != 0.0
    decreases |moves|
  {
    if Raise(cfg, m, moves[0], p) != 0.0 || Lowering(cfg, m, moves[0], p) != 0.0 {
      k := 0;
    } else {
      var j := FirstHarm(cfg, Advance(cfg, m, moves[0]), moves[1..], p);
      k := j + 1;
      assert moves[..k] == [moves[0]] + moves[1..][..j];
      assert moves[..k][1..] == moves[1..][..j];
    }
  }

  lemma OneClashCrosses(cfg: P.Config, m: Machine, moves: seq<Move>, move: Move, rest: seq<Move>, p: Pair)
    requires P.Proper(cfg) && Sound(cfg, m) && p in m.sys.db.bank && Harmless(cfg, m, moves, p)
    requires ClashFree(cfg, Advance(cfg, Drive(cfg, m, moves), move), rest, p)
    ensures var now := Drive(cfg, m, moves);
      Crossings(cfg, m, moves + [move] + rest, p) == Crossing(Raise(cfg, now, move, p), Lowering(cfg, now, move, p))
  {
    var now := Drive(cfg, m, moves);
    SoundForever(cfg, m, moves);
    MoveKeeps(cfg, now, move);
    DriveNext(cfg, m, moves, move, now);
    HarmlessCrossesNothing(cfg, m, moves, p);
    HarmlessCrossesNothing(cfg, Advance(cfg, now, move), rest, p);
    CrossingsOne(cfg, now, move, p);
    CrossingsConcat(cfg, m, moves, [move], p);
    CrossingsConcat(cfg, m, moves + [move], rest, p);
  }

  /** If no call on p is under way after the moves, its books balance. */
  ghost predicate Balanced(cfg: P.Config, start: Machine, moves: seq<Move>, initial: real, p: Pair) {
    var end := Drive(cfg, start, moves);
    Still(end, p) ==> Conserved(end.sys.db, p, initial, Flows(cfg, start, moves, p).gas)
  }

  /** The first harmful clash can be finished into books that are off. */
  lemma HarmUnbalances(
    cfg: P.Config, accounts: set<Pair>, initial: real, clock: real, moves: seq<Move>, move: Move, p: Pair)
    returns (rest: seq<Move>)
    requires P.Proper(cfg) && cfg.bots.Keys <= accounts && initial > -cfg.gas && clock >= 0.0 && p in accounts
    requires var start := Seeded(cfg, accounts, initial, clock);
      var now := Drive(cfg, start, moves);
      && Harmless(cfg, start, moves, p)
      && (Raise(cfg, now, move, p) != 0.0 || Lowering(cfg, now, move, p) != 0.0)
    ensures var start := Seeded(cfg, accounts, initial, clock);
      && ClashFree(cfg, Drive(cfg, start, moves + [move]), rest, p)
      && !Balanced(cfg, start, moves + [move] + rest, initial, p)
  {
    var start := Seeded(cfg, accounts, initial, clock);
    var now := Drive(cfg, start, moves);
    Guarantees.HealthyAtStart(cfg, accounts, initial, clock);
    assert Sound(cfg, start);
    SoundForever(cfg, start, moves);
    rest := Finish(cfg, now, move, p);
    DriveNext(cfg, start, moves, move, now);
    DriveConcat(cfg, start, moves + [move], rest);
    OneClashCrosses(cfg, start, moves, move, rest, p);
    BooksAndClashes(cfg, accounts, initial, clock, moves + [move] + rest, p);
  }

  lemma HarmlessBalances(
    cfg: P.Config, accounts: set<Pair>, initial: real, clock: real, moves: seq<Move>, rest: seq<Move>, p: Pair)
    requires P.Proper(cfg) && cfg.bots.Keys <= accounts && initial > -cfg.gas && clock >= 0.0 && p in accounts
    requires var start := Seeded(cfg, accounts, initial, clock);
      Harmless(cfg, start, moves, p) && ClashFree(cfg, Drive(cfg, start, moves), rest, p)
    ensures Balanced(cfg, Seeded(cfg, accounts, initial, clock), moves + rest, initial, p)
  {
    var start := Seeded(cfg, accounts, initial, clock);
    var now := Drive(cfg, start, moves);
    Guarantees.HealthyAtStart(cfg, accounts, initial, clock);
    assert Sound(cfg, start);
    SoundForever(cfg, start, moves);
    HarmlessCrossesNothing(cfg, now, rest, p);
    HarmlessConcat(cfg, start, moves, rest, p);
    HarmlessCrossesNothing(cfg, start, moves + rest, p);
    if Still(Drive(cfg, start, moves + rest), p) {
      BooksAndClashes(cfg, accounts, initial, clock, moves + rest, p);
    }
  }

  /** Finishing these moves without a clash does not leave the books of p off. */
  ghost predicate SafeToFinish(
    cfg: P.Config, start: Machine, moves: seq<Move>, rest: seq<Move>, initial: real, p: Pair)
  {
    ClashFree(cfg, Drive(cfg, start, moves), rest, p) ==> Balanced(cfg, start, moves + rest, initial, p)
  }

  lemma HarmIsUnsafe(
    cfg: P.Config, accounts: set<Pair>, initial: real, clock: real, moves: seq<Move>, p: Pair)
    returns (k: nat, rest: seq<Move>)
    requires P.Proper(cfg) && cfg.bots.Keys <= accounts && initial > -cfg.gas && clock >= 0.0 && p in accounts
    requires !Harmless(cfg, Seeded(cfg, accounts, initial, clock), moves, p)
    ensures k <= |moves| && !SafeToFinish(cfg, Seeded(cfg, accounts, initial, clock), moves[..k], rest, initial, p)
  {
    var j := FirstHarm(cfg, Seeded(cfg, accounts, initial, clock), moves, p);
    rest := HarmUnbalances(cfg, accounts, initial, clock, moves[..j], moves[j], p);
    k := j + 1;
    assert moves[..k] == moves[..j] + [moves[j]];
  }

  lemma HarmlessIsSafe(
    cfg: P.Config, accounts: set<Pair>, initial: real, clock: real, moves: seq<Move>, k: nat, rest: seq<Move>, p: Pair)
    requires P.Proper(cfg) && cfg.bots.Keys <= accounts && initial > -cfg.gas && clock >= 0.0 && p in accounts
    requires Harmless(cfg, Seeded(cfg, accounts, initial, clock), moves, p) && k <= |moves|
    ensures SafeToFinish(cfg, Seeded(cfg, accounts, initial, clock), moves[..k], rest, initial, p)
  {
    var start := Seeded(cfg, accounts, initial, clock);
    assert moves == moves[..k] + moves[k..];
    HarmlessConcat(cfg, start, moves[..k], moves[k..], p);
    if ClashFree(cfg, Drive(cfg, start, moves[..k]), rest, p) {
      HarmlessBalances(cfg, accounts, initial, clock, moves[..k], rest, p);
    }
  }

  /**
   Exactly the harmful clashes break the books: a run never comes, at any of its moves, to a state from
   which finishing without another clash leaves the books of p off, if and only if no clash of the run
   moves any money.
   */
  lemma BooksSafeExactlyWhen(
    cfg: P.Config, accounts: set<Pair>, initial: real, clock: real, moves: seq<Move>, p: Pair)
    requires P.Proper(cfg) && cfg.bots.Keys <= accounts && initial > -cfg.gas && clock >= 0.0 && p in accounts
    ensures var start := Seeded(cfg, accounts, initial, clock);
      (forall k: nat, rest: seq<Move> | k <= |moves| :: SafeToFinish(cfg, start, moves[..k], rest, initial, p))
      <==> Harmless(cfg, start, moves, p)
  {
    var start := Seeded(cfg, accounts, initial, clock);
    if Harmless(cfg, start, moves, p) {
      forall k: nat, rest: seq<Move> | k <= |moves| ensures SafeToFinish(cfg, start, moves[..k], rest, initial, p) {
        HarmlessIsSafe(cfg, accounts, initial, clock, moves, k, rest, p);
      }
    } else {
      var k, rest := HarmIsUnsafe(cfg, accounts, initial, clock, moves, p);
      assert !SafeToFinish(cfg, start, moves[..k], rest, initial, p);
    }
  }
}
