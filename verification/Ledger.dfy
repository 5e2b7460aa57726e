/**
 The tables the paper-trading ledger lives in, as values, with every write the storage
 layer makes to them.  `Store.Database` carries these values as mutable fields; everything
 that is proved about whole runs is proved about the functions here.

 A trade's row id is its position in `trades`, so ids grow in insertion order.
 */
module Ledger {
  import opened Common

  datatype Pair = Pair(strategy: string, asset: string)

  datatype Signal = BuyYes | BuyNo | Skip

  datatype Outcome = Win | Loss | Void

  datatype Trade = Trade(
    pair: Pair, market: Option<string>, signal: Signal, entry: real, size: real,
    placedAt: real, outcome: Option<Outcome>, pnl: Option<real>)
  {
    function Cost(): real {
      Stake(entry, size)
    }

    predicate Open() {
      outcome.None?
    }
  }

  /** The dollars a bet ties up. */
  function Stake(entry: real, size: real): real {
    entry * size
  }

  datatype Account = Account(current: real, peak: real)

  /** A dead-letter row keeps a copy of the trade as it stood. */
  datatype DeadLetter = DeadLetter(id: nat, copy: Trade)

  datatype Db = Db(bank: map<Pair, Account>, trades: seq<Trade>, dead: seq<DeadLetter>)

  // ---- writes ----

  function Deduct(db: Db, p: Pair, amount: real): Db {
    if p in db.bank
    then db.(bank := db.bank[p := db.bank[p].(current := db.bank[p].current - amount)])
    else db
  }

  /** Refuses, changing nothing, when the row is missing or too small; else returns the new id. */
  function Reserve(db: Db, t: Trade): (Db, Option<nat>)
  {
    if t.pair !in db.bank || db.bank[t.pair].current < t.Cost() then (db, None)
    else (Deduct(db, t.pair, t.Cost()).(trades := db.trades + [t]), Some(|db.trades|))
  }

  function Mark(db: Db, id: nat, outcome: Outcome, pnl: real): Db
    requires id < |db.trades|
  {
    db.(trades := db.trades[id := db.trades[id].(outcome := Some(outcome), pnl := Some(pnl))])
  }

  /** The row after a settlement that pays `amount` back into it. */
  function Credited(a: Account, amount: real): Account {
    Account(a.current + amount, Max(a.peak, a.current + amount))
  }

  function Credit(db: Db, p: Pair, amount: real): Db {
    if p in db.bank then db.(bank := db.bank[p := Credited(db.bank[p], amount)]) else db
  }

  /** Nothing here asks whether the trade is still open. */
  function Resolve(db: Db, id: nat, outcome: Outcome, pnl: real): Db {
    if id >= |db.trades| then db
    else Credit(Mark(db, id, outcome, pnl), db.trades[id].pair, db.trades[id].Cost() + pnl)
  }

  function MoveToDeadLetter(db: Db, id: nat): Db {
    if id >= |db.trades| then db
    else Mark(db, id, Void, 0.0).(dead := db.dead + [DeadLetter(id, db.trades[id])])
  }

  // ---- queries ----

  /** The rows of one pair, oldest first. */
  function Of(trades: seq<Trade>, p: Pair): seq<Trade> {
    if |trades| == 0 then []
    else if trades[|trades| - 1].pair == p
    then Of(trades[..|trades| - 1], p) + [trades[|trades| - 1]]
    else Of(trades[..|trades| - 1], p)
  }

  /** At most n resolved rows, newest first. */
  function Recent(rows: seq<Trade>, n: nat): (r: seq<Trade>)
    ensures |r| <= n
    ensures forall t | t in r :: t in rows && !t.Open()
  {
    if |rows| == 0 || n == 0 then []
    else
      var last := rows[|rows| - 1];
      if last.Open() then Recent(rows[..|rows| - 1], n)
      else [last] + Recent(rows[..|rows| - 1], n - 1)
  }

  function RecentOf(db: Db, p: Pair, n: nat): seq<Trade> {
    Recent(Of(db.trades, p), n)
  }

  function Current(db: Db, p: Pair): real {
    if p in db.bank then db.bank[p].current else 0.0
  }

  function Peak(db: Db, p: Pair): real {
    if p in db.bank then db.bank[p].peak else 0.0
  }

  function CountOpen(trades: seq<Trade>, asset: string, s: Signal): nat {
    if |trades| == 0 then 0
    else
      var t := trades[|trades| - 1];
      CountOpen(trades[..|trades| - 1], asset, s)
      + if t.Open() && t.pair.asset == asset && t.signal == s then 1 else 0
  }

  // ---- totals over the trades table ----

  datatype Column = OpenStake | VoidStake | Profit

  /** What one row adds to a pair's total in a column. */
  function Amount(c: Column, p: Pair, t: Trade): real {
    if t.pair != p then 0.0
    else match c
      case OpenStake => if t.Open() then t.Cost() else 0.0
      case VoidStake => if t.outcome == Some(Void) then t.Cost() else 0.0
      case Profit => if t.outcome in {Some(Win), Some(Loss)} && t.pnl.Some? then t.pnl.value else 0.0
  }

  function Total(c: Column, p: Pair, trades: seq<Trade>): real {
    if |trades| == 0 then 0.0
    else Total(c, p, trades[..|trades| - 1]) + Amount(c, p, trades[|trades| - 1])
  }

  lemma TotalAppend(c: Column, p: Pair, trades: seq<Trade>, t: Trade)
    ensures Total(c, p, trades + [t]) == Total(c, p, trades) + Amount(c, p, t)
  {
  }

  lemma {:induction false} TotalUpdate(c: Column, p: Pair, trades: seq<Trade>, i: nat, t: Trade)
    requires i < |trades|
    ensures Total(c, p, trades[i := t]) == Total(c, p, trades) - Amount(c, p, trades[i]) + Amount(c, p, t)
  {
    var n := |trades| - 1;
    if i == n {
      assert trades[i := t][..n] == trades[..n];
    } else {
      assert trades[i := t][..n] == trades[..n][i := t];
      TotalUpdate(c, p, trades[..n], i, t);
    }
  }

  // ---- conservation ----

  /** Money on the pair: spendable, locked in open trades, locked in voided trades, spent on gas. */
  ghost predicate Conserved(db: Db, p: Pair, seed: real, fees: real) {
    && p in db.bank
    && db.bank[p].current + Total(OpenStake, p, db.trades) + Total(VoidStake, p, db.trades) + fees
       == seed + Total(Profit, p, db.trades)
  }

  lemma ReserveConserves(db: Db, t: Trade, p: Pair, seed: real, fees: real)
    requires t.Open() && Conserved(db, p, seed, fees)
    ensures Conserved(Reserve(db, t).0, p, seed, fees)
  {
  }

  lemma DeductConserves(db: Db, q: Pair, amount: real, p: Pair, seed: real, fees: real)
    requires Conserved(db, p, seed, fees)
    ensures Conserved(Deduct(db, q, amount), p, seed, if p == q then fees + amount else fees)
  {
  }

  lemma VoidConserves(db: Db, id: nat, p: Pair, seed: real, fees: real)
    requires Conserved(db, p, seed, fees)
    requires id < |db.trades| ==> db.trades[id].Open()
    ensures Conserved(MoveToDeadLetter(db, id), p, seed, fees)
  {
    if id < |db.trades| {
      var t := db.trades[id].(outcome := Some(Void), pnl := Some(0.0));
      TotalUpdate(OpenStake, p, db.trades, id, t);
      TotalUpdate(VoidStake, p, db.trades, id, t);
      TotalUpdate(Profit, p, db.trades, id, t);
    }
  }

  /**
   `resolve_trade` has no guard on the row's state.  On a settlement of a row that already
   carries an outcome the books still balance exactly when what the row gave back when it was
   closed is nothing: an open row, a voided row, or a row whose stake and profit cancel.
   */
  lemma ResolveConservesExactlyWhen(db: Db, id: nat, outcome: Outcome, pnl: real, p: Pair, seed: real, fees: real)
    requires Conserved(db, p, seed, fees)
    requires id < |db.trades| && db.trades[id].pair == p && outcome != Void
    ensures Conserved(Resolve(db, id, outcome, pnl), p, seed, fees)
       <==> (var t := db.trades[id];
             t.Open() || t.outcome == Some(Void) || t.Cost() + Amount(Profit, p, t) == 0.0)
  {
    var t := db.trades[id].(outcome := Some(outcome), pnl := Some(pnl));
    TotalUpdate(OpenStake, p, db.trades, id, t);
    TotalUpdate(VoidStake, p, db.trades, id, t);
    TotalUpdate(Profit, p, db.trades, id, t);
  }

  /** A settlement never disturbs another pair's books. */
  lemma ResolveConservesOthers(db: Db, id: nat, outcome: Outcome, pnl: real, p: Pair, seed: real, fees: real)
    requires Conserved(db, p, seed, fees)
    requires id < |db.trades| ==> db.trades[id].pair != p
    ensures Conserved(Resolve(db, id, outcome, pnl), p, seed, fees)
  {
    if id < |db.trades| {
      var t := db.trades[id].(outcome := Some(outcome), pnl := Some(pnl));
      TotalUpdate(OpenStake, p, db.trades, id, t);
      TotalUpdate(VoidStake, p, db.trades, id, t);
      TotalUpdate(Profit, p, db.trades, id, t);
    }
  }

  /** The law one would expect, without the voided stakes, holds exactly when none were voided. */
  lemma NaiveLawExactlyWhen(db: Db, p: Pair, seed: real, fees: real)
    requires Conserved(db, p, seed, fees)
    requires forall t | t in db.trades :: t.Cost() > 0.0
    ensures db.bank[p].current + Total(OpenStake, p, db.trades) + fees == seed + Total(Profit, p, db.trades)
       <==> forall t | t in db.trades :: t.pair != p || t.outcome != Some(Void)
  {
    VoidStakePositive(db.trades, p);
  }

  lemma {:induction false} VoidStakePositive(trades: seq<Trade>, p: Pair)
    requires forall t | t in trades :: t.Cost() > 0.0
    ensures Total(VoidStake, p, trades) >= 0.0
    ensures Total(VoidStake, p, trades) == 0.0
       <==> forall t | t in trades :: t.pair != p || t.outcome != Some(Void)
  {
    if |trades| > 0 {
      var n := |trades| - 1;
      VoidStakePositive(trades[..n], p);
      assert trades == trades[..n] + [trades[n]];
      assert forall t :: t in trades <==> t in trades[..n] || t == trades[n];
    }
  }
}
