/** The storage layer: one object whose tables are read and then overwritten in place. */
module Store {
  import opened Common
  import opened Ledger

  class Database {
    var bank: map<Pair, Account>
    var trades: seq<Trade>
    var dead: seq<DeadLetter>

    constructor ()
      ensures View() == Db(map[], [], [])
    {
      bank, trades, dead := map[], [], [];
    }

    ghost function View(): Db
      reads this
    {
      Db(bank, trades, dead)
    }

    /** Opens an account for every combination, leaving accounts that exist alone. */
    method SeedBankroll(strategies: seq<string>, assets: seq<string>, initial: real)
      modifies this`bank
      ensures forall p :: p in bank <==>
        p in old(bank) || (p.strategy in strategies && p.asset in assets)
      ensures forall p | p in bank ::
        bank[p] == if p in old(bank) then old(bank)[p] else Account(initial, initial)
    {
      for i := 0 to |strategies|
        invariant forall p :: p in bank <==>
          p in old(bank) || (p.strategy in strategies[..i] && p.asset in assets)
        invariant forall p | p in bank ::
          bank[p] == if p in old(bank) then old(bank)[p] else Account(initial, initial)
      {
        for j := 0 to |assets|
          invariant forall p :: p in bank <==>
            || p in old(bank)
            || (p.strategy in strategies[..i] && p.asset in assets)
            || (p.strategy == strategies[i] && p.asset in assets[..j])
          invariant forall p | p in bank ::
            bank[p] == if p in old(bank) then old(bank)[p] else Account(initial, initial)
        {
          var p := Pair(strategies[i], assets[j]);
          if p !in bank {
            bank := bank[p := Account(initial, initial)];
          }
          assert assets[..j + 1] == assets[..j] + [assets[j]];
        }
        assert assets[..|assets|] == assets;
        assert strategies[..i + 1] == strategies[..i] + [strategies[i]];
      }
      assert strategies[..|strategies|] == strategies;
    }

    method DeductFee(p: Pair, amount: real)
      modifies this`bank
      ensures View() == Deduct(old(View()), p, amount)
    {
      if p in bank {
        bank := bank[p := bank[p].(current := bank[p].current - amount)];
      }
    }

    method ReserveAndInsertTrade(t: Trade) returns (id: Option<nat>)
      modifies this`bank, this`trades
      ensures (View(), id) == Reserve(old(View()), t)
      ensures id.Some? <==> t.pair in old(bank) && old(bank)[t.pair].current >= t.Cost()
      ensures id.Some? ==> trades == old(trades) + [t] && trades[id.value] == t
      ensures id.None? ==> unchanged(this)
    {
      if t.pair !in bank {
        return None;
      }
      var read := bank[t.pair].current;
      if read < t.Cost() {
        return None;
      }
      bank := bank[t.pair := bank[t.pair].(current := read - t.Cost())];
      trades := trades + [t];
      return Some(|trades| - 1);
    }

    method ResolveTrade(id: nat, outcome: Outcome, pnl: real)
      modifies this`bank, this`trades
      ensures View() == Resolve(old(View()), id, outcome, pnl)
    {
      if id >= |trades| {
        return;
      }
      var t := trades[id];
      trades := trades[id := t.(outcome := Some(outcome), pnl := Some(pnl))];
      var row := if t.pair in bank then bank[t.pair] else Account(0.0, 0.0);
      var balance := row.current + (t.Cost() + pnl);
      var peak := if row.peak < balance then balance else row.peak;
      if t.pair in bank {
        bank := bank[t.pair := Account(balance, peak)];
      }
    }

    method MoveToDeadLetter(id: nat)
      modifies this`trades, this`dead
      ensures View() == Ledger.MoveToDeadLetter(old(View()), id)
      ensures bank == old(bank)
    {
      if id >= |trades| {
        return;
      }
      var t := trades[id];
      dead := dead + [DeadLetter(id, t)];
      trades := trades[id := t.(outcome := Some(Void), pnl := Some(0.0))];
    }
  }

  /** Ids of the rows with no outcome, in id order. */
  function OpenIds(trades: seq<Trade>): (ids: seq<nat>)
    ensures forall i: nat :: i in ids <==> i < |trades| && trades[i].Open()
    ensures Distinct(ids)
  {
    if |trades| == 0 then []
    else
      var n := |trades| - 1;
      var before := OpenIds(trades[..n]);
      assert forall i: nat | i in before :: i < n && trades[..n][i] == trades[i];
      if trades[n].Open() then before + [n] else before
  }

  /** The open rows written before the cutoff. */
  function StaleIds(trades: seq<Trade>, cutoff: real): (ids: seq<nat>)
    ensures forall i: nat :: i in ids <==> i < |trades| && trades[i].Open() && trades[i].placedAt < cutoff
    ensures forall j | 0 <= j < |ids| :: ids[j] < |trades|
    ensures Distinct(ids)
  {
    if |trades| == 0 then []
    else
      var n := |trades| - 1;
      var before := StaleIds(trades[..n], cutoff);
      assert forall i: nat | i in before :: i < n && trades[..n][i] == trades[i];
      if trades[n].Open() && trades[n].placedAt < cutoff then before + [n] else before
  }

  ghost predicate Distinct<T>(s: seq<T>) {
    forall i, j | 0 <= i < j < |s| :: s[i] != s[j]
  }
}
