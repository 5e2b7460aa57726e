/** The resolver: how markets are read, what a trade pays, and the two cycles over open trades. */
module Settlement {
  import opened Common
  import opened Ledger
  import opened Store

  const DEAD_LETTER_AFTER_HOURS: real := 6.0

  /** The parts of a fetched market that are read; `prices` is None when they cannot be parsed. */
  datatype Market = Market(resolution: Option<string>, closed: bool, prices: Option<seq<real>>)

  /** Markets fetched in one cycle; a market missing here could not be fetched. */
  type Answers = map<string, Market>

  function InferResolution(m: Market): Option<string> {
    if m.resolution.Some? then m.resolution
    else if !m.closed || m.prices.None? || |m.prices.value| < 2 then None
    else if m.prices.value[0] >= 0.99 then Some("1")
    else if m.prices.value[1] >= 0.99 then Some("0")
    else None
  }

  predicate Won(signal: Signal, resolution: string) {
    (resolution == "1") == (signal == BuyYes)
  }

  function Gross(entry: real, size: real): real {
    (1.0 - entry) * size
  }

  function Fee(gross: real, feePct: real): real {
    gross * feePct
  }

  function CalculatePnl(signal: Signal, entry: real, size: real, resolution: string, feePct: real): (Outcome, real) {
    if Won(signal, resolution) then
      (Win, Gross(entry, size) - Fee(Gross(entry, size), feePct))
    else (Loss, -entry * size)
  }

  predicate Sane(t: Trade) {
    0.0 < t.entry < 1.0 && t.size > 0.0
  }

  /** What goes back into the account: nothing on a loss, something on a win. */
  lemma LossPaysNothing(t: Trade, resolution: string, feePct: real)
    requires Sane(t) && feePct <= 1.0
    ensures var (outcome, pnl) := CalculatePnl(t.signal, t.entry, t.size, resolution, feePct);
      && t.Cost() + pnl >= 0.0
      && (t.Cost() + pnl == 0.0 <==> outcome == Loss)
      && outcome != Void
  {
    if Won(t.signal, resolution) {
      WinPays(t.entry, t.size, feePct);
    } else {
      assert -t.entry * t.size == -(t.entry * t.size);
    }
  }

  lemma WinPays(entry: real, size: real, feePct: real)
    requires 0.0 < entry < 1.0 && size > 0.0 && feePct <= 1.0
    ensures entry * size + (Gross(entry, size) - Fee(Gross(entry, size), feePct)) > 0.0
  {
    var gross := Gross(entry, size);
    ProductSign(entry, size);
    ProductSign(1.0 - entry, size);
    ProductSign(1.0 - feePct, gross);
    assert (1.0 - feePct) * gross == gross - Fee(gross, feePct);
  }

  /** The resolution of the trade's market, when it has a market that was fetched and is decided. */
  function Verdict(t: Trade, answers: Answers): Option<string> {
    if t.market.Some? && t.market.value != "" && t.market.value in answers
    then InferResolution(answers[t.market.value]) else None
  }

  function SettledRow(t: Trade, answers: Answers, feePct: real): Trade {
    var v := Verdict(t, answers);
    if v.None? then t
    else
      var (outcome, pnl) := CalculatePnl(t.signal, t.entry, t.size, v.value, feePct);
      t.(outcome := Some(outcome), pnl := Some(pnl))
  }

  // ---- who is paid what, told by the market alone ----

  predicate TwoPrices(m: Market) {
    m.resolution.None? && m.closed && m.prices.Some? && |m.prices.value| >= 2
  }

  /** The market says "1", or it is closed and its first price has gone to one. */
  predicate YesWon(m: Market) {
    m.resolution == Some("1") || (TwoPrices(m) && m.prices.value[0] >= 0.99)
  }

  /** It says anything else, or it is closed and only its second price has gone to one. */
  predicate NoWon(m: Market) {
    || (m.resolution.Some? && m.resolution.value != "1")
    || (TwoPrices(m) && m.prices.value[0] < 0.99 && m.prices.value[1] >= 0.99)
  }

  predicate PaidOut(before: Trade, after: Trade, feePct: real) {
    after == before.(outcome := Some(Win), pnl := Some((1.0 - before.entry) * before.size * (1.0 - feePct)))
  }

  predicate LostAll(before: Trade, after: Trade) {
    after == before.(outcome := Some(Loss), pnl := Some(-(before.entry * before.size)))
  }

  /** A YES bet is paid when YES has won, any other bet when NO has; an undecided market changes nothing. */
  predicate ClosedAsDue(before: Trade, after: Trade, answers: Answers, feePct: real) {
    if before.market.None? || before.market.value == "" || before.market.value !in answers then after == before
    else
      var m := answers[before.market.value];
      && (YesWon(m) && before.signal == BuyYes ==> PaidOut(before, after, feePct))
      && (YesWon(m) && before.signal != BuyYes ==> LostAll(before, after))
      && (NoWon(m) && before.signal == BuyYes ==> LostAll(before, after))
      && (NoWon(m) && before.signal != BuyYes ==> PaidOut(before, after, feePct))
      && (!YesWon(m) && !NoWon(m) ==> after == before)
  }

  lemma Inferred(m: Market)
    ensures YesWon(m) <==> InferResolution(m) == Some("1")
    ensures NoWon(m) <==> InferResolution(m).Some? && InferResolution(m).value != "1"
  {
  }

  lemma SettledAsDue(t: Trade, answers: Answers, feePct: real)
    ensures ClosedAsDue(t, SettledRow(t, answers, feePct), answers, feePct)
  {
    if t.market.Some? && t.market.value != "" && t.market.value in answers {
      var m := answers[t.market.value];
      Inferred(m);
      if YesWon(m) || NoWon(m) {
        SidePaid(t, InferResolution(m).value, feePct);
      }
    }
  }

  /** A bet is paid in full when it is on the winning side, and lost otherwise. */
  lemma SidePaid(t: Trade, resolution: string, feePct: real)
    ensures var (outcome, pnl) := CalculatePnl(t.signal, t.entry, t.size, resolution, feePct);
      var after := t.(outcome := Some(outcome), pnl := Some(pnl));
      if (resolution == "1" && t.signal == BuyYes) || (resolution != "1" && t.signal != BuyYes)
      then PaidOut(t, after, feePct) else LostAll(t, after)
  {
    FeeTaken(t.entry, t.size, feePct);
    var (outcome, pnl) := CalculatePnl(t.signal, t.entry, t.size, resolution, feePct);
    if Won(t.signal, resolution) {
      assert pnl == (1.0 - t.entry) * t.size * (1.0 - feePct);
    } else {
      assert pnl == -(t.entry * t.size);
    }
  }

  lemma FeeTaken(entry: real, size: real, feePct: real)
    ensures Gross(entry, size) - Fee(Gross(entry, size), feePct) == (1.0 - entry) * size * (1.0 - feePct)
    ensures -entry * size == -(entry * size)
  {
    var gross := (1.0 - entry) * size;
    assert gross * (1.0 - feePct) == gross - gross * feePct;
  }

  function SettleOne(db: Db, id: nat, answers: Answers, feePct: real): Db {
    if id < |db.trades| && Verdict(db.trades[id], answers).Some? then
      var t := db.trades[id];
      var (outcome, pnl) := CalculatePnl(t.signal, t.entry, t.size, Verdict(t, answers).value, feePct);
      Resolve(db, id, outcome, pnl)
    else db
  }

  function SettleList(db: Db, ids: seq<nat>, answers: Answers, feePct: real): Db {
    if |ids| == 0 then db
    else SettleOne(SettleList(db, ids[..|ids| - 1], answers, feePct), ids[|ids| - 1], answers, feePct)
  }

  /** Rows after settling a duplicate-free list: the listed ones closed once, the rest untouched. */
  lemma {:induction false} SettleListRows(db: Db, ids: seq<nat>, answers: Answers, feePct: real)
    requires Distinct(ids)
    ensures var end := SettleList(db, ids, answers, feePct);
      && |end.trades| == |db.trades| && end.dead == db.dead && end.bank.Keys == db.bank.Keys
      && forall i: nat | i < |db.trades| ::
           end.trades[i] == if i in ids then SettledRow(db.trades[i], answers, feePct) else db.trades[i]
  {
    if |ids| > 0 {
      var n := |ids| - 1;
      SettleListRows(db, ids[..n], answers, feePct);
      assert ids[n] !in ids[..n];
      assert forall i: nat :: i in ids <==> i in ids[..n] || i == ids[n];
    }
  }

  /** The next listed row still reads as it did at the start, so settling it uses the same numbers. */
  lemma SettleListNext(db: Db, ids: seq<nat>, id: nat, resolution: string, answers: Answers, feePct: real)
    requires Distinct(ids) && id !in ids && id < |db.trades|
    requires Verdict(db.trades[id], answers) == Some(resolution)
    ensures var t := db.trades[id];
      var (outcome, pnl) := CalculatePnl(t.signal, t.entry, t.size, resolution, feePct);
      SettleList(db, ids + [id], answers, feePct) == Resolve(SettleList(db, ids, answers, feePct), id, outcome, pnl)
  {
    SettleListRows(db, ids, answers, feePct);
    assert (ids + [id])[..|ids|] == ids;
  }

  lemma SettleOneConserves(
    db: Db, id: nat, answers: Answers, feePct: real, p: Pair, seed: real, fees: real)
    requires id < |db.trades| && db.trades[id].Open() && Conserved(db, p, seed, fees)
    ensures Conserved(SettleOne(db, id, answers, feePct), p, seed, fees)
  {
    var t := db.trades[id];
    if Verdict(t, answers).Some? {
      var (outcome, pnl) := CalculatePnl(t.signal, t.entry, t.size, Verdict(t, answers).value, feePct);
      if t.pair == p {
        ResolveConservesExactlyWhen(db, id, outcome, pnl, p, seed, fees);
      } else {
        ResolveConservesOthers(db, id, outcome, pnl, p, seed, fees);
      }
    }
  }

  /** The books balance after the list as before it, when every listed row was open. */
  lemma {:induction false} SettleListConserves(
    db: Db, ids: seq<nat>, answers: Answers, feePct: real, p: Pair, seed: real, fees: real)
    requires Distinct(ids) && Conserved(db, p, seed, fees)
    requires forall i | i in ids :: i < |db.trades| && db.trades[i].Open()
    ensures Conserved(SettleList(db, ids, answers, feePct), p, seed, fees)
  {
    if |ids| > 0 {
      var n := |ids| - 1;
      assert forall i :: i in ids[..n] ==> i in ids;
      SettleListConserves(db, ids[..n], answers, feePct, p, seed, fees);
      SettleListRows(db, ids[..n], answers, feePct);
      var id, mid := ids[n], SettleList(db, ids[..n], answers, feePct);
      assert id !in ids[..n] && id in ids;
      assert id < |db.trades| && mid.trades[id] == db.trades[id];
      SettleOneConserves(mid, id, answers, feePct, p, seed, fees);
    }
  }

  /** Settlements only ever raise a balance, so the peak afterwards is the larger of the two ends. */
  lemma {:induction false} SettleListPeak(db: Db, ids: seq<nat>, answers: Answers, feePct: real, p: Pair)
    requires Distinct(ids) && feePct <= 1.0 && p in db.bank && db.bank[p].current <= db.bank[p].peak
    requires forall i | i in ids :: i < |db.trades| && Sane(db.trades[i])
    ensures var end := SettleList(db, ids, answers, feePct);
      && p in end.bank && end.bank[p].current >= db.bank[p].current
      && end.bank[p].peak == Max(db.bank[p].peak, end.bank[p].current)
  {
    if |ids| > 0 {
      var n := |ids| - 1;
      SettleListPeak(db, ids[..n], answers, feePct, p);
      SettleListRows(db, ids[..n], answers, feePct);
      var mid := SettleList(db, ids[..n], answers, feePct);
      assert ids[n] !in ids[..n] && ids[n] in ids;
      var t := mid.trades[ids[n]];
      if Verdict(t, answers).Some? {
        LossPaysNothing(t, Verdict(t, answers).value, feePct);
      }
    }
  }

  /** `groups` holds the ids seen so far that carry a market, each under its market. */
  ghost predicate Grouped(rows: seq<Trade>, seen: seq<nat>, markets: seq<string>, groups: map<string, seq<nat>>) {
    && (forall m :: m in markets <==> m in groups)
    && Distinct(markets)
    && (forall m | m in groups :: Distinct(groups[m]))
    && (forall m, id | m in groups && id in groups[m] ::
          id in seen && id < |rows| && rows[id].market == Some(m) && m != "")
    && (forall id | id in seen && id < |rows| && rows[id].market.Some? && rows[id].market.value != "" ::
          rows[id].market.value in groups && id in groups[rows[id].market.value])
  }

  /** The trade belongs to one of the markets handled so far, and that market is decided. */
  ghost predicate Due(
    rows: seq<Trade>, markets: seq<string>, groups: map<string, seq<nat>>, answers: Answers, id: nat)
  {
    && id < |rows| && rows[id].market.Some? && rows[id].market.value in markets
    && rows[id].market.value in groups && id in groups[rows[id].market.value]
    && Verdict(rows[id], answers).Some?
  }

  ghost predicate Worked(
    rows: seq<Trade>, markets: seq<string>, groups: map<string, seq<nat>>, answers: Answers, done: seq<nat>)
  {
    Distinct(done) && forall id: nat :: id in done <==> Due(rows, markets, groups, answers, id)
  }

  lemma JoinedDistinct(a: seq<nat>, b: seq<nat>)
    requires Distinct(a) && Distinct(b) && forall x | x in a :: x !in b
    ensures Distinct(a + b)
  {
    forall i, j | 0 <= i < j < |a + b| ensures (a + b)[i] != (a + b)[j] {
      if i < |a| <= j {
        assert a[i] in a && b[j - |a|] in b;
      }
    }
  }

  lemma GroupMember(
    rows: seq<Trade>, seen: seq<nat>, markets: seq<string>, groups: map<string, seq<nat>>, m: string, id: nat)
    requires Grouped(rows, seen, markets, groups) && m in groups && id in groups[m]
    ensures id < |rows| && rows[id].market == Some(m)
  {
  }

  /** A trade is due after one more market exactly when it was before, or is of that market and it is decided. */
  lemma DueNext(
    rows: seq<Trade>, seen: seq<nat>, markets: seq<string>, groups: map<string, seq<nat>>,
    answers: Answers, k: nat, id: nat)
    requires Grouped(rows, seen, markets, groups) && k < |markets|
    ensures var m := markets[k];
      Due(rows, markets[..k + 1], groups, answers, id) <==>
        Due(rows, markets[..k], groups, answers, id)
        || (m in answers && InferResolution(answers[m]).Some? && id in groups[m])
    ensures Due(rows, markets[..k], groups, answers, id) ==> id !in groups[markets[k]]
  {
    var m := markets[k];
    assert markets[..k + 1] == markets[..k] + [m];
    assert m !in markets[..k] && m in markets && m in groups;
    if id in groups[m] {
      GroupMember(rows, seen, markets, groups, m, id);
    }
  }

  lemma WorkedNext(
    rows: seq<Trade>, seen: seq<nat>, markets: seq<string>, groups: map<string, seq<nat>>,
    answers: Answers, k: nat, done: seq<nat>)
    requires Grouped(rows, seen, markets, groups) && k < |markets|
    requires Worked(rows, markets[..k], groups, answers, done)
    ensures var m := markets[k];
      var more := if m in answers && InferResolution(answers[m]).Some? then groups[m] else [];
      Distinct(done + more) && Worked(rows, markets[..k + 1], groups, answers, done + more)
  {
    var m := markets[k];
    var more := if m in answers && InferResolution(answers[m]).Some? then groups[m] else [];
    assert m in markets && m in groups;
    forall id: nat
      ensures id in done + more <==> Due(rows, markets[..k + 1], groups, answers, id)
      ensures id in done ==> id !in more
    {
      DueNext(rows, seen, markets, groups, answers, k, id);
      assert id in done <==> Due(rows, markets[..k], groups, answers, id);
    }
    JoinedDistinct(done, more);
  }

  /** All trades of a group have the verdict of its market. */
  lemma GroupVerdict(
    rows: seq<Trade>, seen: seq<nat>, markets: seq<string>, groups: map<string, seq<nat>>, answers: Answers, m: string)
    requires Grouped(rows, seen, markets, groups) && m in markets && m in answers
    ensures m in groups
    ensures forall id | id in groups[m] :: id < |rows| && Verdict(rows[id], answers) == InferResolution(answers[m])
  {
    assert m in groups;
    forall id | id in groups[m]
      ensures id < |rows| && Verdict(rows[id], answers) == InferResolution(answers[m])
    {
      assert id in seen && rows[id].market == Some(m) && m != "";
    }
  }

  method GroupByMarket(rows: seq<Trade>, ids: seq<nat>)
    returns (markets: seq<string>, groups: map<string, seq<nat>>)
    requires Distinct(ids) && forall id | id in ids :: id < |rows|
    ensures Grouped(rows, ids, markets, groups)
  {
    markets, groups := [], map[];
    for k := 0 to |ids|
      invariant Grouped(rows, ids[..k], markets, groups)
    {
      var id := ids[k];
      assert id in ids && id !in ids[..k];
      var m := rows[id].market;
      assert ids[..k + 1] == ids[..k] + [id];
      ghost var before := groups;
      if m.Some? && m.value != "" {
        if m.value !in groups {
          markets := markets + [m.value];
          groups := groups[m.value := []];
        }
        groups := groups[m.value := groups[m.value] + [id]];
        assert forall n | n in groups && n != m.value :: n in before && groups[n] == before[n];
        assert forall i | i in groups[m.value] :: i == id || (m.value in before && i in before[m.value]);
      }
    }
    assert ids[..|ids|] == ids;
  }

  /** What the loop has in hand: open rows of decided markets, each once. */
  ghost predicate Decided(trades: seq<Trade>, done: seq<nat>, answers: Answers) {
    && Distinct(done) && (forall k | 0 <= k < |done| :: done[k] < |trades|)
    && forall id | id in done :: id < |trades| && trades[id].Open() && Verdict(trades[id], answers).Some?
  }

  /** The next of some ids is not among those before it. */
  lemma ListedNext(done: seq<nat>, ids: seq<nat>, j: nat)
    requires Distinct(done + ids) && j < |ids|
    ensures Distinct(done + ids[..j]) && ids[j] !in done + ids[..j]
    ensures done + ids[..j] + [ids[j]] == done + ids[..j + 1]
  {
    assert forall i | 0 <= i < |done| + j :: (done + ids)[i] == (done + ids[..j])[i];
    assert (done + ids)[|done| + j] == ids[j];
  }

  class Resolver {
    const db: Database
    const feePct: real

    constructor (db: Database, feePct: real)
      ensures this.db == db && this.feePct == feePct
    {
      this.db, this.feePct := db, feePct;
    }

    /** Settles the trades of one decided market, using the rows as they were first read. */
    method SettleMarket(rows: seq<Trade>, ids: seq<nat>, resolution: string,
                        ghost start: Db, ghost done: seq<nat>, ghost answers: Answers)
      requires start.trades == rows && Distinct(done + ids)
      requires forall id | id in ids :: id < |rows| && Verdict(rows[id], answers) == Some(resolution)
      requires db.View() == SettleList(start, done, answers, feePct)
      modifies db
      ensures db.View() == SettleList(start, done + ids, answers, feePct)
    {
      assert done + ids[..0] == done;
      for j := 0 to |ids|
        invariant db.View() == SettleList(start, done + ids[..j], answers, feePct)
      {
        var id := ids[j];
        assert id in ids;
        var t := rows[id];
        var (outcome, pnl) := CalculatePnl(t.signal, t.entry, t.size, resolution, feePct);
        ListedNext(done, ids, j);
        SettleListNext(start, done + ids[..j], id, resolution, answers, feePct);
        db.ResolveTrade(id, outcome, pnl);
      }
      assert done + ids[..|ids|] == done + ids;
    }

    /**
     One pass: the open trades are read once, grouped by market so that each market is looked
     up once, and every trade of a decided market is settled.
     */
    method ResolveCycle(answers: Answers) returns (ghost done: seq<nat>)
      modifies db
      ensures Decided(old(db.trades), done, answers)
      ensures db.View() == SettleList(old(db.View()), done, answers, feePct)
      ensures |db.trades| == |old(db.trades)| && db.dead == old(db.dead) && db.bank.Keys == old(db.bank.Keys)
      ensures forall i: nat | i < |db.trades| ::
        db.trades[i] == if old(db.trades)[i].Open() then SettledRow(old(db.trades)[i], answers, feePct)
                        else old(db.trades)[i]
      ensures forall i: nat | i < |db.trades| && old(db.trades)[i].Open() ::
        ClosedAsDue(old(db.trades)[i], db.trades[i], answers, feePct)
      ensures forall p, seed, fees ::
        Conserved(old(db.View()), p, seed, fees) ==> Conserved(db.View(), p, seed, fees)
      ensures feePct <= 1.0 && (forall t | t in old(db.trades) :: Sane(t)) ==>
        forall p | p in old(db.bank) && old(db.bank)[p].current <= old(db.bank)[p].peak ::
          p in db.bank && db.bank[p].peak == Max(old(db.bank)[p].peak, db.bank[p].current)
    {
      ghost var start := db.View();
      var rows := db.trades;
      var open := OpenIds(rows);
      var markets, groups := GroupByMarket(rows, open);
      done := [];
      for k := 0 to |markets|
        invariant db.View() == SettleList(start, done, answers, feePct)
        invariant Worked(rows, markets[..k], groups, answers, done)
      {
        var m := markets[k];
        WorkedNext(rows, open, markets, groups, answers, k, done);
        if m in answers {
          var resolution := InferResolution(answers[m]);
          if resolution.Some? {
            GroupVerdict(rows, open, markets, groups, answers, m);
            SettleMarket(rows, groups[m], resolution.value, start, done, answers);
            done := done + groups[m];
          }
        }
        assert done + [] == done;
      }
      assert markets[..|markets|] == markets;
      CycleDone(start, markets, groups, answers, done, feePct);
      forall i: nat | i < |db.trades| && start.trades[i].Open()
        ensures ClosedAsDue(start.trades[i], db.trades[i], answers, feePct)
      {
        SettledAsDue(start.trades[i], answers, feePct);
      }
    }

    /** Voids the trades open for too long; their stakes are not given back. */
    method DlqCycle(now: real)
      modifies db
      ensures db.View() == VoidList(old(db.View()), StaleIds(old(db.trades), now - DEAD_LETTER_AFTER_HOURS * 3600.0))
      ensures var cutoff := now - 6.0 * 3600.0;
        && db.bank == old(db.bank) && |db.trades| == |old(db.trades)|
        && (forall i: nat | i < |db.trades| ::
              var t := old(db.trades)[i];
              db.trades[i] == if t.Open() && t.placedAt < cutoff
                              then t.(outcome := Some(Void), pnl := Some(0.0)) else t)
        && (var ids := StaleIds(old(db.trades), cutoff);
            db.dead == old(db.dead) + Letters(old(db.trades), ids))
      ensures forall p, seed, fees ::
        Conserved(old(db.View()), p, seed, fees) ==> Conserved(db.View(), p, seed, fees)
    {
      ghost var start := db.View();
      var stale := StaleIds(db.trades, now - DEAD_LETTER_AFTER_HOURS * 3600.0);
      for k := 0 to |stale|
        invariant db.View() == VoidList(start, stale[..k])
      {
        assert stale[..k + 1][..k] == stale[..k];
        db.MoveToDeadLetter(stale[k]);
      }
      assert stale[..|stale|] == stale;
      assert forall j | 0 <= j < |stale| :: stale[j] in stale;
      VoidListRows(start, stale);
      forall p, seed, fees | Conserved(start, p, seed, fees) ensures Conserved(db.View(), p, seed, fees) {
        VoidListConserves(start, stale, p, seed, fees);
      }
    }
  }

  /** Every listed row voided, in order. */
  function VoidList(db: Db, ids: seq<nat>): Db {
    if |ids| == 0 then db else MoveToDeadLetter(VoidList(db, ids[..|ids| - 1]), ids[|ids| - 1])
  }

  /** A duplicate-free list of open rows: each gets one dead letter holding it as it was. */
  lemma {:induction false} VoidListRows(db: Db, ids: seq<nat>)
    requires Distinct(ids)
    requires forall j | 0 <= j < |ids| :: ids[j] < |db.trades| && db.trades[ids[j]].Open()
    ensures var end := VoidList(db, ids);
      && end.bank == db.bank && |end.trades| == |db.trades|
      && (forall i: nat | i < |db.trades| :: end.trades[i]
            == if i in ids then db.trades[i].(outcome := Some(Void), pnl := Some(0.0)) else db.trades[i])
      && end.dead == db.dead + Letters(db.trades, ids)
  {
    if |ids| > 0 {
      var n := |ids| - 1;
      assert forall i :: i in ids <==> i in ids[..n] || i == ids[n];
      assert ids[n] !in ids[..n];
      VoidListRows(db, ids[..n]);
    }
  }

  /** The books balance after the list as before it. */
  lemma {:induction false} VoidListConserves(db: Db, ids: seq<nat>, p: Pair, seed: real, fees: real)
    requires Distinct(ids) && Conserved(db, p, seed, fees)
    requires forall j | 0 <= j < |ids| :: ids[j] < |db.trades| && db.trades[ids[j]].Open()
    ensures Conserved(VoidList(db, ids), p, seed, fees)
  {
    if |ids| > 0 {
      var n := |ids| - 1;
      VoidListConserves(db, ids[..n], p, seed, fees);
      VoidListRows(db, ids[..n]);
      assert ids[n] !in ids[..n];
      VoidConserves(VoidList(db, ids[..n]), ids[n], p, seed, fees);
    }
  }

  function Letters(rows: seq<Trade>, ids: seq<nat>): (r: seq<DeadLetter>)
    requires forall j | 0 <= j < |ids| :: ids[j] < |rows|
    ensures |r| == |ids| && forall j | 0 <= j < |ids| :: r[j] == DeadLetter(ids[j], rows[ids[j]])
  {
    if |ids| == 0 then []
    else Letters(rows, ids[..|ids| - 1]) + [DeadLetter(ids[|ids| - 1], rows[ids[|ids| - 1]])]
  }

  lemma CycleDone(
    start: Db, markets: seq<string>, groups: map<string, seq<nat>>, answers: Answers, done: seq<nat>, feePct: real)
    requires Grouped(start.trades, OpenIds(start.trades), markets, groups)
    requires Worked(start.trades, markets, groups, answers, done)
    ensures Decided(start.trades, done, answers)
    ensures var end := SettleList(start, done, answers, feePct);
      && |end.trades| == |start.trades| && end.dead == start.dead && end.bank.Keys == start.bank.Keys
      && (forall i: nat | i < |end.trades| ::
            end.trades[i] == if start.trades[i].Open() then SettledRow(start.trades[i], answers, feePct)
                             else start.trades[i])
      && (forall p, seed, fees :: Conserved(start, p, seed, fees) ==> Conserved(end, p, seed, fees))
      && (feePct <= 1.0 && (forall t | t in start.trades :: Sane(t)) ==>
            forall p | p in start.bank && start.bank[p].current <= start.bank[p].peak ::
              p in end.bank && end.bank[p].peak == Max(start.bank[p].peak, end.bank[p].current))
  {
    var end := SettleList(start, done, answers, feePct);
    SettleListRows(start, done, answers, feePct);
    forall i: nat | i < |end.trades|
      ensures end.trades[i] == if start.trades[i].Open() then SettledRow(start.trades[i], answers, feePct)
                               else start.trades[i]
    {
      assert i in done <==> Due(start.trades, markets, groups, answers, i);
      if start.trades[i].Open() {
        assert i in OpenIds(start.trades);
      }
    }
    forall i | i in done
      ensures i < |start.trades| && start.trades[i].Open() && Verdict(start.trades[i], answers).Some?
    {
      assert Due(start.trades, markets, groups, answers, i);
    }
    assert forall k | 0 <= k < |done| :: done[k] in done;
    forall p, seed, fees | Conserved(start, p, seed, fees) ensures Conserved(end, p, seed, fees) {
      SettleListConserves(start, done, answers, feePct, p, seed, fees);
    }
    if feePct <= 1.0 && forall t | t in start.trades :: Sane(t) {
      forall p | p in start.bank && start.bank[p].current <= start.bank[p].peak
        ensures p in end.bank && end.bank[p].peak == Max(start.bank[p].peak, end.bank[p].current)
      {
        SettleListPeak(start, done, answers, feePct, p);
      }
    }
  }
}
