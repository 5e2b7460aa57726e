/** What holds in every state the bots, the resolver and the clock can bring about together. */
module Guarantees {
  import opened Common
  import opened Ledger
  import opened Protocol
  import Interleaving
  import Risk
  import Streaks
  import Windows

  // ---- conservation ----

  function GasFor(gas: real, n: nat): real {
    if n == 0 then 0.0 else GasFor(gas, n - 1) + gas
  }

  /** Orders of the pair whose gas has been taken: all but the one just booked. */
  function Charges(s: Sys, p: Pair): nat {
    var n := |Of(s.db.trades, p)|;
    if StageOf(s, p).Booked? && n > 0 then n - 1 else n
  }

  /** A bot that has just booked has a row to pay gas for. */
  ghost predicate BookedHasRow(s: Sys) {
    forall p | p in s.stages && s.stages[p].Booked? :: |Of(s.db.trades, p)| > 0
  }

  /** The books of every account balance against what it was opened with. */
  ghost predicate BooksBalance(cfg: Config, s: Sys, seeds: map<Pair, real>) {
    && BookedHasRow(s)
    && forall p | p in s.db.bank :: p in seeds && Conserved(s.db, p, seeds[p], GasFor(cfg.gas, Charges(s, p)))
  }

  lemma OfAppend(trades: seq<Trade>, t: Trade, p: Pair)
    ensures Of(trades + [t], p) == if t.pair == p then Of(trades, p) + [t] else Of(trades, p)
  {
  }

  /** Closing a row leaves the number of rows of every pair, and the rows of every other pair. */
  lemma {:induction false} OfUpdate(trades: seq<Trade>, i: nat, t: Trade, p: Pair)
    requires i < |trades| && t.pair == trades[i].pair
    ensures |Of(trades[i := t], p)| == |Of(trades, p)|
    ensures t.pair != p ==> Of(trades[i := t], p) == Of(trades, p)
  {
    var n := |trades| - 1;
    if i == n {
      assert trades[i := t][..n] == trades[..n];
    } else {
      assert trades[i := t][..n] == trades[..n][i := t];
      OfUpdate(trades[..n], i, t, p);
    }
  }

  lemma CallRows(cfg: Config, db: Db, op: Interleaving.Op, p: Pair)
    requires GoodCall(cfg, db, op)
    ensures var rows := Of(Interleaving.Whole(db, op).trades, p);
      |rows| == |Of(db.trades, p)| + if op.Place? && op.t.pair == p && Reserve(db, op.t).1.Some? then 1 else 0
  {
    match op
    case Place(t) => OfAppend(db.trades, t, p);
    case Fee(_, _) =>
    case Settle(id, o, pnl) => OfUpdate(db.trades, id, db.trades[id].(outcome := Some(o), pnl := Some(pnl)), p);
    case Discard(id) => OfUpdate(db.trades, id, db.trades[id].(outcome := Some(Void), pnl := Some(0.0)), p);
  }

  lemma CallConserves(cfg: Config, db: Db, op: Interleaving.Op, p: Pair, seed: real, fees: real)
    requires GoodCall(cfg, db, op) && Conserved(db, p, seed, fees)
    ensures Conserved(Interleaving.Whole(db, op), p, seed, if op.Fee? && op.p == p then fees + op.amount else fees)
  {
    match op
    case Place(t) => ReserveConserves(db, t, p, seed, fees);
    case Fee(q, amount) => DeductConserves(db, q, amount, p, seed, fees);
    case Settle(id, o, pnl) =>
      if db.trades[id].pair == p {
        ResolveConservesExactlyWhen(db, id, o, pnl, p, seed, fees);
      } else {
        ResolveConservesOthers(db, id, o, pnl, p, seed, fees);
      }
    case Discard(id) => VoidConserves(db, id, p, seed, fees);
  }

  lemma BookedAfter(cfg: Config, s: Sys, a: Action, p: Pair)
    requires p in cfg.bots
    ensures StageAfter(cfg, s, p, a).Booked?
       <==> if a.Book? && StageOf(s, p).Ready? then Reserve(s.db, StageOf(s, p).order.(placedAt := s.clock)).1.Some?
            else StageOf(s, p).Booked? && !a.Charge?
  {
  }

  /** Gas is taken exactly when the charge of a booked order is made. */
  lemma ChargesStep(cfg: Config, s: Sys, a: Action, p: Pair)
    requires Proper(cfg) && Tidy(cfg, s) && Solvent(cfg, s) && BookedHasRow(s)
    ensures Charges(Step(cfg, s, a), p)
         == Charges(s, p) + (if a == Charge(p) && StageOf(s, p).Booked? then 1 else 0)
    ensures StageOf(Step(cfg, s, a), p).Booked? ==> |Of(Step(cfg, s, a).db.trades, p)| > 0
  {
    StepFacts(cfg, s, a, p);
    if ByBot(a) && a.p == p && p in cfg.bots {
      BookedAfter(cfg, s, a, p);
    }
    RowsStep(cfg, s, a, p);
  }

  predicate Books(s: Sys, a: Action, p: Pair) {
    a == Book(p) && StageOf(s, p).Ready?
  }

  lemma RowsStep(cfg: Config, s: Sys, a: Action, p: Pair)
    requires Proper(cfg) && Tidy(cfg, s) && Solvent(cfg, s)
    ensures |Of(DbAfter(cfg, s, a).trades, p)| == |Of(s.db.trades, p)| + if Books(s, a, p) then 1 else 0
    ensures Books(s, a, p) ==> Reserve(s.db, StageOf(s, p).order.(placedAt := s.clock)).1.Some?
  {
    var call := Call(cfg, s, a);
    CallsAreGood(cfg, s, a);
    if call.Some? {
      CallRows(cfg, s.db, call.value, p);
    }
    if a.Book? && StageOf(s, a.p).Ready? {
      assert StageSane(StageOf(s, a.p), a.p);
      NeverRefused(cfg, s, a.p);
    }
  }

  lemma ConservationStep(cfg: Config, s: Sys, a: Action, seeds: map<Pair, real>)
    requires Proper(cfg) && Tidy(cfg, s) && Solvent(cfg, s) && BooksBalance(cfg, s, seeds)
    ensures BooksBalance(cfg, Step(cfg, s, a), seeds)
  {
    var s' := Step(cfg, s, a);
    forall p | p in s'.stages && s'.stages[p].Booked? ensures |Of(s'.db.trades, p)| > 0 {
      ChargesStep(cfg, s, a, p);
    }
    forall p | p in s'.db.bank
      ensures p in seeds && Conserved(s'.db, p, seeds[p], GasFor(cfg.gas, Charges(s', p)))
    {
      PairConserved(cfg, s, a, p, seeds);
    }
  }

  lemma TablesConserve(cfg: Config, s: Sys, a: Action, p: Pair, seed: real, fees: real)
    requires Proper(cfg) && Tidy(cfg, s) && Conserved(s.db, p, seed, fees)
    ensures Conserved(DbAfter(cfg, s, a), p, seed,
                      if a == Charge(p) && StageOf(s, p).Booked? then fees + cfg.gas else fees)
  {
    CallsAreGood(cfg, s, a);
    var call := Call(cfg, s, a);
    if call.Some? {
      CallConserves(cfg, s.db, call.value, p, seed, fees);
    }
    FeeCalls(cfg, s, a, p);
  }

  lemma PairConserved(cfg: Config, s: Sys, a: Action, p: Pair, seeds: map<Pair, real>)
    requires Proper(cfg) && Tidy(cfg, s) && Solvent(cfg, s) && BooksBalance(cfg, s, seeds)
    requires p in Step(cfg, s, a).db.bank
    ensures p in seeds
    ensures Conserved(Step(cfg, s, a).db, p, seeds[p], GasFor(cfg.gas, Charges(Step(cfg, s, a), p)))
  {
    StepFacts(cfg, s, a, p);
    ChargesStep(cfg, s, a, p);
    BankKeys(cfg, s, a);
    TablesConserve(cfg, s, a, p, seeds[p], GasFor(cfg.gas, Charges(s, p)));
  }

  lemma FeeCalls(cfg: Config, s: Sys, a: Action, p: Pair)
    ensures var call := Call(cfg, s, a);
      (call.Some? && call.value.Fee? && call.value.p == p) <==> (a == Charge(p) && StageOf(s, p).Booked?)
  {
  }

  // ---- settled once ----

  lemma ClosedStep(cfg: Config, s: Sys, a: Action, i: nat)
    requires Proper(cfg) && Tidy(cfg, s) && i < |s.db.trades| && !s.db.trades[i].Open()
    ensures i < |Step(cfg, s, a).db.trades| && Step(cfg, s, a).db.trades[i] == s.db.trades[i]
  {
    StepFacts(cfg, s, a, Pair("", ""));
    CallsAreGood(cfg, s, a);
    var call := Call(cfg, s, a);
    if call.Some? {
      RowsStaySane(cfg, s.db, call.value);
    }
  }

  /** Once a trade has an outcome, its row is never written again. */
  lemma {:induction false} SettledOnce(cfg: Config, s: Sys, actions: seq<Action>, i: nat)
    requires Proper(cfg) && Tidy(cfg, s) && i < |s.db.trades| && !s.db.trades[i].Open()
    ensures i < |Run(cfg, s, actions).db.trades| && Run(cfg, s, actions).db.trades[i] == s.db.trades[i]
    decreases |actions|
  {
    if |actions| > 0 {
      ClosedStep(cfg, s, actions[0], i);
      TidyStep(cfg, s, actions[0]);
      SettledOnce(cfg, Step(cfg, s, actions[0]), actions[1..], i);
    }
  }

  // ---- peaks ----

  /** The largest balance the account shows at any moment of the run. */
  ghost function HighestHeld(cfg: Config, s: Sys, actions: seq<Action>, p: Pair): real
    decreases |actions|
  {
    if |actions| == 0 then Current(s.db, p)
    else Max(Current(s.db, p), HighestHeld(cfg, Step(cfg, s, actions[0]), actions[1..], p))
  }

  lemma CallPeak(cfg: Config, db: Db, op: Interleaving.Op, p: Pair)
    requires GoodCall(cfg, db, op) && cfg.gas >= 0.0
    requires p in db.bank && db.bank[p].current <= db.bank[p].peak
    requires op.Place? ==> op.t.Cost() >= 0.0
    ensures var after := Interleaving.Whole(db, op);
      p in after.bank && after.bank[p].peak == Max(db.bank[p].peak, after.bank[p].current)
  {
  }

  lemma PeakStep(cfg: Config, s: Sys, a: Action, p: Pair)
    requires Proper(cfg) && Tidy(cfg, s) && Solvent(cfg, s) && p in s.db.bank
    ensures var s' := Step(cfg, s, a);
      p in s'.db.bank && Peak(s'.db, p) == Max(Peak(s.db, p), Current(s'.db, p))
  {
    StepFacts(cfg, s, a, p);
    CallsAreGood(cfg, s, a);
    assert Afloat(cfg, StageOf(s, p), s.db.bank[p]);
    var call := Call(cfg, s, a);
    if call.Some? {
      if call.value.Place? {
        StakePositive(call.value.t, call.value.t.Cost());
      }
      CallPeak(cfg, s.db, call.value, p);
    }
  }

  /** The stored peak is the largest balance ever held, in the run or as recorded before it. */
  lemma {:induction false} PeakIsHighestHeld(cfg: Config, s: Sys, actions: seq<Action>, p: Pair)
    requires Proper(cfg) && Tidy(cfg, s) && Solvent(cfg, s) && p in s.db.bank
    ensures Peak(Run(cfg, s, actions).db, p) == Max(Peak(s.db, p), HighestHeld(cfg, s, actions, p))
    decreases |actions|
  {
    assert Afloat(cfg, StageOf(s, p), s.db.bank[p]);
    if |actions| > 0 {
      var s' := Step(cfg, s, actions[0]);
      PeakStep(cfg, s, actions[0], p);
      TidyStep(cfg, s, actions[0]);
      SolventStep(cfg, s, actions[0]);
      PeakIsHighestHeld(cfg, s', actions[1..], p);
      CurrentIsHeld(cfg, s', actions[1..], p);
    }
  }

  lemma CurrentIsHeld(cfg: Config, s: Sys, actions: seq<Action>, p: Pair)
    ensures HighestHeld(cfg, s, actions, p) >= Current(s.db, p)
  {
  }

  // ---- orders per window ----

  predicate MidOrder(st: Stage) {
    !st.Idle? && !st.Funded?
  }

  /** Nothing is over its cap, and a bot past the capacity check still has room for its order. */
  ghost predicate CountsWithin(cfg: Config, s: Sys) {
    && s.clock >= 0.0 && Windows.NothingAhead(s.counts, Seconds(s))
    && (forall k | k in s.counts :: k.pair in cfg.bots && s.counts[k] <= cfg.bots[k.pair].maxOrders)
    && (forall p | p in s.stages && p in cfg.bots && MidOrder(s.stages[p]) :: OrdersNow(s, p) < cfg.bots[p].maxOrders)
  }

  /** When the window rolls, an order checked in the old one finds the new one empty. */
  lemma OrdersAfterTick(s: Sys, p: Pair, later: nat)
    requires Windows.NothingAhead(s.counts, Seconds(s)) && Seconds(s) <= later
    ensures var n := Windows.Lookup(s.counts, p, Windows.WindowKey(p.asset, later));
      n == OrdersNow(s, p) || n == 0
  {
    var w := Windows.WindowKey(p.asset, later);
    if Windows.Key(p, w) in s.counts {
      Windows.StillCurrent(p.asset, Seconds(s), later);
    }
  }

  lemma CountsStep(cfg: Config, s: Sys, a: Action)
    requires Tidy(cfg, s) && CountsWithin(cfg, s)
    ensures CountsWithin(cfg, Step(cfg, s, a))
  {
    var s' := Step(cfg, s, a);
    assert Seconds(s) <= Seconds(s');
    if a.Count? && StageOf(s, a.p).Charged? {
      StepFacts(cfg, s, a, a.p);
      CountedWithin(cfg, s, a.p);
    } else if a.Tick? {
      forall p | p in s'.stages && p in cfg.bots && MidOrder(s'.stages[p])
        ensures OrdersNow(s', p) < cfg.bots[p].maxOrders
      {
        OrdersAfterTick(s, p, Seconds(s'));
      }
    } else {
      forall p | p in s'.stages && p in cfg.bots && MidOrder(s'.stages[p])
        ensures OrdersNow(s', p) < cfg.bots[p].maxOrders
      {
        UncountedWithin(cfg, s, a, p);
      }
    }
  }

  lemma UncountedWithin(cfg: Config, s: Sys, a: Action, p: Pair)
    requires Tidy(cfg, s) && CountsWithin(cfg, s) && p in cfg.bots && !a.Tick?
    requires !(a.Count? && StageOf(s, a.p).Charged?)
    requires MidOrder(StageOf(Step(cfg, s, a), p))
    ensures OrdersNow(Step(cfg, s, a), p) < cfg.bots[p].maxOrders
  {
    StepFacts(cfg, s, a, p);
    if ByBot(a) && a.p == p {
      MidAfter(cfg, s, a, p);
    }
  }

  /** The capacity check is the only way in. */
  lemma MidAfter(cfg: Config, s: Sys, a: Action, p: Pair)
    requires p in cfg.bots && MidOrder(StageAfter(cfg, s, p, a))
    ensures MidOrder(StageOf(s, p)) || OrdersNow(s, p) < cfg.bots[p].maxOrders
  {
  }

  lemma CountedWithin(cfg: Config, s: Sys, p: Pair)
    requires Tidy(cfg, s) && CountsWithin(cfg, s) && p in cfg.bots && p in s.stages && s.stages[p].Charged?
    ensures CountsWithin(cfg, Step(cfg, s, Count(p)))
  {
    var s' := Step(cfg, s, Count(p));
    var now := Seconds(s);
    assert s'.counts == Windows.Recorded(s.counts, p, now) && s'.stages == s.stages[p := Idle];
    Windows.RecordCounts(s.counts, now, now, p, p);
    forall k | k in s'.counts ensures k.pair in cfg.bots && s'.counts[k] <= cfg.bots[k.pair].maxOrders {
      RecordedEntry(s.counts, p, now, k);
    }
    forall q | q in s'.stages && q in cfg.bots && MidOrder(s'.stages[q])
      ensures OrdersNow(s', q) < cfg.bots[q].maxOrders
    {
      Windows.RecordCounts(s.counts, now, now, p, q);
    }
  }

  /** A recorded count is the old one, or one more than the old one of the recorded key. */
  lemma RecordedEntry(counts: Windows.Counts, p: Pair, now: nat, k: Windows.Key)
    ensures var after := Windows.Recorded(counts, p, now);
      k in after ==>
        if k == Windows.Key(p, Windows.WindowKey(p.asset, now))
        then after[k] == Windows.Lookup(counts, p, Windows.WindowKey(p.asset, now)) + 1
        else k in counts && after[k] == counts[k]
  {
  }

  // ---- permanent halts ----

  ghost predicate NoneOpen(s: Sys, p: Pair) {
    forall t | t in Of(s.db.trades, p) :: !t.Open()
  }

  /** Nothing about the pair's rows or account has changed. */
  ghost predicate Frozen(s: Sys, s': Sys, p: Pair) {
    && Of(s'.db.trades, p) == Of(s.db.trades, p)
    && (p in s.db.bank <==> p in s'.db.bank)
    && (p in s.db.bank ==> s'.db.bank[p] == s.db.bank[p])
  }

  lemma {:induction false} OfMember(trades: seq<Trade>, i: nat)
    requires i < |trades|
    ensures trades[i] in Of(trades, trades[i].pair)
  {
    var n := |trades| - 1;
    if i < n {
      OfMember(trades[..n], i);
      assert trades[..n][i] == trades[i];
    }
  }

  lemma CallElsewhere(cfg: Config, db: Db, op: Interleaving.Op, p: Pair)
    requires GoodCall(cfg, db, op) && (forall t | t in Of(db.trades, p) :: !t.Open())
    requires op.Place? ==> op.t.pair != p
    requires op.Fee? ==> op.p != p
    ensures var after := Interleaving.Whole(db, op);
      && Of(after.trades, p) == Of(db.trades, p)
      && (p in db.bank <==> p in after.bank) && (p in db.bank ==> after.bank[p] == db.bank[p])
  {
    match op
    case Place(t) => OfAppend(db.trades, t, p);
    case Fee(_, _) =>
    case Settle(id, o, pnl) =>
      OfMember(db.trades, id);
      OfUpdate(db.trades, id, db.trades[id].(outcome := Some(o), pnl := Some(pnl)), p);
    case Discard(id) =>
      OfMember(db.trades, id);
      OfUpdate(db.trades, id, db.trades[id].(outcome := Some(Void), pnl := Some(0.0)), p);
  }

  lemma FrozenStep(cfg: Config, s: Sys, a: Action, p: Pair)
    requires Proper(cfg) && Tidy(cfg, s) && NoneOpen(s, p)
    requires !StageOf(s, p).Ready? && !StageOf(s, p).Booked?
    ensures Frozen(s, Step(cfg, s, a), p)
  {
    StepFacts(cfg, s, a, p);
    CallsAreGood(cfg, s, a);
    FeeCalls(cfg, s, a, p);
    var call := Call(cfg, s, a);
    if call.Some? {
      if call.value.Place? {
        assert StageSane(StageOf(s, a.p), a.p);
      }
      CallElsewhere(cfg, s.db, call.value, p);
    }
  }

  predicate BeforeDrawdown(st: Stage) {
    st.Idle? || st.Funded? || st.Spaced?
  }

  predicate BeforeBreaker(st: Stage) {
    BeforeDrawdown(st) || st.Sound? || st.Balanced?
  }

  /** The last N outcomes are losses, nothing is open and no order is past the breaker. */
  ghost predicate StreakHalt(cfg: Config, s: Sys, p: Pair) {
    Risk.OnLosingStreak(cfg.risk, s.db, p) && NoneOpen(s, p) && BeforeBreaker(StageOf(s, p))
  }

  /** The drawdown is at the disabling level, nothing is open and no order is past its check. */
  ghost predicate DrawdownHalt(cfg: Config, s: Sys, p: Pair) {
    && p in s.db.bank && Risk.TooDeep(s.db.bank[p].current, s.db.bank[p].peak, cfg.risk.disable)
    && NoneOpen(s, p) && BeforeDrawdown(StageOf(s, p))
  }

  /** Neither halt lets its bot past the check that reports it. */
  lemma HaltedStage(cfg: Config, s: Sys, a: Action, p: Pair)
    requires p in cfg.bots
    ensures Risk.OnLosingStreak(cfg.risk, s.db, p) && BeforeBreaker(StageOf(s, p))
      ==> BeforeBreaker(StageAfter(cfg, s, p, a))
    ensures DrawdownHalt(cfg, s, p) ==> BeforeDrawdown(StageAfter(cfg, s, p, a))
  {
  }

  lemma HaltStep(cfg: Config, s: Sys, a: Action, p: Pair)
    requires Proper(cfg) && Tidy(cfg, s) && (StreakHalt(cfg, s, p) || DrawdownHalt(cfg, s, p))
    ensures var s' := Step(cfg, s, a);
      && Frozen(s, s', p)
      && (StreakHalt(cfg, s, p) ==> StreakHalt(cfg, s', p))
      && (DrawdownHalt(cfg, s, p) ==> DrawdownHalt(cfg, s', p))
  {
    FrozenStep(cfg, s, a, p);
    StepFacts(cfg, s, a, p);
    Streaks.SameRowsSameStreak(s.db.trades, Step(cfg, s, a).db.trades, p, cfg.risk.losses);
    if p in cfg.bots {
      HaltedStage(cfg, s, a, p);
    }
  }

  /**
   A halt is for good.  Whatever the markets, the clock and the other bots do, no later step
   places, settles or pays anything on the pair; an expired cooldown only trips the breaker again.
   */
  lemma {:induction false} HaltedForever(cfg: Config, s: Sys, actions: seq<Action>, p: Pair)
    requires Proper(cfg) && Tidy(cfg, s) && (StreakHalt(cfg, s, p) || DrawdownHalt(cfg, s, p))
    ensures var end := Run(cfg, s, actions);
      Frozen(s, end, p) && (StreakHalt(cfg, end, p) || DrawdownHalt(cfg, end, p))
    decreases |actions|
  {
    if |actions| > 0 {
      HaltStep(cfg, s, actions[0], p);
      TidyStep(cfg, s, actions[0]);
      HaltedForever(cfg, Step(cfg, s, actions[0]), actions[1..], p);
    }
  }

  // ---- every reachable state ----

  ghost predicate Healthy(cfg: Config, s: Sys, seeds: map<Pair, real>) {
    Tidy(cfg, s) && Solvent(cfg, s) && BooksBalance(cfg, s, seeds) && CountsWithin(cfg, s)
  }

  lemma HealthyAtStart(cfg: Config, accounts: set<Pair>, initial: real, clock: real)
    requires Proper(cfg) && cfg.bots.Keys <= accounts && initial > -cfg.gas && clock >= 0.0
    ensures Healthy(cfg, Init(cfg, accounts, initial, clock), map p | p in accounts :: initial)
  {
  }

  /**
   Every reachable state: balances above minus one gas price and at most the peak, books that
   balance to the cent on every account, no window over its order cap, only open work pending.
   */
  lemma {:induction false} HealthyForever(cfg: Config, s: Sys, actions: seq<Action>, seeds: map<Pair, real>)
    requires Proper(cfg) && Healthy(cfg, s, seeds)
    ensures Healthy(cfg, Run(cfg, s, actions), seeds)
    decreases |actions|
  {
    if |actions| > 0 {
      var a := actions[0];
      TidyStep(cfg, s, a);
      SolventStep(cfg, s, a);
      ConservationStep(cfg, s, a, seeds);
      CountsStep(cfg, s, a);
      HealthyForever(cfg, Step(cfg, s, a), actions[1..], seeds);
    }
  }

  // ---- the protocol against the statement-level schedules ----

  /** The storage calls of a run, in order. */
  ghost function Calls(cfg: Config, s: Sys, actions: seq<Action>): seq<Interleaving.Op>
    decreases |actions|
  {
    if |actions| == 0 then []
    else
      var call := Call(cfg, s, actions[0]);
      (if call.Some? then [call.value] else []) + Calls(cfg, Step(cfg, s, actions[0]), actions[1..])
  }

  lemma {:induction false} SerialConcat(db: Db, a: seq<Interleaving.Op>, b: seq<Interleaving.Op>)
    ensures Interleaving.Serial(db, a + b) == Interleaving.Serial(Interleaving.Serial(db, a), b)
    decreases |b|
  {
    if |b| == 0 {
      assert a + b == a;
    } else {
      assert (a + b)[..|a + b| - 1] == a + b[..|b| - 1];
      SerialConcat(db, a, b[..|b| - 1]);
    }
  }

  /** A run leaves the tables that its storage calls leave when made one after another. */
  lemma {:induction false} RunIsSerial(cfg: Config, s: Sys, actions: seq<Action>)
    requires Proper(cfg) && Tidy(cfg, s)
    ensures Run(cfg, s, actions).db == Interleaving.Serial(s.db, Calls(cfg, s, actions))
    decreases |actions|
  {
    if |actions| > 0 {
      var a := actions[0];
      var call := Call(cfg, s, a);
      var s' := Step(cfg, s, a);
      StepFacts(cfg, s, a, Pair("", ""));
      TidyStep(cfg, s, a);
      RunIsSerial(cfg, s', actions[1..]);
      var head := if call.Some? then [call.value] else [];
      assert s'.db == Interleaving.Serial(s.db, head) by {
        if call.Some? {
          Interleaving.SerialAppend(s.db, [], call.value);
          assert [] + [call.value] == [call.value];
        }
      }
      SerialConcat(s.db, head, Calls(cfg, s', actions[1..]));
    }
  }

  /** The same books balance in the tables of any overlap-free schedule of the run's statements. */
  lemma ScheduleConserves(
    cfg: Config, s: Sys, actions: seq<Action>, seeds: map<Pair, real>, events: seq<Interleaving.Event>, p: Pair)
    requires Proper(cfg) && Healthy(cfg, s, seeds) && p in Run(cfg, s, actions).db.bank
    requires Interleaving.NoOverlap(Interleaving.Fresh(s.db), events)
    requires var end := Interleaving.Exec(Interleaving.Fresh(s.db), events);
      end.flights == map[] && end.ops == Calls(cfg, s, actions)
    ensures var end, run := Interleaving.Exec(Interleaving.Fresh(s.db), events), Run(cfg, s, actions);
      && end.db == run.db && p in seeds
      && Conserved(end.db, p, seeds[p], GasFor(cfg.gas, Charges(run, p)))
      && -cfg.gas < end.db.bank[p].current <= end.db.bank[p].peak
  {
    Interleaving.SerialEquivalence(s.db, events);
    RunIsSerial(cfg, s, actions);
    HealthyForever(cfg, s, actions, seeds);
    assert Afloat(cfg, StageOf(Run(cfg, s, actions), p), Run(cfg, s, actions).db.bank[p]);
  }
}
