/**
 The trading bots and the resolver running at once.  Each storage call is one step here
 (`Interleaving.SerialEquivalence` says when that is faithful), but placing an order is not:
 a bot goes through the stages of `Executor.execute` one await at a time, and any other
 bot, the resolver or the clock may move between two of them.
 */
module Protocol {
  import opened Common
  import opened Ledger
  import opened Store
  import Interleaving
  import Risk
  import Settlement
  import Sizing
  import Windows

  datatype Plan = Plan(maxOrders: int, maxElapsed: real, scaling: bool, maxEntryYes: real, maxEntryNo: real)

  datatype Config = Config(
    gas: real, slippageBps: real, feePct: real, risk: Risk.Config, sizer: Sizing.Config, bots: map<Pair, Plan>)

  datatype Regime = Trending | Ranging | Volatile | Unknown

  /** How far a bot has come in placing an order; `budget` is the balance it read first. */
  datatype Stage =
    | Idle
    | Funded(signal: Signal, budget: real)
    | Spaced(signal: Signal, budget: real)
    | Sound(signal: Signal, budget: real)
    | Balanced(signal: Signal, budget: real)
    | Cleared(signal: Signal, budget: real)
    | Ready(budget: real, order: Trade)
    | Booked
    | Charged

  /** The resolver's list: trades still to look at, or stale trades still to void. */
  datatype Work = Resting | Settling(ids: seq<nat>) | Voiding(ids: seq<nat>)

  datatype Sys = Sys(
    db: Db, counts: Windows.Counts, cooldown: Risk.Cooldowns, clock: real, stages: map<Pair, Stage>, work: Work)

  /** A step, with whatever the outside world answers in it. */
  datatype Action =
    | Begin(p: Pair, signal: Signal, vpn: bool)
    | Space(p: Pair, elapsed: real)
    | CheckDrawdown(p: Pair)
    | CheckCorrelation(p: Pair)
    | CheckBreaker(p: Pair)
    | Price(p: Pair, market: Option<string>, ask: real, regime: Regime)
    | Book(p: Pair)
    | Charge(p: Pair)
    | Count(p: Pair)
    | Poll(order: seq<nat>)
    | SettleNext(resolution: Option<string>)
    | Sweep
    | VoidNext
    | Rest
    | Tick(dt: real)

  function Seconds(s: Sys): nat {
    if s.clock < 0.0 then 0 else s.clock.Floor
  }

  function StageOf(s: Sys, p: Pair): Stage {
    if p in s.stages then s.stages[p] else Idle
  }

  function OrdersNow(s: Sys, p: Pair): nat {
    Windows.Lookup(s.counts, p, Windows.WindowKey(p.asset, Seconds(s)))
  }

  // ---- pricing and sizing an order ----

  function Multiplier(strategy: string, regime: Regime): (m: real)
    ensures m == 1.0 || m == 0.8 || m == 0.5
  {
    if regime.Volatile? then 0.5
    else if regime.Ranging? && "TURBO" <= strategy then 0.8
    else 1.0
  }

  function EntryPrice(cfg: Config, ask: real): real {
    ask * (1.0 + cfg.slippageBps / 10000.0)
  }

  function Scaled(size: real, m: real): real {
    if m == 1.0 then size else Max(1.0, size * m)
  }

  function OrderSize(cfg: Config, db: Db, p: Pair, budget: real, regime: Regime): real {
    Scaled(Sizing.KellySize(cfg.sizer, Sizing.RollingStats(db, p, cfg.sizer.rollingWindow), budget),
           Multiplier(p.strategy, regime))
  }

  predicate AlreadyOn(trades: seq<Trade>, p: Pair, market: string) {
    exists t :: t in trades && t.pair == p && t.Open() && t.market == Some(market)
  }

  function PriceOrder(
    cfg: Config, db: Db, p: Pair, signal: Signal, budget: real, market: Option<string>, ask: real, regime: Regime,
    now: real): Option<Trade>
    requires p in cfg.bots
  {
    var entry := EntryPrice(cfg, ask);
    if market.None? || (!cfg.bots[p].scaling && AlreadyOn(db.trades, p, market.value)) then None
    else if entry <= 0.0 || entry >= 1.0 then None
    else if entry > (if signal == BuyYes then cfg.bots[p].maxEntryYes else cfg.bots[p].maxEntryNo) then None
    else Some(Trade(p, market, signal, entry, OrderSize(cfg, db, p, budget, regime), now, None, None))
  }

  // ---- one step ----

  /** The storage call the step makes, if any. */
  function Call(cfg: Config, s: Sys, a: Action): Option<Interleaving.Op> {
    match a
    case Book(p) =>
      if StageOf(s, p).Ready? then Some(Interleaving.Place(StageOf(s, p).order.(placedAt := s.clock))) else None
    case Charge(p) =>
      if StageOf(s, p).Booked? then Some(Interleaving.Fee(p, cfg.gas)) else None
    case SettleNext(resolution) =>
      if s.work.Settling? && |s.work.ids| > 0 && s.work.ids[0] < |s.db.trades| && resolution.Some? then
        var t := s.db.trades[s.work.ids[0]];
        var (outcome, pnl) := Settlement.CalculatePnl(t.signal, t.entry, t.size, resolution.value, cfg.feePct);
        Some(Interleaving.Settle(s.work.ids[0], outcome, pnl))
      else None
    case VoidNext =>
      if s.work.Voiding? && |s.work.ids| > 0 then Some(Interleaving.Discard(s.work.ids[0])) else None
    case _ => None
  }

  function DbAfter(cfg: Config, s: Sys, a: Action): Db {
    var call := Call(cfg, s, a);
    if call.None? then s.db else Interleaving.Whole(s.db, call.value)
  }

  ghost function StageAfter(cfg: Config, s: Sys, p: Pair, a: Action): Stage
    requires p in cfg.bots
  {
    var now := StageOf(s, p);
    match a
    case Begin(_, signal, vpn) =>
      if now.Idle? && !signal.Skip? && vpn && Current(s.db, p) >= 1.0
      then Funded(signal, Current(s.db, p)) else now
    case Space(_, elapsed) =>
      if !now.Funded? then now
      else if OrdersNow(s, p) < cfg.bots[p].maxOrders && elapsed <= cfg.bots[p].maxElapsed
      then Spaced(now.signal, now.budget) else Idle
    case CheckDrawdown(_) =>
      if !now.Spaced? then now
      else if Risk.DrawdownOk(cfg.risk, s.db.bank, p) then Sound(now.signal, now.budget) else Idle
    case CheckCorrelation(_) =>
      if !now.Sound? then now
      else if Risk.CorrelationOk(cfg.risk, s.db.trades, p.asset) then Balanced(now.signal, now.budget) else Idle
    case CheckBreaker(_) =>
      if !now.Balanced? then now
      else if Risk.BreakerOk(cfg.risk, s.cooldown, s.db, p, s.clock) then Cleared(now.signal, now.budget) else Idle
    case Price(_, market, ask, regime) =>
      if !now.Cleared? then now
      else
        var order := PriceOrder(cfg, s.db, p, now.signal, now.budget, market, ask, regime, s.clock);
        if order.Some? then Ready(now.budget, order.value) else Idle
    case Book(_) =>
      if !now.Ready? then now
      else if Reserve(s.db, now.order.(placedAt := s.clock)).1.Some? then Booked else Idle
    case Charge(_) => if now.Booked? then Charged else now
    case Count(_) => if now.Charged? then Idle else now
    case _ => now
  }

  predicate ByBot(a: Action) {
    a.Begin? || a.Space? || a.CheckDrawdown? || a.CheckCorrelation? || a.CheckBreaker?
    || a.Price? || a.Book? || a.Charge? || a.Count?
  }

  ghost function WorkAfter(s: Sys, a: Action): Work {
    match a
    case Poll(order) =>
      if s.work.Resting? && Distinct(order) && (forall i | i in order :: i in OpenIds(s.db.trades))
      then Settling(order) else s.work
    case SettleNext(_) => if s.work.Settling? && |s.work.ids| > 0 then Settling(s.work.ids[1..]) else s.work
    case Sweep =>
      if s.work == Settling([])
      then Voiding(StaleIds(s.db.trades, s.clock - Settlement.DEAD_LETTER_AFTER_HOURS * 3600.0)) else s.work
    case VoidNext => if s.work.Voiding? && |s.work.ids| > 0 then Voiding(s.work.ids[1..]) else s.work
    case Rest => if s.work == Voiding([]) then Resting else s.work
    case _ => s.work
  }

  function CountsAfter(s: Sys, a: Action): Windows.Counts {
    if a.Count? && StageOf(s, a.p).Charged? then Windows.Recorded(s.counts, a.p, Seconds(s)) else s.counts
  }

  ghost function CooldownAfter(cfg: Config, s: Sys, a: Action): Risk.Cooldowns {
    if a.CheckBreaker? && StageOf(s, a.p).Balanced?
    then Risk.BreakerAfter(cfg.risk, s.cooldown, s.db, a.p, s.clock) else s.cooldown
  }

  ghost function Step(cfg: Config, s: Sys, a: Action): Sys {
    if ByBot(a) && a.p !in cfg.bots then s
    else
      Sys(
        DbAfter(cfg, s, a),
        CountsAfter(s, a),
        CooldownAfter(cfg, s, a),
        if a.Tick? && a.dt >= 0.0 then s.clock + a.dt else s.clock,
        if ByBot(a) then s.stages[a.p := StageAfter(cfg, s, a.p, a)] else s.stages,
        WorkAfter(s, a))
  }

  ghost function Run(cfg: Config, s: Sys, actions: seq<Action>): Sys
    decreases |actions|
  {
    if |actions| == 0 then s else Run(cfg, Step(cfg, s, actions[0]), actions[1..])
  }

  lemma {:induction false} RunConcat(cfg: Config, s: Sys, a: seq<Action>, b: seq<Action>)
    ensures Run(cfg, s, a + b) == Run(cfg, Run(cfg, s, a), b)
    decreases |a|
  {
    if |a| == 0 {
      assert a + b == b;
    } else {
      assert (a + b)[1..] == a[1..] + b;
      RunConcat(cfg, Step(cfg, s, a[0]), a[1..], b);
    }
  }

  lemma RunOne(cfg: Config, s: Sys, a: Action)
    ensures Run(cfg, s, [a]) == Step(cfg, s, a)
  {
    assert Run(cfg, Step(cfg, s, a), [a][1..]) == Step(cfg, s, a);
  }

  lemma RunNext(cfg: Config, s: Sys, steps: seq<Action>, k: nat, mid: Sys)
    requires k < |steps| && Run(cfg, s, steps[..k]) == mid
    ensures Run(cfg, s, steps[..k + 1]) == Step(cfg, mid, steps[k])
  {
    assert steps[..k + 1] == steps[..k] + [steps[k]];
    RunConcat(cfg, s, steps[..k], [steps[k]]);
    RunOne(cfg, mid, steps[k]);
  }

  lemma RunTwo(cfg: Config, s: Sys, a: Action, b: Action)
    ensures Run(cfg, s, [a, b]) == Step(cfg, Step(cfg, s, a), b)
  {
    assert [a, b] == [a] + [b];
    RunConcat(cfg, s, [a], [b]);
    RunOne(cfg, s, a);
    RunOne(cfg, Step(cfg, s, a), b);
  }

  lemma TickStep(cfg: Config, s: Sys, dt: real)
    requires dt >= 0.0
    ensures Step(cfg, s, Tick(dt)) == s.(clock := s.clock + dt)
  {
  }

  function Init(cfg: Config, accounts: set<Pair>, initial: real, clock: real): Sys {
    Sys(Db(map p | p in accounts :: Account(initial, initial), [], []), map[], map[], clock,
        map p | p in cfg.bots :: Idle, Resting)
  }

  // ---- what every step keeps ----

  /** Gas is not negative, the fee leaves a win something, and bets are affordable. */
  predicate Proper(cfg: Config) {
    cfg.gas >= 0.0 && cfg.feePct <= 1.0 && Sizing.Affordable(cfg.sizer)
  }

  /** The balance the bot is counting on, while it is counting on one. */
  function Budget(st: Stage): Option<real> {
    match st
    case Idle => None
    case Funded(_, b) => Some(b)
    case Spaced(_, b) => Some(b)
    case Sound(_, b) => Some(b)
    case Balanced(_, b) => Some(b)
    case Cleared(_, b) => Some(b)
    case Ready(b, _) => Some(b)
    case Booked => None
    case Charged => None
  }

  predicate StageSane(st: Stage, p: Pair) {
    && (Budget(st).Some? ==> Budget(st).value >= 1.0)
    && (st.Funded? ==> !st.signal.Skip?) && (st.Spaced? ==> !st.signal.Skip?) && (st.Sound? ==> !st.signal.Skip?)
    && (st.Balanced? ==> !st.signal.Skip?) && (st.Cleared? ==> !st.signal.Skip?)
    && (st.Ready? ==> OrderSane(st.order, p) && st.order.Cost() < st.budget)
  }

  predicate OrderSane(t: Trade, p: Pair) {
    t.pair == p && t.Open() && Settlement.Sane(t) && !t.signal.Skip?
  }

  ghost predicate RowsSane(cfg: Config, trades: seq<Trade>) {
    forall i | 0 <= i < |trades| ::
      Settlement.Sane(trades[i]) && !trades[i].signal.Skip? && trades[i].pair in cfg.bots
  }

  ghost predicate StagesSane(cfg: Config, stages: map<Pair, Stage>) {
    forall p | p in stages :: StageSane(stages[p], p) && (stages[p] != Idle ==> p in cfg.bots)
  }

  /** Pending work is open and listed once. */
  ghost predicate WorkSane(trades: seq<Trade>, work: Work) {
    !work.Resting? ==>
      && Distinct(work.ids)
      && forall k | 0 <= k < |work.ids| :: work.ids[k] < |trades| && trades[work.ids[k]].Open()
  }

  ghost predicate Tidy(cfg: Config, s: Sys) {
    && (forall p | p in cfg.bots :: p in s.db.bank)
    && RowsSane(cfg, s.db.trades) && StagesSane(cfg, s.stages) && WorkSane(s.db.trades, s.work)
  }

  /** What a storage call made in the protocol looks like: only open trades are ever closed. */
  ghost predicate GoodCall(cfg: Config, db: Db, op: Interleaving.Op) {
    match op
    case Place(t) => OrderSane(t, t.pair) && t.pair in cfg.bots
    case Fee(p, amount) => p in cfg.bots && amount == cfg.gas
    case Settle(id, outcome, pnl) =>
      id < |db.trades| && db.trades[id].Open() && outcome != Void && db.trades[id].Cost() + pnl >= 0.0
    case Discard(id) => id < |db.trades| && db.trades[id].Open()
  }

  lemma StepFacts(cfg: Config, s: Sys, a: Action, p: Pair)
    requires Tidy(cfg, s)
    ensures Step(cfg, s, a).db == DbAfter(cfg, s, a)
    ensures StageOf(Step(cfg, s, a), p)
         == if ByBot(a) && a.p == p && p in cfg.bots then StageAfter(cfg, s, p, a) else StageOf(s, p)
    ensures StageOf(s, p) != Idle ==> p in cfg.bots && StageSane(StageOf(s, p), p)
  {
  }

  lemma CallsAreGood(cfg: Config, s: Sys, a: Action)
    requires Proper(cfg) && Tidy(cfg, s)
    ensures var call := Call(cfg, s, a); call.Some? ==> GoodCall(cfg, s.db, call.value)
  {
    if a.SettleNext? && Call(cfg, s, a).Some? {
      Settlement.LossPaysNothing(s.db.trades[s.work.ids[0]], a.resolution.value, cfg.feePct);
    }
  }

  /** Whatever the market answers, an order costs less than the balance it was sized on. */
  lemma OrderWithinBudget(
    cfg: Config, db: Db, p: Pair, signal: Signal, budget: real, market: Option<string>, ask: real, regime: Regime,
    now: real)
    requires Proper(cfg) && p in cfg.bots && budget >= 1.0 && !signal.Skip?
    ensures var order := PriceOrder(cfg, db, p, signal, budget, market, ask, regime, now);
      order.Some? ==> OrderSane(order.value, p) && order.value.Cost() < budget
  {
    OrderSizeWithin(cfg, db, p, budget, regime);
    var order := PriceOrder(cfg, db, p, signal, budget, market, ask, regime, now);
    if order.Some? {
      CostWithin(order.value, budget);
    }
  }

  lemma OrderSizeWithin(cfg: Config, db: Db, p: Pair, budget: real, regime: Regime)
    requires Proper(cfg) && budget >= 1.0
    ensures 0.0 < OrderSize(cfg, db, p, budget, regime) <= budget
  {
    var stats := Sizing.RollingStats(db, p, cfg.sizer.rollingWindow);
    Sizing.SizeWithinBankroll(cfg.sizer, stats, budget);
    ScaledWithin(Sizing.KellySize(cfg.sizer, stats, budget), Multiplier(p.strategy, regime), budget);
  }

  lemma CostWithin(t: Trade, budget: real)
    ensures Settlement.Sane(t) && t.size <= budget ==> t.Cost() < budget
  {
    if Settlement.Sane(t) {
      CostBelowSize(t.entry, t.size);
    }
  }

  lemma ScaledWithin(size: real, m: real, budget: real)
    requires 0.10 <= size <= budget && budget >= 1.0 && (m == 1.0 || m == 0.8 || m == 0.5)
    ensures 0.0 < Scaled(size, m) <= budget
  {
  }

  lemma CostBelowSize(entry: real, size: real)
    requires 0.0 < entry < 1.0 && size > 0.0
    ensures 0.0 < Stake(entry, size) < size
  {
    var other := 1.0 - entry;
    var stake, rest := entry * size, other * size;
    ProductSign(entry, size);
    ProductSign(other, size);
    assert stake + rest == (entry + other) * size == size;
    assert Stake(entry, size) == stake;
  }

  lemma StageStaysSane(cfg: Config, s: Sys, p: Pair, a: Action)
    requires Proper(cfg) && Tidy(cfg, s) && p in cfg.bots
    ensures StageSane(StageAfter(cfg, s, p, a), p)
  {
    if a.Price? && StageOf(s, p).Cleared? {
      var st := StageOf(s, p);
      OrderWithinBudget(cfg, s.db, p, st.signal, st.budget, a.market, a.ask, a.regime, s.clock);
    }
  }

  lemma RowsStaySane(cfg: Config, db: Db, op: Interleaving.Op)
    requires RowsSane(cfg, db.trades) && GoodCall(cfg, db, op)
    ensures RowsSane(cfg, Interleaving.Whole(db, op).trades)
    ensures |db.trades| <= |Interleaving.Whole(db, op).trades|
    ensures forall i | 0 <= i < |db.trades| && !(op.Settle? && op.id == i) && !(op.Discard? && op.id == i) ::
      Interleaving.Whole(db, op).trades[i] == db.trades[i]
    ensures Interleaving.Whole(db, op).bank.Keys == db.bank.Keys
  {
  }

  lemma TidyStep(cfg: Config, s: Sys, a: Action)
    requires Proper(cfg) && Tidy(cfg, s)
    ensures Tidy(cfg, Step(cfg, s, a))
  {
    var s' := Step(cfg, s, a);
    CallsAreGood(cfg, s, a);
    var call := Call(cfg, s, a);
    if call.Some? {
      RowsStaySane(cfg, s.db, call.value);
    }
    if ByBot(a) && a.p in cfg.bots {
      StageStaysSane(cfg, s, a.p, a);
    }
    if !s'.work.Resting? {
      WorkStaysSane(cfg, s, a);
    }
  }

  lemma {:induction false} TidyRun(cfg: Config, s: Sys, actions: seq<Action>)
    requires Proper(cfg) && Tidy(cfg, s)
    ensures Tidy(cfg, Run(cfg, s, actions))
    decreases |actions|
  {
    if |actions| > 0 {
      TidyStep(cfg, s, actions[0]);
      TidyRun(cfg, Step(cfg, s, actions[0]), actions[1..]);
    }
  }

  lemma WorkStaysSane(cfg: Config, s: Sys, a: Action)
    requires Proper(cfg) && Tidy(cfg, s)
    ensures WorkSane(Step(cfg, s, a).db.trades, Step(cfg, s, a).work)
  {
    var s' := Step(cfg, s, a);
    CallsAreGood(cfg, s, a);
    var call := Call(cfg, s, a);
    if call.Some? {
      RowsStaySane(cfg, s.db, call.value);
    }
    if a.Poll? && s.work.Resting? && !s'.work.Resting? {
      assert forall k | 0 <= k < |a.order| :: a.order[k] in a.order;
    } else if a.Sweep? && s.work == Settling([]) {
      assert forall k | 0 <= k < |s'.work.ids| :: s'.work.ids[k] in s'.work.ids;
    } else if s'.work != s.work && !s'.work.Resting? {
      assert forall k | 0 <= k < |s'.work.ids| ::
        s'.work.ids[k] == s.work.ids[k + 1] && s.work.ids[k + 1] != s.work.ids[0];
    }
  }

  // ---- solvency ----

  /** What the account must still hold at each stage of its bot. */
  predicate Afloat(cfg: Config, st: Stage, a: Account) {
    && -cfg.gas < a.current <= a.peak
    && (Budget(st).Some? ==> Budget(st).value <= a.current)
    && (st.Booked? ==> a.current > 0.0)
  }

  ghost predicate Solvent(cfg: Config, s: Sys) {
    forall p | p in s.db.bank :: Afloat(cfg, StageOf(s, p), s.db.bank[p])
  }

  /** An order that reaches the storage layer is always paid for: the refusal is never taken. */
  lemma NeverRefused(cfg: Config, s: Sys, p: Pair)
    requires Tidy(cfg, s) && Solvent(cfg, s) && StageOf(s, p).Ready?
    ensures Reserve(s.db, StageOf(s, p).order.(placedAt := s.clock)).1.Some?
  {
  }

  lemma SolventStep(cfg: Config, s: Sys, a: Action)
    requires Proper(cfg) && Tidy(cfg, s) && Solvent(cfg, s)
    ensures Solvent(cfg, Step(cfg, s, a))
  {
    var s' := Step(cfg, s, a);
    forall p | p in s'.db.bank ensures Afloat(cfg, StageOf(s', p), s'.db.bank[p]) {
      StepFacts(cfg, s, a, p);
      BankKeys(cfg, s, a);
      if ByBot(a) && a.p == p {
        OwnStepAfloat(cfg, s, p, a);
      } else {
        OthersAfloat(cfg, s, p, a);
      }
    }
  }

  lemma BankKeys(cfg: Config, s: Sys, a: Action)
    requires Proper(cfg) && Tidy(cfg, s)
    ensures DbAfter(cfg, s, a).bank.Keys == s.db.bank.Keys
  {
  }

  /** Only the pair's own bot can take money out of its account. */
  lemma OthersAfloat(cfg: Config, s: Sys, p: Pair, a: Action)
    requires Proper(cfg) && Tidy(cfg, s) && Solvent(cfg, s) && p in s.db.bank && !(ByBot(a) && a.p == p)
    ensures p in DbAfter(cfg, s, a).bank && Afloat(cfg, StageOf(s, p), DbAfter(cfg, s, a).bank[p])
  {
    assert Afloat(cfg, StageOf(s, p), s.db.bank[p]);
    CallsAreGood(cfg, s, a);
    var call := Call(cfg, s, a);
    if call.Some? {
      if a.Book? {
        assert StageSane(StageOf(s, a.p), a.p);
      }
      NeverLess(cfg, s.db, call.value, p);
    }
  }

  lemma NeverLess(cfg: Config, db: Db, op: Interleaving.Op, p: Pair)
    requires GoodCall(cfg, db, op) && p in db.bank && db.bank[p].current <= db.bank[p].peak
    requires (op.Place? ==> op.t.pair != p) && (op.Fee? ==> op.p != p)
    ensures var after := Interleaving.Whole(db, op);
      p in after.bank && db.bank[p].current <= after.bank[p].current <= after.bank[p].peak
  {
  }

  lemma {:induction false} SolventRun(cfg: Config, s: Sys, actions: seq<Action>)
    requires Proper(cfg) && Tidy(cfg, s) && Solvent(cfg, s)
    ensures Solvent(cfg, Run(cfg, s, actions))
    decreases |actions|
  {
    if |actions| > 0 {
      TidyStep(cfg, s, actions[0]);
      SolventStep(cfg, s, actions[0]);
      SolventRun(cfg, Step(cfg, s, actions[0]), actions[1..]);
    }
  }

  lemma OwnStepAfloat(cfg: Config, s: Sys, p: Pair, a: Action)
    requires Proper(cfg) && Tidy(cfg, s) && Solvent(cfg, s) && p in s.db.bank && ByBot(a) && a.p == p
    ensures p in Step(cfg, s, a).db.bank
    ensures Afloat(cfg, StageOf(Step(cfg, s, a), p), Step(cfg, s, a).db.bank[p])
  {
    assert Afloat(cfg, StageOf(s, p), s.db.bank[p]);
    if p in cfg.bots {
      if a.Book? && StageOf(s, p).Ready? {
        BookAfloat(cfg, s, p);
      } else if !(a.Charge? && StageOf(s, p).Booked?) {
        StageAfloat(cfg, s, p, a);
      }
    }
  }

  lemma ReserveAccount(db: Db, t: Trade, cost: real)
    requires t.pair in db.bank && cost == t.Cost() && cost <= db.bank[t.pair].current
    ensures Reserve(db, t).1.Some?
    ensures Reserve(db, t).0.bank == db.bank[t.pair := Account(db.bank[t.pair].current - cost, db.bank[t.pair].peak)]
  {
  }

  /** Past the reservation something is left, because the stake is less than the budget. */
  lemma BookAfloat(cfg: Config, s: Sys, p: Pair)
    requires Proper(cfg) && Tidy(cfg, s) && Solvent(cfg, s) && p in s.db.bank && p in cfg.bots && StageOf(s, p).Ready?
    ensures StageAfter(cfg, s, p, Book(p)).Booked?
    ensures p in DbAfter(cfg, s, Book(p)).bank && Afloat(cfg, Booked, DbAfter(cfg, s, Book(p)).bank[p])
  {
    var st := StageOf(s, p);
    assert StageSane(st, p) && Afloat(cfg, st, s.db.bank[p]);
    var cost := st.order.Cost();
    CostWithin(st.order, st.order.size);
    StakePositive(st.order, cost);
    ReserveAccount(s.db, st.order.(placedAt := s.clock), cost);
    Left(cfg, s.db.bank[p], st.budget, cost);
  }

  lemma Left(cfg: Config, a: Account, budget: real, cost: real)
    requires -cfg.gas < a.current <= a.peak && 0.0 < cost < budget <= a.current && cfg.gas >= 0.0
    ensures Afloat(cfg, Booked, Account(a.current - cost, a.peak))
  {
  }

  lemma StakePositive(t: Trade, cost: real)
    requires Settlement.Sane(t) && cost == t.Cost()
    ensures cost > 0.0
  {
  }

  /** Every other bot step leaves the tables alone and never raises the budget. */
  lemma StageAfloat(cfg: Config, s: Sys, p: Pair, a: Action)
    requires p in s.db.bank && p in cfg.bots && ByBot(a) && a.p == p
    requires Afloat(cfg, StageOf(s, p), s.db.bank[p])
    requires !(a.Book? && StageOf(s, p).Ready?) && !(a.Charge? && StageOf(s, p).Booked?)
    ensures DbAfter(cfg, s, a) == s.db && Afloat(cfg, StageAfter(cfg, s, p, a), s.db.bank[p])
  {
  }
}
