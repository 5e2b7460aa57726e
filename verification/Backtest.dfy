/** Replaying a strategy over past bars, and re-pricing trades that were really made. */
module Backtest {
  import opened Common
  import opened Ledger
  import opened Rounding
  import opened Indicators
  import opened Metrics
  import Sizing

  const KELLY_WARMUP: nat := 20
  const OUTCOME_WINDOW: nat := 50
  const MIN_BANKROLL_FRACTION: real := 0.01
  const RSI_PERIOD: nat := 14

  datatype Config = Config(
    initial: real, slippageBps: real, commission: real, gas: real, kellyFraction: real, useKelly: bool)

  /** One bar: the price an outcome is judged on, the ask, and whatever else a strategy looks at. */
  datatype Bar = Bar(price: real, ask: real, rest: map<string, real>)

  /** A strategy, as a function of one bar and its indicators; a second function accepts an entry price. */
  datatype Strategy = Strategy(
    evaluate: (Bar, Option<real>, Option<Band>) -> Signal, entryOk: (Signal, real) -> bool)

  datatype Setup = Setup(cfg: Config, strategy: Strategy, root: real -> real, bbPeriod: nat, bbMult: real)

  // ---- pricing one trade ----

  function Slipped(price: real, bps: real): (r: real)
    ensures 0.001 <= r <= 0.999
  {
    Max(0.001, Min(0.999, price * (1.0 + bps / 10000.0)))
  }

  /** An ask that cannot be a probability is replaced by even odds. */
  function RawEntry(ask: real): real {
    var raw := if ask > 0.0 then ask else 0.50;
    if raw > 1.0 then 0.50 else raw
  }

  function Part(bankroll: real, share: real): real {
    bankroll * share
  }

  function KellyBet(cfg: Config, bankroll: real, winRate: real, entry: real): real
    requires entry != 1.0
  {
    if entry >= 1.0 then Part(bankroll, 0.01)
    else KellyBetOf(bankroll, FracKelly(cfg, winRate, entry))
  }

  function FracKelly(cfg: Config, winRate: real, entry: real): real
    requires entry != 1.0
  {
    Sizing.FullKelly(winRate, entry) * cfg.kellyFraction
  }

  function KellyBetOf(bankroll: real, frac: real): real {
    if frac <= 0.0 then Part(bankroll, 0.01)
    else Round(Max(Max(Part(bankroll, 0.01), 0.10), Min(Part(bankroll, 0.10), Part(bankroll, frac))), Four)
  }

  function FixedBet(bankroll: real): real {
    Round(Max(Part(bankroll, 0.03), 0.10), Four)
  }

  function WinRate(recent: seq<bool>): real
    requires |recent| > 0
  {
    Hits(recent) as real / |recent| as real
  }

  function Hits(recent: seq<bool>): nat {
    if |recent| == 0 then 0 else Hits(recent[..|recent| - 1]) + if recent[|recent| - 1] then 1 else 0
  }

  /** The bet, never more than the bankroll. */
  function Bet(cfg: Config, bankroll: real, recent: seq<bool>, entry: real): real
    requires entry != 1.0
  {
    Min(if cfg.useKelly && |recent| >= KELLY_WARMUP then KellyBet(cfg, bankroll, WinRate(recent), entry)
        else FixedBet(bankroll),
        bankroll)
  }

  predicate Wins(signal: Signal, now: real, next: real) {
    if signal == BuyYes then next > now else next < now
  }

  function Winnings(entry: real, bet: real, commission: real): real
    requires entry != 0.0
  {
    (1.0 - entry) * (bet / entry) * (1.0 - commission)
  }

  function Pnl(cfg: Config, won: bool, entry: real, bet: real): real
    requires entry != 0.0
  {
    if won then Round(Winnings(entry, bet, cfg.commission) - cfg.gas, Six) else Round(-(bet + cfg.gas), Six)
  }

  function Settled(bankroll: real, pnl: real): real {
    Round(bankroll + pnl, Six)
  }

  /** The outcomes the win rate is taken over: at most the last fifty. */
  function Remembered(recent: seq<bool>, won: bool): seq<bool> {
    var all := recent + [won];
    if |all| > OUTCOME_WINDOW then all[1..] else all
  }

  // ---- one bar ----

  datatype State = State(bankroll: real, recent: seq<bool>, trades: seq<SimTrade>)

  datatype Decision = Decision(signal: Signal, entry: real, bet: real)

  /** What the bar leads to.  Nothing after the bar is looked at. */
  function Decide(s: Setup, bar: Bar, rsi: Option<real>, band: Option<Band>, st: State): Option<Decision> {
    var signal := s.strategy.evaluate(bar, rsi, band);
    if signal == Skip then None
    else if st.bankroll < s.cfg.initial * MIN_BANKROLL_FRACTION then None
    else
      var entry := Slipped(RawEntry(bar.ask), s.cfg.slippageBps);
      if !s.strategy.entryOk(signal, entry) then None
      else Some(Decision(signal, entry, Bet(s.cfg, st.bankroll, st.recent, entry)))
  }

  function Traded(cfg: Config, st: State, i: nat, d: Decision, won: bool): State
    requires d.entry != 0.0
  {
    var pnl := Pnl(cfg, won, d.entry, d.bet);
    var after := Settled(st.bankroll, pnl);
    State(after, Remembered(st.recent, won),
          st.trades + [SimTrade(i, d.signal, Round(d.entry, Six), won, Round(d.bet, Six), pnl, Round(after, Four))])
  }

  function Prices(bars: seq<Bar>): (r: seq<real>)
    ensures |r| == |bars| && forall i | 0 <= i < |r| :: r[i] == bars[i].price
  {
    seq(|bars|, i requires 0 <= i < |bars| => bars[i].price)
  }

  function DecideAt(s: Setup, bars: seq<Bar>, i: nat, st: State): Option<Decision>
    requires i < |bars| && s.bbPeriod > 1
  {
    Decide(s, bars[i], ReplayRsi(Prices(bars), RSI_PERIOD, i),
           ReplayBand(s.root, s.bbMult, Prices(bars), s.bbPeriod, i), st)
  }

  /** The outcome of the bar is read off the next one. */
  function Step(s: Setup, bars: seq<Bar>, i: nat, st: State): State
    requires i + 1 < |bars| && s.bbPeriod > 1
  {
    var d := DecideAt(s, bars, i, st);
    if d.None? then st
    else Traded(s.cfg, st, i, d.value, Wins(d.value.signal, bars[i].price, bars[i + 1].price))
  }

  function Start(cfg: Config): State {
    State(cfg.initial, [], [])
  }

  /** The state after the first n bars, each with a bar to follow it. */
  function Before(s: Setup, bars: seq<Bar>, n: nat): State
    requires n == 0 || n < |bars|
    requires s.bbPeriod > 1
  {
    if n == 0 then Start(s.cfg) else Step(s, bars, n - 1, Before(s, bars, n - 1))
  }

  /** The whole replay; the last bar has no outcome. */
  function Replay(s: Setup, bars: seq<Bar>): State
    requires s.bbPeriod > 1
  {
    if |bars| == 0 then Start(s.cfg) else Before(s, bars, |bars| - 1)
  }

  /** The bookkeeping after an outcome is known. */
  method Book(cfg: Config, st: State, i: nat, d: Decision, won: bool) returns (next: State)
    requires d.entry != 0.0
    ensures next == Traded(cfg, st, i, d, won)
  {
    var pnl := Pnl(cfg, won, d.entry, d.bet);
    var bankroll := Settled(st.bankroll, pnl);
    var recent := st.recent + [won];
    if |recent| > OUTCOME_WINDOW {
      recent := recent[1..];
    }
    var trade := SimTrade(i, d.signal, Round(d.entry, Six), won, Round(d.bet, Six), pnl, Round(bankroll, Four));
    next := State(bankroll, recent, st.trades + [trade]);
  }

  method ReplayBar(s: Setup, bars: seq<Bar>, i: nat, rsi: Option<real>, band: Option<Band>, st: State)
    returns (next: State)
    requires i + 1 < |bars| && s.bbPeriod > 1
    requires rsi == ReplayRsi(Prices(bars), RSI_PERIOD, i)
    requires band == ReplayBand(s.root, s.bbMult, Prices(bars), s.bbPeriod, i)
    ensures next == Step(s, bars, i, st)
  {
    var d := Decide(s, bars[i], rsi, band, st);
    if d.None? {
      return st;
    }
    next := Book(s.cfg, st, i, d.value, Wins(d.value.signal, bars[i].price, bars[i + 1].price));
  }

  // ---- every trade, told by the bars and the trades before it ----

  /** Within half a unit of the sixth place. */
  predicate Near(x: real, y: real) {
    y - 0.0000005 <= x <= y + 0.0000005
  }

  /** A price slipped and kept off 0 and 1. */
  predicate SlippedFrom(raw: real, bps: real, entry: real) {
    var x := raw + raw * bps / 10000.0;
    && (0.001 <= x <= 0.999 ==> entry == x)
    && (x < 0.001 ==> entry == 0.001)
    && (x > 0.999 ==> entry == 0.999)
  }

  /** The price paid: an ask that can be a probability, else even odds, slipped. */
  predicate PaidFor(ask: real, bps: real, entry: real) {
    SlippedFrom(if 0.0 < ask <= 1.0 then ask else 0.5, bps, entry)
  }

  /** A win pays the shares bought at one dollar each, less what they cost, commission and gas; a loss costs the bet. */
  predicate Earned(cfg: Config, won: bool, entry: real, bet: real, pnl: real)
    requires entry != 0.0
  {
    if won then Near(pnl, (bet / entry - bet) * (1.0 - cfg.commission) - cfg.gas) else Near(pnl, -bet - cfg.gas)
  }

  /** The bankroll some trades leave: the start, and once there are profits, both in whole millionths. */
  ghost predicate Held(initial: real, earlier: seq<SimTrade>, bankroll: real) {
    if earlier == [] then bankroll == initial
    else OnGrid(bankroll, Six) && Near(bankroll, initial + Sum(Pnls(earlier)))
  }

  /** How the last fifty of some trades ended. */
  function LastWon(earlier: seq<SimTrade>): (r: seq<bool>)
    ensures |r| == if |earlier| < 50 then |earlier| else 50
    ensures forall j | 0 <= j < |r| :: r[j] == earlier[|earlier| - |r| + j].won
  {
    var n := if |earlier| < 50 then |earlier| else 50;
    seq(n, j requires 0 <= j < n => earlier[|earlier| - n + j].won)
  }

  function Share(wins: nat, n: nat, entry: real, fraction: real): real
    requires n > 0 && entry < 1.0
  {
    (wins as real / n as real - entry) / (1.0 - entry) * fraction
  }

  /** x, raised to lo or lowered to hi; lo wins. */
  function Clipped(x: real, lo: real, hi: real): real {
    if x <= lo || hi <= lo then lo else if x >= hi then hi else x
  }

  /** What the bot means to bet: three hundredths, or its share of the edge within one and ten hundredths. */
  function Aim(cfg: Config, bankroll: real, recent: seq<bool>, entry: real): real
    requires entry < 1.0
  {
    var n := |recent|;
    if !cfg.useKelly || n < 20 then (if 0.03 * bankroll >= 0.10 then 0.03 * bankroll else 0.10)
    else AimOf(bankroll, Share(|set i: nat | i < n && recent[i]|, n, entry, cfg.kellyFraction))
  }

  function AimOf(bankroll: real, share: real): real {
    if share <= 0.0 then bankroll / 100.0
    else Clipped(bankroll * share, if bankroll >= 10.0 then bankroll / 100.0 else 0.10, bankroll / 10.0)
  }

  /** The bet is that to within half a unit of the fourth place, and the whole bankroll when that is less. */
  predicate Staked(bankroll: real, aim: real, bet: real) {
    && bet <= bankroll
    && (bet < bankroll ==> aim - 0.00005 <= bet <= aim + 0.00005)
    && (bet == bankroll ==> aim >= bankroll - 0.00005)
  }

  /** Everything a trade records but its side and outcome. */
  ghost predicate Carried(
    cfg: Config, earlier: seq<SimTrade>, t: SimTrade, bankroll: real, entry: real, bet: real)
  {
    && 0.0 < entry < 1.0 && Near(t.entry, entry) && Near(t.bet, bet) && Earned(cfg, t.won, entry, bet, t.pnl)
    && Held(cfg.initial, earlier, bankroll) && Staked(bankroll, Aim(cfg, bankroll, LastWon(earlier), entry), bet)
    && bankroll + t.pnl - 0.000051 <= t.after <= bankroll + t.pnl + 0.000051
  }

  /** What the strategy makes of a bar, given the indicators up to it. */
  function SignalAt(s: Setup, bars: seq<Bar>, i: nat): Signal
    requires i < |bars| && s.bbPeriod > 1
  {
    s.strategy.evaluate(bars[i], ReplayRsi(Prices(bars), 14, i),
                        ReplayBand(s.root, s.bbMult, Prices(bars), s.bbPeriod, i))
  }

  ghost predicate Taken(
    s: Setup, ask: real, earlier: seq<SimTrade>, t: SimTrade, bankroll: real, entry: real, bet: real)
  {
    && PaidFor(ask, s.cfg.slippageBps, entry) && s.strategy.entryOk(t.signal, entry)
    && bankroll >= s.cfg.initial * 0.01 && Carried(s.cfg, earlier, t, bankroll, entry, bet)
  }

  /** The trade as the bar it was made on, the next one and the trades before it tell it. */
  ghost predicate Told(s: Setup, bars: seq<Bar>, earlier: seq<SimTrade>, t: SimTrade)
    requires s.bbPeriod > 1
  {
    && t.bar + 1 < |bars| && t.signal == SignalAt(s, bars, t.bar) && t.signal != Skip
    && (t.signal == BuyYes ==> (t.won <==> bars[t.bar + 1].price > bars[t.bar].price))
    && (t.signal == BuyNo ==> (t.won <==> bars[t.bar + 1].price < bars[t.bar].price))
    && exists bankroll, entry, bet :: Taken(s, bars[t.bar].ask, earlier, t, bankroll, entry, bet)
  }

  /** Why no trade was made on a bar, after those before it. */
  ghost predicate Declined(s: Setup, bars: seq<Bar>, earlier: seq<SimTrade>, i: nat, bankroll: real, entry: real)
    requires s.bbPeriod > 1 && i < |bars|
  {
    && Held(s.cfg.initial, earlier, bankroll) && PaidFor(bars[i].ask, s.cfg.slippageBps, entry)
    && (|| SignalAt(s, bars, i) == Skip
        || bankroll < s.cfg.initial * 0.01
        || !s.strategy.entryOk(SignalAt(s, bars, i), entry))
  }

  /** The first k trades were made before the bar, the others after it. */
  ghost predicate Passed(trades: seq<SimTrade>, k: nat, i: nat) {
    && k <= |trades| && (forall j | 0 <= j < k :: trades[j].bar < i)
    && (forall j | k <= j < |trades| :: trades[j].bar > i)
  }

  /** The bar came after k trades and was declined. */
  ghost predicate DeclinedAfter(
    s: Setup, bars: seq<Bar>, trades: seq<SimTrade>, i: nat, k: nat, bankroll: real, entry: real)
    requires s.bbPeriod > 1 && i < |bars|
  {
    Passed(trades, k, i) && Declined(s, bars, trades[..k], i, bankroll, entry)
  }

  ghost predicate Explains(s: Setup, bars: seq<Bar>, trades: seq<SimTrade>, i: nat)
    requires s.bbPeriod > 1 && i < |bars|
  {
    || (exists t :: t in trades && t.bar == i)
    || (exists k: nat, bankroll, entry :: DeclinedAfter(s, bars, trades, i, k, bankroll, entry))
  }

  ghost predicate TradesTold(s: Setup, bars: seq<Bar>, n: nat, trades: seq<SimTrade>)
    requires s.bbPeriod > 1
  {
    && (forall k | 0 <= k < |trades| :: Told(s, bars, trades[..k], trades[k]) && trades[k].bar < n)
    && (forall j, k | 0 <= j < k < |trades| :: trades[j].bar < trades[k].bar)
  }

  /** Every trade and every bar without one among the first n bars. */
  ghost predicate AllTold(s: Setup, bars: seq<Bar>, n: nat, trades: seq<SimTrade>)
    requires s.bbPeriod > 1 && (n == 0 || n < |bars|)
  {
    TradesTold(s, bars, n, trades) && forall i: nat | i < n :: Explains(s, bars, trades, i)
  }

  lemma RoundedNear(x: real)
    ensures Near(Round(x, Six), x)
  {
    RoundNear(x, Six);
  }

  lemma IsSlipped(raw: real, bps: real)
    ensures SlippedFrom(raw, bps, Slipped(raw, bps))
  {
    assert raw * (1.0 + bps / 10000.0) == raw + raw * bps / 10000.0;
  }

  lemma WinningsForm(entry: real, bet: real, commission: real)
    requires entry != 0.0
    ensures Winnings(entry, bet, commission) == (bet / entry - bet) * (1.0 - commission)
  {
    var q := bet / entry;
    assert q * entry == bet;
    SameProduct((1.0 - entry) * q, q - bet, 1.0 - commission);
  }

  lemma SameProduct(x: real, y: real, z: real)
    requires x == y
    ensures x * z == y * z
  {
  }

  lemma PnlIsEarned(cfg: Config, won: bool, entry: real, bet: real)
    requires entry != 0.0
    ensures Earned(cfg, won, entry, bet, Pnl(cfg, won, entry, bet))
  {
    WinningsForm(entry, bet, cfg.commission);
    RoundedNear(if won then Winnings(entry, bet, cfg.commission) - cfg.gas else -(bet + cfg.gas));
  }

  lemma {:induction false} HitsAre(recent: seq<bool>)
    ensures Hits(recent) == |set i: nat | i < |recent| && recent[i]|
  {
    if |recent| > 0 {
      var n := |recent| - 1;
      HitsAre(recent[..n]);
      var before := set i: nat | i < n && recent[..n][i];
      assert (set i: nat | i < |recent| && recent[i]) == if recent[n] then before + {n} else before;
    }
  }

  lemma ShareIs(cfg: Config, wins: nat, n: nat, entry: real)
    requires n > 0 && entry < 1.0
    ensures FracKelly(cfg, wins as real / n as real, entry) == Share(wins, n, entry, cfg.kellyFraction)
  {
    Sizing.FullKellyIsEdge(wins as real / n as real, entry);
  }

  lemma ClippedIs(bankroll: real, x: real)
    ensures Max(Max(Part(bankroll, 0.01), 0.10), Min(Part(bankroll, 0.10), x))
         == Clipped(x, if bankroll >= 10.0 then bankroll / 100.0 else 0.10, bankroll / 10.0)
  {
  }

  lemma RoundedStake(bankroll: real, aim: real)
    ensures Staked(bankroll, aim, Min(Round(aim, Four), bankroll)) && Staked(bankroll, aim, Min(aim, bankroll))
  {
    RoundNear(aim, Four);
  }

  lemma KellyBetIs(cfg: Config, bankroll: real, recent: seq<bool>, entry: real, share: real)
    requires entry < 1.0 && cfg.useKelly && |recent| >= KELLY_WARMUP && share == FracKelly(cfg, WinRate(recent), entry)
    ensures Bet(cfg, bankroll, recent, entry) == Min(KellyBetOf(bankroll, share), bankroll)
  {
  }

  lemma ShareOf(cfg: Config, recent: seq<bool>, entry: real)
    requires entry < 1.0 && |recent| > 0
    ensures FracKelly(cfg, WinRate(recent), entry)
         == Share(|set i: nat | i < |recent| && recent[i]|, |recent|, entry, cfg.kellyFraction)
  {
    HitsAre(recent);
    ShareIs(cfg, Hits(recent), |recent|, entry);
  }

  lemma AimIs(cfg: Config, bankroll: real, recent: seq<bool>, entry: real, share: real)
    requires entry < 1.0 && cfg.useKelly && |recent| >= 20
    requires share == Share(|set i: nat | i < |recent| && recent[i]|, |recent|, entry, cfg.kellyFraction)
    ensures Aim(cfg, bankroll, recent, entry) == AimOf(bankroll, share)
  {
  }

  lemma AimStaked(bankroll: real, share: real)
    ensures Staked(bankroll, AimOf(bankroll, share), Min(KellyBetOf(bankroll, share), bankroll))
  {
    ClippedIs(bankroll, Part(bankroll, share));
    RoundedStake(bankroll, AimOf(bankroll, share));
  }

  lemma KellyIsStaked(cfg: Config, bankroll: real, recent: seq<bool>, entry: real)
    requires 0.0 < entry < 1.0 && cfg.useKelly && |recent| >= KELLY_WARMUP
    ensures Staked(bankroll, Aim(cfg, bankroll, recent, entry), Bet(cfg, bankroll, recent, entry))
  {
    var share := FracKelly(cfg, WinRate(recent), entry);
    ShareOf(cfg, recent, entry);
    KellyBetIs(cfg, bankroll, recent, entry, share);
    AimIs(cfg, bankroll, recent, entry, share);
    AimStaked(bankroll, share);
  }

  lemma BetIsStaked(cfg: Config, bankroll: real, recent: seq<bool>, entry: real)
    requires 0.0 < entry < 1.0
    ensures Staked(bankroll, Aim(cfg, bankroll, recent, entry), Bet(cfg, bankroll, recent, entry))
  {
    if cfg.useKelly && |recent| >= KELLY_WARMUP {
      KellyIsStaked(cfg, bankroll, recent, entry);
    } else {
      RoundedStake(bankroll, Aim(cfg, bankroll, recent, entry));
    }
  }

  /** What the engine carries from trade to trade is what its trades say. */
  ghost predicate Kept(initial: real, st: State) {
    Held(initial, st.trades, st.bankroll) && st.recent == LastWon(st.trades)
  }

  lemma KeptNext(cfg: Config, st: State, i: nat, d: Decision, won: bool)
    requires 0.0 < d.entry < 1.0 && Kept(cfg.initial, st)
    ensures Kept(cfg.initial, Traded(cfg, st, i, d, won))
  {
    var after := Traded(cfg, st, i, d, won);
    var pnl := Pnl(cfg, won, d.entry, d.bet);
    TradedSum(cfg, st, i, d, won);
    RoundedNear(st.bankroll + pnl);
    assert st.trades == [] ==> Sum(Pnls(st.trades)) == 0.0;
    assert after.recent == LastWon(after.trades);
  }

  lemma TradeCarried(cfg: Config, st: State, i: nat, d: Decision, won: bool)
    requires 0.0 < d.entry < 1.0 && Kept(cfg.initial, st)
    requires d.bet == Bet(cfg, st.bankroll, st.recent, d.entry)
    ensures Carried(cfg, st.trades, Traded(cfg, st, i, d, won).trades[|st.trades|], st.bankroll, d.entry, d.bet)
  {
    var pnl := Pnl(cfg, won, d.entry, d.bet);
    RoundedNear(d.entry);
    RoundedNear(d.bet);
    RoundedNear(st.bankroll + pnl);
    RoundNear(Settled(st.bankroll, pnl), Four);
    PnlIsEarned(cfg, won, d.entry, d.bet);
    BetIsStaked(cfg, st.bankroll, st.recent, d.entry);
  }

  lemma TradeIsTold(s: Setup, bars: seq<Bar>, i: nat, st: State, d: Decision)
    requires i + 1 < |bars| && s.bbPeriod > 1 && DecideAt(s, bars, i, st) == Some(d) && Kept(s.cfg.initial, st)
    ensures var won := Wins(d.signal, bars[i].price, bars[i + 1].price);
      Told(s, bars, st.trades, Traded(s.cfg, st, i, d, won).trades[|st.trades|])
  {
    var won := Wins(d.signal, bars[i].price, bars[i + 1].price);
    IsSlipped(RawEntry(bars[i].ask), s.cfg.slippageBps);
    TradeCarried(s.cfg, st, i, d, won);
    var t := Traded(s.cfg, st, i, d, won).trades[|st.trades|];
    assert Taken(s, bars[i].ask, st.trades, t, st.bankroll, d.entry, d.bet);
  }

  lemma NoTradeIsDeclined(s: Setup, bars: seq<Bar>, i: nat, st: State)
    requires i < |bars| && s.bbPeriod > 1 && DecideAt(s, bars, i, st).None? && Kept(s.cfg.initial, st)
    ensures Declined(s, bars, st.trades, i, st.bankroll, Slipped(RawEntry(bars[i].ask), s.cfg.slippageBps))
  {
    IsSlipped(RawEntry(bars[i].ask), s.cfg.slippageBps);
  }

  lemma StillExplains(s: Setup, bars: seq<Bar>, trades: seq<SimTrade>, t: SimTrade, i: nat)
    requires s.bbPeriod > 1 && i < |bars| && Explains(s, bars, trades, i) && t.bar > i
    ensures Explains(s, bars, trades + [t], i)
  {
    if u :| u in trades && u.bar == i {
      assert u in trades + [t];
    } else {
      var k: nat, bankroll, entry :| DeclinedAfter(s, bars, trades, i, k, bankroll, entry);
      assert (trades + [t])[..k] == trades[..k];
      assert DeclinedAfter(s, bars, trades + [t], i, k, bankroll, entry);
    }
  }

  lemma ToldPasses(s: Setup, bars: seq<Bar>, n: nat, trades: seq<SimTrade>, bankroll: real, entry: real)
    requires s.bbPeriod > 1 && n + 1 < |bars| && AllTold(s, bars, n, trades)
    requires Declined(s, bars, trades, n, bankroll, entry)
    ensures AllTold(s, bars, n + 1, trades)
  {
    assert trades[..|trades|] == trades;
    assert DeclinedAfter(s, bars, trades, n, |trades|, bankroll, entry);
  }

  lemma OneMoreTold(s: Setup, bars: seq<Bar>, n: nat, trades: seq<SimTrade>, t: SimTrade)
    requires s.bbPeriod > 1 && TradesTold(s, bars, n, trades) && Told(s, bars, trades, t) && t.bar == n
    ensures TradesTold(s, bars, n + 1, trades + [t])
  {
    var more := trades + [t];
    assert more[..|trades|] == trades;
    forall k | 0 <= k < |trades| ensures Told(s, bars, more[..k], more[k]) {
      assert more[..k] == trades[..k];
    }
  }

  lemma ToldTrades(s: Setup, bars: seq<Bar>, n: nat, trades: seq<SimTrade>, t: SimTrade)
    requires s.bbPeriod > 1 && n + 1 < |bars| && AllTold(s, bars, n, trades) && Told(s, bars, trades, t) && t.bar == n
    ensures AllTold(s, bars, n + 1, trades + [t])
  {
    OneMoreTold(s, bars, n, trades, t);
    assert t in trades + [t];
    forall i: nat | i < n ensures Explains(s, bars, trades + [t], i) {
      StillExplains(s, bars, trades, t, i);
    }
  }

  lemma NothingYet(s: Setup, bars: seq<Bar>)
    requires s.bbPeriod > 1
    ensures AllTold(s, bars, 0, Start(s.cfg).trades) && Kept(s.cfg.initial, Start(s.cfg))
  {
  }

  lemma StepIsTold(s: Setup, bars: seq<Bar>, i: nat, st: State, next: State)
    requires s.bbPeriod > 1 && i + 1 < |bars| && next == Step(s, bars, i, st)
    requires AllTold(s, bars, i, st.trades) && Kept(s.cfg.initial, st)
    ensures AllTold(s, bars, i + 1, next.trades) && Kept(s.cfg.initial, next)
  {
    var d := DecideAt(s, bars, i, st);
    if d.Some? {
      var won := Wins(d.value.signal, bars[i].price, bars[i + 1].price);
      TradeIsTold(s, bars, i, st, d.value);
      KeptNext(s.cfg, st, i, d.value, won);
      ToldTrades(s, bars, i, st.trades, Traded(s.cfg, st, i, d.value, won).trades[|st.trades|]);
    } else {
      NoTradeIsDeclined(s, bars, i, st);
      ToldPasses(s, bars, i, st.trades, st.bankroll, Slipped(RawEntry(bars[i].ask), s.cfg.slippageBps));
    }
  }

  /** The whole replay, told by the bars: which trades are made, and what is in them. */
  lemma {:induction false} BeforeIsTold(s: Setup, bars: seq<Bar>, n: nat, end: State)
    requires s.bbPeriod > 1 && (n == 0 || n < |bars|) && end == Before(s, bars, n)
    ensures AllTold(s, bars, n, end.trades) && Kept(s.cfg.initial, end)
  {
    if n == 0 {
      NothingYet(s, bars);
    } else {
      var st := Before(s, bars, n - 1);
      BeforeIsTold(s, bars, n - 1, st);
      StepIsTold(s, bars, n - 1, st, end);
    }
  }

  /** Where prices only rise, a strategy that never bets on NO wins every trade. */
  lemma RisingHistoryAlwaysWins(s: Setup, bars: seq<Bar>)
    requires s.bbPeriod > 1 && forall i | 0 <= i < |bars| - 1 :: bars[i].price < bars[i + 1].price
    requires forall bar, rsi, band :: s.strategy.evaluate(bar, rsi, band) != BuyNo
    ensures forall k | 0 <= k < |Replay(s, bars).trades| :: Replay(s, bars).trades[k].won
  {
    if |bars| > 0 {
      var n := |bars| - 1;
      BeforeIsTold(s, bars, n, Before(s, bars, n));
      OnlyYes(s, bars, n);
      forall k | 0 <= k < |Before(s, bars, n).trades| ensures Before(s, bars, n).trades[k].won {
        var trades := Before(s, bars, n).trades;
        assert Told(s, bars, trades[..k], trades[k]) && trades[k] in trades;
      }
    }
  }

  lemma {:induction false} OnlyYes(s: Setup, bars: seq<Bar>, n: nat)
    requires s.bbPeriod > 1 && (n == 0 || n < |bars|)
    requires forall bar, rsi, band :: s.strategy.evaluate(bar, rsi, band) != BuyNo
    ensures forall t | t in Before(s, bars, n).trades :: t.signal == BuyYes
  {
    if n > 0 {
      OnlyYes(s, bars, n - 1);
    }
  }

  lemma ReplayIsTold(s: Setup, bars: seq<Bar>)
    requires s.bbPeriod > 1
    ensures AllTold(s, bars, if |bars| == 0 then 0 else |bars| - 1, Replay(s, bars).trades)
  {
    var n := if |bars| == 0 then 0 else |bars| - 1;
    assert Replay(s, bars) == Before(s, bars, n);
    BeforeIsTold(s, bars, n, Before(s, bars, n));
  }

  method ReplaySnapshots(s: Setup, bars: seq<Bar>) returns (trades: seq<SimTrade>)
    requires s.bbPeriod > 1
    ensures trades == Replay(s, bars).trades
    ensures AllTold(s, bars, if |bars| == 0 then 0 else |bars| - 1, trades)
  {
    ReplayIsTold(s, bars);
    var rsiSeries := GenerateRsi(Prices(bars), RSI_PERIOD);
    var bandSeries := GenerateBollinger(s.root, s.bbMult, Prices(bars), s.bbPeriod);
    var st := Start(s.cfg);
    for i := 0 to |bars|
      invariant i < |bars| ==> st == Before(s, bars, i)
      invariant i == |bars| ==> st == Replay(s, bars)
    {
      if i + 1 >= |bars| {
        break;
      }
      st := ReplayBar(s, bars, i, rsiSeries[i], bandSeries[i], st);
    }
    trades := st.trades;
  }

  // ---- no look-ahead ----

  /** Two histories that agree up to and including bar i. */
  ghost predicate AgreeThrough(a: seq<Bar>, b: seq<Bar>, i: nat) {
    i < |a| && i < |b| && a[..i + 1] == b[..i + 1]
  }

  lemma AgreeEarlier(a: seq<Bar>, b: seq<Bar>, i: nat, j: nat)
    requires AgreeThrough(a, b, i) && j <= i
    ensures AgreeThrough(a, b, j) && a[j] == b[j]
  {
  }

  lemma DecisionOfPrefix(s: Setup, a: seq<Bar>, b: seq<Bar>, i: nat, st: State)
    requires AgreeThrough(a, b, i) && s.bbPeriod > 1
    ensures DecideAt(s, a, i, st) == DecideAt(s, b, i, st)
  {
    AgreeEarlier(a, b, i, i);
    assert Prices(a)[..i + 1] == Prices(b)[..i + 1] by {
      forall j | 0 <= j <= i ensures Prices(a)[j] == Prices(b)[j] {
        AgreeEarlier(a, b, i, j);
      }
    }
    RsiOfPrefix(Prices(a), Prices(b), RSI_PERIOD, i);
    BandOfPrefix(s.root, s.bbMult, Prices(a), Prices(b), s.bbPeriod, i);
  }

  lemma {:induction false} StateOfPrefix(s: Setup, a: seq<Bar>, b: seq<Bar>, i: nat)
    requires AgreeThrough(a, b, i) && s.bbPeriod > 1
    ensures Before(s, a, i) == Before(s, b, i)
  {
    if i > 0 {
      AgreeEarlier(a, b, i, i - 1);
      AgreeEarlier(a, b, i, i);
      StateOfPrefix(s, a, b, i - 1);
      DecisionOfPrefix(s, a, b, i - 1, Before(s, a, i - 1));
    }
  }

  /**
   No look-ahead: two histories that agree through bar i give the same signal, entry and bet there,
   whatever comes later, the indicator series included.
   */
  lemma NoLookAhead(s: Setup, a: seq<Bar>, b: seq<Bar>, i: nat)
    requires AgreeThrough(a, b, i) && s.bbPeriod > 1
    ensures Before(s, a, i) == Before(s, b, i)
    ensures DecideAt(s, a, i, Before(s, a, i)) == DecideAt(s, b, i, Before(s, b, i))
  {
    StateOfPrefix(s, a, b, i);
    DecisionOfPrefix(s, a, b, i, Before(s, a, i));
  }

  lemma {:induction false} TradesGrow(s: Setup, bars: seq<Bar>, m: nat, n: nat)
    requires s.bbPeriod > 1 && m <= n && (n == 0 || n < |bars|)
    ensures Before(s, bars, m).trades <= Before(s, bars, n).trades
    decreases n
  {
    if m < n {
      TradesGrow(s, bars, m, n - 1);
    }
  }

  /** Stopping the history early only cuts trades off the end. */
  lemma PrefixReplaysPrefix(s: Setup, bars: seq<Bar>, m: nat)
    requires s.bbPeriod > 1 && m <= |bars|
    ensures Replay(s, bars[..m]).trades <= Replay(s, bars).trades
  {
    if m > 0 {
      assert bars[..m][..m] == bars[..m];
      StateOfPrefix(s, bars[..m], bars, m - 1);
      TradesGrow(s, bars, m - 1, |bars| - 1);
    }
  }

  // ---- the bankroll ----

  lemma SettledExact(bankroll: real, pnl: real)
    requires OnGrid(bankroll, Six) && OnGrid(pnl, Six)
    ensures Settled(bankroll, pnl) == bankroll + pnl && OnGrid(Settled(bankroll, pnl), Six)
  {
    GridSum(bankroll, pnl, Six);
    RoundFixesGrid(bankroll + pnl, Six);
  }

  lemma PnlOnGrid(cfg: Config, won: bool, entry: real, bet: real)
    requires entry != 0.0
    ensures OnGrid(Pnl(cfg, won, entry, bet), Six)
  {
    RoundOnGrid(Winnings(entry, bet, cfg.commission) - cfg.gas, Six);
    RoundOnGrid(-(bet + cfg.gas), Six);
  }

  /** The profits of all trades so far and the bankroll they explain. */
  ghost predicate Explained(cfg: Config, st: State) {
    st.bankroll == cfg.initial + Sum(Pnls(st.trades))
  }

  lemma TradedSum(cfg: Config, st: State, i: nat, d: Decision, won: bool)
    requires d.entry != 0.0
    ensures var after := Traded(cfg, st, i, d, won);
      && OnGrid(after.bankroll, Six)
      && Sum(Pnls(after.trades)) == Sum(Pnls(st.trades)) + Pnl(cfg, won, d.entry, d.bet)
      && (OnGrid(st.bankroll, Six) <==> after.bankroll == st.bankroll + Pnl(cfg, won, d.entry, d.bet))
  {
    var pnl := Pnl(cfg, won, d.entry, d.bet);
    PnlOnGrid(cfg, won, d.entry, d.bet);
    RoundOnGrid(st.bankroll + pnl, Six);
    var after := Traded(cfg, st, i, d, won);
    assert Pnls(after.trades) == Pnls(st.trades) + [pnl];
    SumAppend(Pnls(st.trades), pnl);
    if OnGrid(st.bankroll, Six) {
      SettledExact(st.bankroll, pnl);
    }
    if after.bankroll == st.bankroll + pnl {
      GridTakenOff(st.bankroll, pnl);
    }
  }

  lemma GridTakenOff(x: real, y: real)
    requires OnGrid(y, Six) && OnGrid(x + y, Six)
    ensures OnGrid(x, Six)
  {
    GridSum(y, y, Six);
    GridSum(x + y, -y, Six);
    assert x + y + -y == x;
  }

  /**
   Once there is a trade, the bankroll is the start plus all profits exactly when the start is a
   whole number of millionths; an initial amount finer than that loses the difference at once.
   */
  lemma {:induction false} BankrollExplainedExactlyWhen(s: Setup, bars: seq<Bar>, n: nat)
    requires s.bbPeriod > 1 && (n == 0 || n < |bars|)
    ensures var st := Before(s, bars, n);
      if st.trades == [] then st.bankroll == s.cfg.initial
      else OnGrid(st.bankroll, Six) && (Explained(s.cfg, st) <==> OnGrid(s.cfg.initial, Six))
  {
    if n > 0 {
      BankrollExplainedExactlyWhen(s, bars, n - 1);
      var st := Before(s, bars, n - 1);
      var d := DecideAt(s, bars, n - 1, st);
      if d.Some? {
        TradedSum(s.cfg, st, n - 1, d.value, Wins(d.value.signal, bars[n - 1].price, bars[n].price));
      }
    }
  }

  /** The bankroll the engine ends on is the end of the reported equity curve, on the same condition. */
  lemma EquityCurveEndsAtBankroll(s: Setup, bars: seq<Bar>)
    requires s.bbPeriod > 1 && OnGrid(s.cfg.initial, Six)
    ensures var st := Replay(s, bars);
      Curve(s.cfg.initial, Pnls(st.trades))[|st.trades|] == st.bankroll
  {
    var st := Replay(s, bars);
    if |bars| > 0 {
      BankrollExplainedExactlyWhen(s, bars, |bars| - 1);
    }
    assert Pnls(st.trades)[..|st.trades|] == Pnls(st.trades);
  }

  // ---- the floor ----

  /** Amounts that are not negative, a commission of at most everything. */
  predicate Charged(cfg: Config) {
    cfg.initial >= 0.0 && cfg.gas >= 0.0 && cfg.commission <= 1.0
  }

  /** The six-place rounding takes the gas price down to a whole number of millionths, or leaves it. */
  predicate RoundsDown(gas: real) {
    gas * 1000000.0 - (gas * 1000000.0).Floor as real < 0.5
  }

  /** A start in whole millionths and a gas price that rounds down to one. */
  predicate Plain(cfg: Config) {
    Charged(cfg) && OnGrid(cfg.initial, Six) && RoundsDown(cfg.gas)
  }

  /** The cost of the gas price after rounding, in millionths. */
  function Millionths(gas: real): int {
    (gas * 1000000.0).Floor
  }

  lemma RoundIntShift(x: real, k: int)
    ensures k % 2 == 0 ==> RoundInt(x + k as real) == RoundInt(x) + k
    ensures x - x.Floor as real != 0.5 ==> RoundInt(x + k as real) == RoundInt(x) + k
  {
    assert (x + k as real).Floor == x.Floor + k;
  }

  /** On the grid only the gas price is rounded. */
  lemma GasRounds(bankroll: real, gas: real)
    requires OnGrid(bankroll, Six) && RoundsDown(gas)
    ensures Round(-gas, Six) == -(Millionths(gas) as real) / 1000000.0 >= -gas
    ensures Round(-(bankroll + gas), Six) == Round(-gas, Six) - bankroll
  {
    var g := -(gas * 1000000.0);
    assert RoundInt(g) == -Millionths(gas);
    assert (-gas) * 1000000.0 == g;
    assert (-(bankroll + gas)) * 1000000.0 == g - bankroll * 1000000.0;
    RoundIntShift(g, -((bankroll * 1000000.0).Floor));
  }

  lemma LossFloor(cfg: Config, bankroll: real, entry: real, bet: real)
    requires Plain(cfg) && OnGrid(bankroll, Six) && entry != 0.0 && bet <= bankroll
    ensures Settled(bankroll, Pnl(cfg, false, entry, bet)) >= -cfg.gas
  {
    GasRounds(bankroll, cfg.gas);
    RoundMonotone(-(bankroll + cfg.gas), -(bet + cfg.gas), Six);
    PnlOnGrid(cfg, false, entry, bet);
    SettledExact(bankroll, Pnl(cfg, false, entry, bet));
  }

  /** The sign of what a win brings in is the sign of the bet. */
  lemma WinningsSign(entry: real, bet: real, commission: real)
    requires 0.0 < entry < 1.0 && commission <= 1.0
    ensures bet >= 0.0 ==> Winnings(entry, bet, commission) >= 0.0
    ensures bet <= 0.0 ==> Winnings(entry, bet, commission) <= 0.0
  {
    QuotientOrder(0.0, bet, entry);
    QuotientOrder(bet, 0.0, entry);
    KeepsSign(1.0 - entry, bet / entry);
    KeepsSign(1.0 - commission, (1.0 - entry) * (bet / entry));
  }

  lemma KeepsSign(k: real, x: real)
    requires k >= 0.0
    ensures x >= 0.0 ==> k * x >= 0.0 && x * k >= 0.0
    ensures x <= 0.0 ==> k * x <= 0.0 && x * k <= 0.0
  {
  }

  /** A negative amount on the grid is at least a millionth below zero, which the rounding cannot make up. */
  lemma BelowGrid(bankroll: real, gas: real)
    requires OnGrid(bankroll, Six) && bankroll < 0.0
    ensures bankroll - Millionths(gas) as real / 1000000.0 < -gas
  {
    assert (bankroll * 1000000.0).Floor <= -1;
  }

  lemma WinFloor(cfg: Config, bankroll: real, entry: real, bet: real)
    requires Plain(cfg) && OnGrid(bankroll, Six) && 0.0 < entry < 1.0
    ensures bet >= 0.0 && bankroll >= 0.0 ==> Settled(bankroll, Pnl(cfg, true, entry, bet)) >= -cfg.gas
    ensures bet <= 0.0 && bankroll < 0.0 ==> Settled(bankroll, Pnl(cfg, true, entry, bet)) < -cfg.gas
  {
    var w := Winnings(entry, bet, cfg.commission);
    WinningsSign(entry, bet, cfg.commission);
    GasRounds(bankroll, cfg.gas);
    PnlOnGrid(cfg, true, entry, bet);
    SettledExact(bankroll, Pnl(cfg, true, entry, bet));
    if bet >= 0.0 {
      RoundMonotone(-cfg.gas, w - cfg.gas, Six);
    }
    if bet <= 0.0 {
      RoundMonotone(w - cfg.gas, -cfg.gas, Six);
      if bankroll < 0.0 {
        BelowGrid(bankroll, cfg.gas);
      }
    }
  }

  /** A bankroll that is not negative bets nothing negative; a negative one always bets all of itself. */
  lemma BetSign(cfg: Config, bankroll: real, recent: seq<bool>, entry: real)
    requires 0.0 < entry < 1.0
    ensures bankroll >= 0.0 ==> 0.0 <= Bet(cfg, bankroll, recent, entry) <= bankroll
    ensures bankroll < 0.0 ==> Bet(cfg, bankroll, recent, entry) == bankroll
  {
  }

  /** One trade on a bankroll that is not negative leaves at least minus one gas fee. */
  lemma TradeFloor(cfg: Config, bankroll: real, recent: seq<bool>, entry: real, won: bool)
    requires Plain(cfg) && OnGrid(bankroll, Six) && 0.0 < entry < 1.0
    ensures Settled(bankroll, Pnl(cfg, won, entry, Bet(cfg, bankroll, recent, entry))) >= -cfg.gas
       <==> bankroll >= 0.0 || !won
  {
    BetSign(cfg, bankroll, recent, entry);
    var bet := Bet(cfg, bankroll, recent, entry);
    if won {
      WinFloor(cfg, bankroll, entry, bet);
    } else {
      LossFloor(cfg, bankroll, entry, bet);
    }
  }

  /** With such amounts no replay of any history takes the bankroll below minus one gas fee. */
  lemma {:induction false} FloorKept(s: Setup, bars: seq<Bar>, n: nat)
    requires Plain(s.cfg) && s.bbPeriod > 1 && (n == 0 || n < |bars|)
    ensures var st := Before(s, bars, n); OnGrid(st.bankroll, Six) && st.bankroll >= -s.cfg.gas
  {
    if n > 0 {
      FloorKept(s, bars, n - 1);
      var st := Before(s, bars, n - 1);
      var d := DecideAt(s, bars, n - 1, st);
      if d.Some? {
        var won := Wins(d.value.signal, bars[n - 1].price, bars[n].price);
        TradeFloor(s.cfg, st.bankroll, st.recent, d.value.entry, won);
        TradedSum(s.cfg, st, n - 1, d.value, won);
      }
    }
  }

  // ---- a replay that ends below it ----

  /** A strategy that always buys, on a start that goes into one bet. */
  function Gambler(gas: real, initial: real): Setup {
    Setup(Config(initial, 0.0, 0.0, gas, 0.0, false),
          Strategy((bar: Bar, rsi: Option<real>, band: Option<Band>) => BuyYes, (signal: Signal, entry: real) => true),
          (x: real) => x, 2, 1.0)
  }

  /** The price does not rise. */
  const STILL: seq<Bar> := [Bar(1.0, 0.5, map[]), Bar(1.0, 0.5, map[])]

  lemma SmallBet(cfg: Config, bankroll: real, entry: real)
    requires 0.0 < bankroll <= 0.10 && entry != 1.0
    ensures Bet(cfg, bankroll, [], entry) == bankroll
  {
    DimeAndCent();
    RoundFixesGrid(0.10, Four);
  }

  /** What is left, in millionths, when b millionths and a gas price of g are lost through two roundings. */
  function LeftAfter(b: real, g: real): int {
    RoundInt(b + RoundInt(-(b + g)) as real)
  }

  lemma TwoRoundings(bankroll: real, gas: real)
    ensures Settled(bankroll, Round(-(bankroll + gas), Six))
         == LeftAfter(bankroll * 1000000.0, gas * 1000000.0) as real / 1000000.0
  {
    var b, g := bankroll * 1000000.0, gas * 1000000.0;
    assert (-(bankroll + gas)) * 1000000.0 == -(b + g);
    var n := RoundInt(-(b + g));
    assert (bankroll + n as real / 1000000.0) * 1000000.0 == b + n as real;
  }

  ghost predicate KeepsFloor(gas: real, s: Setup, bars: seq<Bar>, n: nat)
    requires s.bbPeriod > 1 && (n == 0 || n < |bars|)
  {
    Before(s, bars, n).bankroll >= -gas
  }

  /** The whole start is lost, and the gas with it. */
  lemma GamblerLoses(gas: real, initial: real)
    requires 0.0 < initial <= 0.10
    requires LeftAfter(initial * 1000000.0, gas * 1000000.0) as real < -(gas * 1000000.0)
    ensures !KeepsFloor(gas, Gambler(gas, initial), STILL, 1)
  {
    var s := Gambler(gas, initial);
    var entry := Slipped(RawEntry(0.5), 0.0);
    assert Before(s, STILL, 0) == Start(s.cfg);
    SmallBet(s.cfg, initial, entry);
    assert DecideAt(s, STILL, 0, Start(s.cfg)) == Some(Decision(BuyYes, entry, initial));
    assert Before(s, STILL, 1) == Step(s, STILL, 0, Start(s.cfg));
    TwoRoundings(initial, gas);
  }

  /** Where the rest of the gas price is a half, the parity of the bet decides the tie. */
  lemma CostRoundsUp(k: int, g: real)
    requires g - g.Floor as real >= 0.5 && (k + g.Floor) % 2 == 1
    ensures LeftAfter(k as real, g) == -g.Floor - 1
  {
    assert (-(k as real + g)).Floor == -k - g.Floor - 1;
    assert RoundInt(-(k as real + g)) == -k - g.Floor - 1;
  }

  /** A bet of an odd or an even number of millionths, so that the loss and the gas round away from zero. */
  lemma GasRoundsUp(gas: real) returns (initial: real)
    requires !RoundsDown(gas)
    ensures 0.0 < initial <= 0.10 && OnGrid(initial, Six)
    ensures LeftAfter(initial * 1000000.0, gas * 1000000.0) as real < -(gas * 1000000.0)
  {
    var k := if Millionths(gas) % 2 == 1 then 100000 else 99999;
    initial := k as real / 1000000.0;
    WholeOnGrid(k, Six);
    assert initial * 1000000.0 == k as real;
    CostRoundsUp(k, gas * 1000000.0);
  }

  /**
   For a gas price, the floor of minus one gas fee holds for all replays from starts in whole millionths
   exactly when the price rounds down.
   */
  lemma FloorHoldsExactlyWhen(gas: real)
    requires gas >= 0.0
    ensures (forall s: Setup, bars: seq<Bar>, n: nat
               | Charged(s.cfg) && s.cfg.gas == gas && OnGrid(s.cfg.initial, Six)
                 && s.bbPeriod > 1 && (n == 0 || n < |bars|) :: KeepsFloor(gas, s, bars, n))
       <==> RoundsDown(gas)
  {
    if RoundsDown(gas) {
      forall s: Setup, bars: seq<Bar>, n: nat
        | Charged(s.cfg) && s.cfg.gas == gas && OnGrid(s.cfg.initial, Six)
          && s.bbPeriod > 1 && (n == 0 || n < |bars|)
        ensures KeepsFloor(gas, s, bars, n)
      {
        FloorKept(s, bars, n);
      }
    } else {
      var initial := GasRoundsUp(gas);
      GamblerLoses(gas, initial);
      var s := Gambler(gas, initial);
      assert Charged(s.cfg) && s.cfg.gas == gas && OnGrid(s.cfg.initial, Six) && s.bbPeriod > 1 && 1 < |STILL|;
    }
  }

  // ---- starts finer than a millionth ----

  /** A whole, even number of millionths. */
  predicate Even(gas: real) {
    OnGrid(gas, Six) && Millionths(gas) % 2 == 0
  }

  lemma EvenLeaves(b: real, m: int)
    requires m % 2 == 0
    ensures LeftAfter(b, m as real) >= -m
  {
    var n := RoundInt(-(b + m as real));
    RoundIntMonotone((-m - 1) as real + 0.5, b + n as real);
    HalfBelowEven(-m);
  }

  lemma HalfBelowEven(k: int)
    requires k % 2 == 0
    ensures RoundInt((k - 1) as real + 0.5) == k
  {
    assert ((k - 1) as real + 0.5).Floor == k - 1;
  }

  /** A profit that loses at most everything and the gas, from any bankroll. */
  lemma EvenFloor(bankroll: real, x: real, gas: real)
    requires Even(gas) && x >= -(bankroll + gas)
    ensures Settled(bankroll, Round(x, Six)) >= -gas
  {
    EvenLeaves(bankroll * 1000000.0, Millionths(gas));
    TwoRoundings(bankroll, gas);
    RoundMonotone(-(bankroll + gas), x, Six);
    RoundMonotone(bankroll + Round(-(bankroll + gas), Six), bankroll + Round(x, Six), Six);
  }

  lemma EvenTradeFloor(cfg: Config, bankroll: real, recent: seq<bool>, entry: real, won: bool)
    requires Charged(cfg) && Even(cfg.gas) && bankroll >= 0.0 && 0.0 < entry < 1.0
    ensures Settled(bankroll, Pnl(cfg, won, entry, Bet(cfg, bankroll, recent, entry))) >= -cfg.gas
  {
    var bet := Bet(cfg, bankroll, recent, entry);
    BetSign(cfg, bankroll, recent, entry);
    WinningsSign(entry, bet, cfg.commission);
    EvenFloor(bankroll, if won then Winnings(entry, bet, cfg.commission) - cfg.gas else -(bet + cfg.gas), cfg.gas);
  }

  lemma {:induction false} EvenFloorKept(s: Setup, bars: seq<Bar>, n: nat)
    requires Charged(s.cfg) && Even(s.cfg.gas) && s.bbPeriod > 1 && (n == 0 || n < |bars|)
    ensures KeepsFloor(s.cfg.gas, s, bars, n)
  {
    if n > 0 {
      EvenFloorKept(s, bars, n - 1);
      var st := Before(s, bars, n - 1);
      var d := DecideAt(s, bars, n - 1, st);
      if d.Some? {
        EvenTradeFloor(s.cfg, st.bankroll, st.recent, d.value.entry,
                       Wins(d.value.signal, bars[n - 1].price, bars[n].price));
      }
    }
  }

  lemma RoundsTo(x: real, n: int, rest: real)
    requires x == n as real + rest && 0.0 <= rest <= 0.5 && (rest == 0.5 ==> n % 2 == 0)
    ensures RoundInt(x) == n
  {
    assert x.Floor == n;
  }

  lemma LeavesTwice(b: real, g: real, n: int, x: real, left: int, y: real)
    requires -(b + g) == n as real + x && 0.0 <= x <= 0.5 && (x == 0.5 ==> n % 2 == 0)
    requires b + n as real == left as real + y && 0.0 <= y <= 0.5 && (y == 0.5 ==> left % 2 == 0)
    ensures LeftAfter(b, g) == left
  {
    RoundsTo(-(b + g), n, x);
    RoundsTo(b + n as real, left, y);
  }

  /** A start, in millionths, at which both roundings go away from zero. */
  function FineStart(rest: real): (b: real)
    requires 0.0 <= rest < 0.5
    ensures 0.0 < b <= 2.5
  {
    if rest == 0.0 then 2.5 else 1.5 - rest / 2.0
  }

  lemma FineStartLeaves(m: int, rest: real)
    requires 0.0 <= rest < 0.5 && (rest == 0.0 ==> m % 2 == 1)
    ensures LeftAfter(FineStart(rest), m as real + rest) == -m - 1
  {
    if rest == 0.0 {
      OddLeaves(m, -m - 3, -m - 1);
    } else {
      FinerLeaves(m, rest);
    }
  }

  lemma OddLeaves(m: int, n: int, left: int)
    requires m % 2 == 1 && n == -m - 3 && left == -m - 1
    ensures LeftAfter(2.5, m as real) == left
  {
    LeavesTwice(2.5, m as real, n, 0.5, left, 0.5);
  }

  lemma FinerLeaves(m: int, rest: real)
    requires 0.0 < rest < 0.5
    ensures LeftAfter(1.5 - rest / 2.0, m as real + rest) == -m - 1
  {
    var x := 0.5 - rest / 2.0;
    LeavesTwice(1.0 + x, m as real + rest, -m - 2, x, -m - 1, x);
  }

  lemma FineStartBreaks(gas: real) returns (initial: real)
    requires RoundsDown(gas) && !Even(gas)
    ensures 0.0 < initial <= 0.10
    ensures LeftAfter(initial * 1000000.0, gas * 1000000.0) as real < -(gas * 1000000.0)
  {
    var m, rest := Millionths(gas), gas * 1000000.0 - Millionths(gas) as real;
    initial := FineStart(rest) / 1000000.0;
    assert initial * 1000000.0 == FineStart(rest);
    FineStartLeaves(m, rest);
  }

  /** From any start at all, the floor holds for all replays exactly when gas is an even number of millionths. */
  lemma FloorFromAnyStartExactlyWhen(gas: real)
    requires gas >= 0.0
    ensures (forall s: Setup, bars: seq<Bar>, n: nat
               | Charged(s.cfg) && s.cfg.gas == gas && s.bbPeriod > 1 && (n == 0 || n < |bars|) ::
                 KeepsFloor(gas, s, bars, n))
       <==> Even(gas)
  {
    if Even(gas) {
      forall s: Setup, bars: seq<Bar>, n: nat
        | Charged(s.cfg) && s.cfg.gas == gas && s.bbPeriod > 1 && (n == 0 || n < |bars|)
        ensures KeepsFloor(gas, s, bars, n)
      {
        EvenFloorKept(s, bars, n);
      }
    } else {
      var initial;
      if RoundsDown(gas) {
        initial := FineStartBreaks(gas);
      } else {
        initial := GasRoundsUp(gas);
      }
      GamblerLoses(gas, initial);
      var s := Gambler(gas, initial);
      assert Charged(s.cfg) && s.cfg.gas == gas && s.bbPeriod > 1 && 1 < |STILL|;
    }
  }

  /** Two roundings, of the profit and of the bankroll, move a trade by at most a millionth. */
  lemma SettledNear(bankroll: real, x: real)
    ensures Abs(Settled(bankroll, Round(x, Six)) - (bankroll + x)) <= 0.000001
  {
    RoundNear(x, Six);
    RoundNear(bankroll + Round(x, Six), Six);
  }

  /** Without the grid the floor holds up to a millionth, and a win on a negative account still breaks it. */
  lemma TradeFloorAlways(cfg: Config, bankroll: real, recent: seq<bool>, entry: real, won: bool)
    requires Charged(cfg) && 0.0 < entry < 1.0
    ensures var after := Settled(bankroll, Pnl(cfg, won, entry, Bet(cfg, bankroll, recent, entry)));
      && (bankroll >= 0.0 || !won ==> after >= -cfg.gas - 0.000001)
      && (OnGrid(bankroll, Six) && bankroll < 0.0 && won ==> after < -cfg.gas)
  {
    var bet := Bet(cfg, bankroll, recent, entry);
    BetSign(cfg, bankroll, recent, entry);
    WinningsSign(entry, bet, cfg.commission);
    SettledNear(bankroll, if won then Winnings(entry, bet, cfg.commission) - cfg.gas else -(bet + cfg.gas));
    if OnGrid(bankroll, Six) && bankroll < 0.0 && won {
      NegativeWin(bankroll, Winnings(entry, bet, cfg.commission), cfg.gas);
    }
  }

  lemma NegativeWin(bankroll: real, w: real, gas: real)
    requires OnGrid(bankroll, Six) && bankroll < 0.0 && w <= 0.0
    ensures Settled(bankroll, Round(w - gas, Six)) < -gas
  {
    RoundNear(w - gas, Six);
    RoundOnGrid(w - gas, Six);
    SettledExact(bankroll, Round(w - gas, Six));
    assert (bankroll * 1000000.0).Floor <= -1;
  }

  /** For every gas price and start: no replay goes below minus one gas fee by more than a millionth. */
  lemma {:induction false} ReplayFloorAlways(s: Setup, bars: seq<Bar>, n: nat)
    requires Charged(s.cfg) && s.bbPeriod > 1 && (n == 0 || n < |bars|)
    ensures Before(s, bars, n).bankroll >= -s.cfg.gas - 0.000001
  {
    if n > 0 {
      ReplayFloorAlways(s, bars, n - 1);
      var st := Before(s, bars, n - 1);
      var d := DecideAt(s, bars, n - 1, st);
      if d.Some? {
        TradeFloorAlways(s.cfg, st.bankroll, st.recent, d.value.entry,
                         Wins(d.value.signal, bars[n - 1].price, bars[n].price));
      }
    }
  }

  /** Below one hundredth of the start no trade is ever made again. */
  lemma {:induction false} RuinIsFinal(s: Setup, bars: seq<Bar>, m: nat, n: nat)
    requires s.bbPeriod > 1 && m <= n && (n == 0 || n < |bars|)
    requires Before(s, bars, m).bankroll < s.cfg.initial * MIN_BANKROLL_FRACTION
    ensures Before(s, bars, n) == Before(s, bars, m)
    decreases n
  {
    if m < n {
      RuinIsFinal(s, bars, m, n - 1);
    }
  }

  // ---- trades that were really made ----

  /** What is read of a stored trade; an unknown side counts as BUY_YES. */
  datatype Record = Record(signal: Signal, entry: real, won: bool)

  function Side(r: Record): Signal {
    if r.signal == BuyNo then BuyNo else BuyYes
  }

  /** Here nothing stops a ruined account. */
  function Repriced(cfg: Config, st: State, r: Record): State {
    var entry := Slipped(r.entry, cfg.slippageBps);
    Traded(cfg, st, |st.trades|, Decision(Side(r), entry, Bet(cfg, st.bankroll, st.recent, entry)), r.won)
  }

  function Reprice(cfg: Config, records: seq<Record>): State {
    if |records| == 0 then Start(cfg)
    else Repriced(cfg, Reprice(cfg, records[..|records| - 1]), records[|records| - 1])
  }

  ghost predicate RecordTold(cfg: Config, r: Record, earlier: seq<SimTrade>, t: SimTrade) {
    && t.won == r.won && (t.signal == BuyNo <==> r.signal == BuyNo) && t.signal != Skip
    && exists bankroll, entry, bet ::
         SlippedFrom(r.entry, cfg.slippageBps, entry) && Carried(cfg, earlier, t, bankroll, entry, bet)
  }

  ghost predicate AllRecordsTold(cfg: Config, records: seq<Record>, trades: seq<SimTrade>) {
    |trades| == |records| && forall k | 0 <= k < |trades| :: RecordTold(cfg, records[k], trades[..k], trades[k])
  }

  lemma OneMoreRecord(cfg: Config, records: seq<Record>, n: nat, trades: seq<SimTrade>, t: SimTrade)
    requires n + 1 == |records| && AllRecordsTold(cfg, records[..n], trades) && RecordTold(cfg, records[n], trades, t)
    ensures AllRecordsTold(cfg, records, trades + [t])
  {
    var more := trades + [t];
    assert more[..n] == trades;
    forall k | 0 <= k < n ensures RecordTold(cfg, records[k], more[..k], more[k]) {
      assert more[..k] == trades[..k] && records[..n][k] == records[k];
    }
  }

  lemma RepricedIsTold(cfg: Config, st: State, r: Record)
    requires Kept(cfg.initial, st)
    ensures var next := Repriced(cfg, st, r);
      && Kept(cfg.initial, next) && |next.trades| == |st.trades| + 1
      && next.trades == st.trades + [next.trades[|st.trades|]]
      && RecordTold(cfg, r, st.trades, next.trades[|st.trades|])
  {
    var entry, n := Slipped(r.entry, cfg.slippageBps), |st.trades|;
    var d := Decision(Side(r), entry, Bet(cfg, st.bankroll, st.recent, entry));
    IsSlipped(r.entry, cfg.slippageBps);
    TradeCarried(cfg, st, n, d, r.won);
    KeptNext(cfg, st, n, d, r.won);
    assert Carried(cfg, st.trades, Repriced(cfg, st, r).trades[n], st.bankroll, entry, d.bet);
  }

  lemma RepriceNext(cfg: Config, records: seq<Record>, n: nat, st: State, end: State)
    requires n + 1 == |records| && AllRecordsTold(cfg, records[..n], st.trades) && Kept(cfg.initial, st)
    requires end == Repriced(cfg, st, records[n])
    ensures AllRecordsTold(cfg, records, end.trades) && Kept(cfg.initial, end)
  {
    RepricedIsTold(cfg, st, records[n]);
    OneMoreRecord(cfg, records, n, st.trades, end.trades[n]);
  }

  lemma NoRecords(cfg: Config, records: seq<Record>)
    requires records == []
    ensures AllRecordsTold(cfg, records, Reprice(cfg, records).trades) && Kept(cfg.initial, Reprice(cfg, records))
  {
  }

  /** One trade per record, each with the record's side and outcome and the costs of the configuration. */
  lemma {:induction false} RepriceIsTold(cfg: Config, records: seq<Record>, k: nat, end: State)
    requires k <= |records| && end == Reprice(cfg, records[..k])
    ensures AllRecordsTold(cfg, records[..k], end.trades) && Kept(cfg.initial, end)
  {
    if k == 0 {
      NoRecords(cfg, records[..k]);
    } else {
      var st := Reprice(cfg, records[..k - 1]);
      RepriceIsTold(cfg, records, k - 1, st);
      RepriceUnfolds(cfg, records, k);
      RepriceNext(cfg, records[..k], k - 1, st, end);
    }
  }

  lemma RepriceUnfolds(cfg: Config, records: seq<Record>, k: nat)
    requires 0 < k <= |records|
    ensures records[..k][..k - 1] == records[..k - 1]
    ensures Reprice(cfg, records[..k]) == Repriced(cfg, Reprice(cfg, records[..k - 1]), records[..k][k - 1])
  {
    assert records[..k][..k - 1] == records[..k - 1];
  }

  method SimulateFromDbRecords(cfg: Config, records: seq<Record>) returns (trades: seq<SimTrade>)
    ensures trades == Reprice(cfg, records).trades
    ensures AllRecordsTold(cfg, records, trades)
  {
    var st := Start(cfg);
    for k := 0 to |records|
      invariant st == Reprice(cfg, records[..k])
    {
      assert records[..k + 1][..k] == records[..k];
      var entry := Slipped(records[k].entry, cfg.slippageBps);
      var d := Decision(Side(records[k]), entry, Bet(cfg, st.bankroll, st.recent, entry));
      st := Book(cfg, st, |st.trades|, d, records[k].won);
    }
    assert records[..|records|] == records;
    trades := st.trades;
    RepriceIsTold(cfg, records, |records|, st);
  }

  lemma {:induction false} RepriceOnGrid(cfg: Config, records: seq<Record>)
    requires OnGrid(cfg.initial, Six)
    ensures OnGrid(Reprice(cfg, records).bankroll, Six) && Explained(cfg, Reprice(cfg, records))
  {
    if |records| > 0 {
      var n := |records| - 1;
      RepriceOnGrid(cfg, records[..n]);
      var st := Reprice(cfg, records[..n]);
      var entry := Slipped(records[n].entry, cfg.slippageBps);
      TradedSum(cfg, st, |st.trades|, Decision(Side(records[n]), entry, Bet(cfg, st.bankroll, st.recent, entry)),
                records[n].won);
    }
  }

  /** Re-pricing keeps the floor at a trade exactly when the account was not negative, or the trade lost. */
  lemma RepriceFloorExactlyWhen(cfg: Config, records: seq<Record>, r: Record)
    requires Plain(cfg)
    ensures var before := Reprice(cfg, records).bankroll;
      Reprice(cfg, records + [r]).bankroll >= -cfg.gas <==> before >= 0.0 || !r.won
  {
    assert (records + [r])[..|records|] == records;
    RepriceOnGrid(cfg, records);
    var st := Reprice(cfg, records);
    TradeFloor(cfg, st.bankroll, st.recent, Slipped(r.entry, cfg.slippageBps), r.won);
  }

  ghost predicate FloorIffNotNegative(cfg: Config, records: seq<Record>, r: Record) {
    Reprice(cfg, records + [r]).bankroll >= -cfg.gas <==> Reprice(cfg, records).bankroll >= 0.0 || !r.won
  }

  /** The gas prices for which that is so, on starts in whole millionths, are those that round down. */
  lemma RepriceFloorPrices(gas: real)
    requires gas >= 0.0
    ensures (forall cfg: Config, records: seq<Record>, r: Record
               | Charged(cfg) && cfg.gas == gas && OnGrid(cfg.initial, Six) :: FloorIffNotNegative(cfg, records, r))
       <==> RoundsDown(gas)
  {
    if RoundsDown(gas) {
      forall cfg: Config, records: seq<Record>, r: Record
        | Charged(cfg) && cfg.gas == gas && OnGrid(cfg.initial, Six)
        ensures FloorIffNotNegative(cfg, records, r)
      {
        RepriceFloorExactlyWhen(cfg, records, r);
      }
    } else {
      var initial := GasRoundsUp(gas);
      var cfg := Gambler(gas, initial).cfg;
      var r := Record(BuyYes, 0.5, false);
      SmallBet(cfg, initial, Slipped(0.5, 0.0));
      TwoRoundings(initial, gas);
      assert ([] + [r])[..0] == [] && ([] + [r])[0] == r;
      assert !FloorIffNotNegative(cfg, [], r);
    }
  }

  /** The same for every gas price and start, up to a millionth on the side that holds. */
  lemma RepriceFloorAlways(cfg: Config, records: seq<Record>, r: Record)
    requires Charged(cfg)
    ensures var before, after := Reprice(cfg, records).bankroll, Reprice(cfg, records + [r]).bankroll;
      && (before >= 0.0 || !r.won ==> after >= -cfg.gas - 0.000001)
      && (before < 0.0 && r.won ==> after < -cfg.gas)
  {
    assert (records + [r])[..|records|] == records;
    var st := Reprice(cfg, records);
    if |records| > 0 {
      LastOnGrid(cfg, records);
    }
    TradeFloorAlways(cfg, st.bankroll, st.recent, Slipped(r.entry, cfg.slippageBps), r.won);
  }

  lemma LastOnGrid(cfg: Config, records: seq<Record>)
    requires |records| > 0
    ensures OnGrid(Reprice(cfg, records).bankroll, Six)
  {
    var st, r := Reprice(cfg, records[..|records| - 1]), records[|records| - 1];
    var entry := Slipped(r.entry, cfg.slippageBps);
    RoundOnGrid(st.bankroll + Pnl(cfg, r.won, entry, Bet(cfg, st.bankroll, st.recent, entry)), Six);
  }

  /** So the floor of the replay is not one of the re-pricing: a loss to the last cent, then a win, breaks it. */
  lemma RepriceBreaksFloor(side: Signal, entry: real, commission: real)
    requires commission <= 1.0
    ensures var cfg := Config(0.10, 0.0, commission, 0.01, 0.0, false);
      Reprice(cfg, [Record(side, entry, false), Record(side, entry, true)]).bankroll < -cfg.gas
  {
    var cfg := Config(0.10, 0.0, commission, 0.01, 0.0, false);
    var first := [Record(side, entry, false)];
    DimeAndCent();
    assert first[..0] == [];
    RoundFixesGrid(0.10, Four);
    GridSum(0.10, 0.01, Six);
    RoundFixesGrid(-(0.10 + 0.01), Six);
    GridSum(0.10, -(0.10 + 0.01), Six);
    RoundFixesGrid(0.10 + -(0.10 + 0.01), Six);
    assert Reprice(cfg, first).bankroll == -0.01;
    RepriceFloorExactlyWhen(cfg, first, Record(side, entry, true));
    assert first + [Record(side, entry, true)] == [Record(side, entry, false), Record(side, entry, true)];
  }

  lemma DimeAndCent()
    ensures OnGrid(0.10, Six) && OnGrid(0.01, Six) && OnGrid(0.10, Four)
  {
  }
}
