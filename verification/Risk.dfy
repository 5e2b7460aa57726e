/** The three risk checks and the cooldown map of the circuit breaker. */
module Risk {
  import opened Common
  import opened Ledger
  import opened Store
  import Streaks
  import Windows

  datatype Config = Config(
    disable: real, pause: real, maxUnidirectional: real, losses: nat, cooldownWindows: nat)

  type Cooldowns = map<Pair, real>

  // ---- drawdown ----

  datatype Field = Held | Highest

  function Part(f: Field, asset: string, p: Pair, a: Account): real {
    if p.asset != asset then 0.0 else if f.Held? then a.current else a.peak
  }

  /** The sum over every account of the asset, in no particular order. */
  ghost function Portfolio(f: Field, asset: string, bank: map<Pair, Account>): real
    decreases |bank|
  {
    if bank == map[] then 0.0
    else
      var p :| p in bank;
      Part(f, asset, p, bank[p]) + Portfolio(f, asset, bank - {p})
  }

  lemma {:induction false} PortfolioWithout(f: Field, asset: string, bank: map<Pair, Account>, p: Pair)
    requires p in bank
    ensures Portfolio(f, asset, bank) == Part(f, asset, p, bank[p]) + Portfolio(f, asset, bank - {p})
    decreases |bank|
  {
    var q :| q in bank && Portfolio(f, asset, bank)
                          == Part(f, asset, q, bank[q]) + Portfolio(f, asset, bank - {q});
    if q != p {
      PortfolioWithout(f, asset, bank - {q}, p);
      PortfolioWithout(f, asset, bank - {p}, q);
      assert bank - {q} - {p} == bank - {p} - {q};
    }
  }

  function Depth(current: real, peak: real): real
    requires peak > 0.0
  {
    (peak - current) / peak
  }

  predicate TooDeep(current: real, peak: real, limit: real) {
    peak > 0.0 && Depth(current, peak) >= limit
  }

  ghost predicate DrawdownOk(cfg: Config, bank: map<Pair, Account>, p: Pair) {
    var a := if p in bank then bank[p] else Account(0.0, 0.0);
    && !TooDeep(a.current, a.peak, cfg.disable)
    && !TooDeep(Portfolio(Held, p.asset, bank), Portfolio(Highest, p.asset, bank), cfg.pause)
  }

  // ---- drawdown, told by the accounts ----

  /** The asset's accounts, each once, in any order. */
  ghost predicate Accounts(bank: map<Pair, Account>, asset: string, rows: seq<Pair>) {
    Distinct(rows) && forall p :: p in rows <==> p in bank && p.asset == asset
  }

  function Balances(bank: map<Pair, Account>, rows: seq<Pair>): (r: seq<real>)
    requires forall i | 0 <= i < |rows| :: rows[i] in bank
    ensures |r| == |rows| && forall i | 0 <= i < |r| :: r[i] == bank[rows[i]].current
  {
    seq(|rows|, i requires 0 <= i < |rows| => bank[rows[i]].current)
  }

  function Peaks(bank: map<Pair, Account>, rows: seq<Pair>): (r: seq<real>)
    requires forall i | 0 <= i < |rows| :: rows[i] in bank
    ensures |r| == |rows| && forall i | 0 <= i < |r| :: r[i] == bank[rows[i]].peak
  {
    seq(|rows|, i requires 0 <= i < |rows| => bank[rows[i]].peak)
  }

  /** What is missing from the peak reaches the limit's share of it. */
  predicate Fallen(current: real, peak: real, limit: real) {
    peak > 0.0 && peak - current >= limit * peak
  }

  lemma TooDeepTold(current: real, peak: real, limit: real)
    ensures TooDeep(current, peak, limit) <==> Fallen(current, peak, limit)
  {
    if peak > 0.0 {
      QuotientOrder(limit * peak, peak - current, peak);
      QuotientIs(limit * peak, peak, limit);
    }
  }

  lemma {:induction false} NoAccounts(f: Field, asset: string, bank: map<Pair, Account>)
    requires forall p | p in bank :: p.asset != asset
    ensures Portfolio(f, asset, bank) == 0.0
    decreases |bank|
  {
    if bank != map[] {
      var p :| p in bank;
      NoAccounts(f, asset, bank - {p});
      PortfolioWithout(f, asset, bank, p);
    }
  }

  lemma {:induction false} PortfolioIsSum(asset: string, bank: map<Pair, Account>, rows: seq<Pair>)
    requires Accounts(bank, asset, rows) && forall i | 0 <= i < |rows| :: rows[i] in bank
    ensures Portfolio(Held, asset, bank) == Sum(Balances(bank, rows))
    ensures Portfolio(Highest, asset, bank) == Sum(Peaks(bank, rows))
    decreases |rows|
  {
    if |rows| == 0 {
      NoAccounts(Held, asset, bank);
      NoAccounts(Highest, asset, bank);
    } else {
      var rest := bank - {rows[0]};
      assert rows == [rows[0]] + rows[1..];
      PortfolioIsSum(asset, rest, rows[1..]);
      PortfolioWithout(Held, asset, bank, rows[0]);
      PortfolioWithout(Highest, asset, bank, rows[0]);
      assert Balances(bank, rows)[1..] == Balances(rest, rows[1..]);
      assert Peaks(bank, rows)[1..] == Peaks(rest, rows[1..]);
    }
  }

  /** Trading stops exactly when the account, or the asset's accounts together, have fallen by the limit. */
  lemma DrawdownExactlyWhen(cfg: Config, bank: map<Pair, Account>, p: Pair, rows: seq<Pair>)
    requires Accounts(bank, p.asset, rows) && forall i | 0 <= i < |rows| :: rows[i] in bank
    ensures DrawdownOk(cfg, bank, p) <==>
      && (p in bank ==> !Fallen(bank[p].current, bank[p].peak, cfg.disable))
      && !Fallen(Sum(Balances(bank, rows)), Sum(Peaks(bank, rows)), cfg.pause)
  {
    PortfolioIsSum(p.asset, bank, rows);
    TooDeepTold(Sum(Balances(bank, rows)), Sum(Peaks(bank, rows)), cfg.pause);
    if p in bank {
      TooDeepTold(bank[p].current, bank[p].peak, cfg.disable);
    }
  }

  // ---- correlation ----

  /** Only the share of the dominant side blocks, and only from three open trades on. */
  predicate BalancedEnough(cfg: Config, yes: nat, no: nat) {
    var total := yes + no;
    var dominant := if yes < no then no else yes;
    !(total >= 3 && dominant as real / total as real > cfg.maxUnidirectional)
  }

  predicate CorrelationOk(cfg: Config, trades: seq<Trade>, asset: string) {
    BalancedEnough(cfg, CountOpen(trades, asset, BuyYes), CountOpen(trades, asset, BuyNo))
  }

  /** The open bets on one side of the asset. */
  function OpenBets(trades: seq<Trade>, asset: string, side: Signal): set<nat> {
    set i: nat | i < |trades| && trades[i].pair.asset == asset && trades[i].outcome.None? && trades[i].signal == side
  }

  lemma OpenBetsNext(trades: seq<Trade>, asset: string, side: Signal, n: nat)
    requires n + 1 == |trades|
    ensures n !in OpenBets(trades[..n], asset, side)
    ensures OpenBets(trades, asset, side)
         == if n in OpenBets(trades, asset, side) then OpenBets(trades[..n], asset, side) + {n}
            else OpenBets(trades[..n], asset, side)
  {
    forall i: nat | i < n ensures i in OpenBets(trades, asset, side) <==> i in OpenBets(trades[..n], asset, side) {
      assert trades[..n][i] == trades[i];
    }
  }

  lemma {:induction false} CountOpenIs(trades: seq<Trade>, asset: string, side: Signal)
    ensures CountOpen(trades, asset, side) == |OpenBets(trades, asset, side)|
  {
    if |trades| > 0 {
      CountOpenIs(trades[..|trades| - 1], asset, side);
      OpenBetsNext(trades, asset, side, |trades| - 1);
    }
  }

  /** Whichever side has more: its bets are at most the limit's share of all. */
  predicate Within(limit: real, some: nat, all: nat) {
    some as real <= limit * all as real
  }

  lemma SharesWithin(cfg: Config, yes: nat, no: nat)
    ensures BalancedEnough(cfg, yes, no)
       <==> yes + no < 3
            || (Within(cfg.maxUnidirectional, yes, yes + no) && Within(cfg.maxUnidirectional, no, yes + no))
  {
    var total, limit := yes + no, cfg.maxUnidirectional;
    if total >= 3 {
      ShareWithin(limit, if yes < no then no else yes, total);
    }
  }

  lemma ShareWithin(limit: real, some: nat, all: nat)
    requires all > 0
    ensures some as real / all as real <= limit <==> Within(limit, some, all)
  {
    QuotientOrder(some as real, limit * all as real, all as real);
    QuotientIs(limit * all as real, all as real, limit);
  }

  /** The check passes while fewer than three bets of the asset are open, or neither side holds too many of them. */
  lemma CorrelationExactlyWhen(cfg: Config, trades: seq<Trade>, asset: string)
    ensures var yes, no := |OpenBets(trades, asset, BuyYes)|, |OpenBets(trades, asset, BuyNo)|;
      CorrelationOk(cfg, trades, asset)
      <==> yes + no < 3
           || (Within(cfg.maxUnidirectional, yes, yes + no) && Within(cfg.maxUnidirectional, no, yes + no))
  {
    CountOpenIs(trades, asset, BuyYes);
    CountOpenIs(trades, asset, BuyNo);
    SharesWithin(cfg, CountOpen(trades, asset, BuyYes), CountOpen(trades, asset, BuyNo));
  }

  // ---- circuit breaker ----

  function CooldownSeconds(cfg: Config, asset: string): real {
    cfg.cooldownWindows as real * if asset == "SOL" then 900.0 else 300.0
  }

  /** A pause that starts in one market window ends as many windows later as it is configured for. */
  lemma CooldownSpansWindows(cfg: Config, asset: string, now: real)
    requires now >= 0.0
    ensures Windows.MarketWindow(asset, (now + CooldownSeconds(cfg, asset)).Floor)
         == Windows.MarketWindow(asset, now.Floor) + cfg.cooldownWindows * (Windows.Interval(asset) * 60)
  {
    var length := Windows.Interval(asset) * 60;
    assert CooldownSeconds(cfg, asset) == (cfg.cooldownWindows * length) as real;
    assert (now + (cfg.cooldownWindows * length) as real).Floor == now.Floor + cfg.cooldownWindows * length;
    WholeWindows(now.Floor, cfg.cooldownWindows, length);
  }

  lemma WholeWindows(t: nat, k: nat, length: nat)
    requires length > 0
    ensures (t + k * length) / length * length == t / length * length + k * length
  {
    var q, r := t / length, t % length;
    assert t == q * length + r;
    assert t + k * length == (q + k) * length + r;
    DivIs(t + k * length, q + k, length, r);
    assert (q + k) * length == q * length + k * length;
  }

  lemma DivIs(x: nat, q: nat, n: nat, r: nat)
    requires n > 0 && r < n && x == q * n + r
    ensures x / n == q
  {
    var d := x / n - q;
    assert d * n == (x / n) * n - q * n;
    assert x == (x / n) * n + x % n;
    SmallMultiple(d, n);
  }

  lemma SmallMultiple(d: int, n: int)
    requires n > 0 && -n < d * n < n
    ensures d == 0
  {
  }

  /** The last `losses` resolved trades of the pair exist and are all losses. */
  ghost predicate OnLosingStreak(cfg: Config, db: Db, p: Pair) {
    Streaks.LosingStreak(db.trades, p, cfg.losses)
  }

  ghost predicate Cooling(cooldown: Cooldowns, p: Pair, now: real) {
    p in cooldown && now < cooldown[p]
  }

  ghost predicate BreakerOk(cfg: Config, cooldown: Cooldowns, db: Db, p: Pair, now: real) {
    !Cooling(cooldown, p, now) && !OnLosingStreak(cfg, db, p)
  }

  ghost function BreakerAfter(cfg: Config, cooldown: Cooldowns, db: Db, p: Pair, now: real): Cooldowns {
    if Cooling(cooldown, p, now) then cooldown
    else if OnLosingStreak(cfg, db, p) then cooldown[p := now + CooldownSeconds(cfg, p.asset)]
    else cooldown - {p}
  }

  ghost predicate AllOk(cfg: Config, cooldown: Cooldowns, db: Db, p: Pair, now: real) {
    && DrawdownOk(cfg, db.bank, p)
    && CorrelationOk(cfg, db.trades, p.asset)
    && BreakerOk(cfg, cooldown, db, p, now)
  }

  class RiskManager {
    const cfg: Config
    var cooldown: Cooldowns

    constructor (cfg: Config)
      ensures this.cfg == cfg && cooldown == map[]
    {
      this.cfg := cfg;
      cooldown := map[];
    }

    method CheckDrawdown(db: Database, p: Pair) returns (ok: bool)
      ensures ok <==> DrawdownOk(cfg, db.bank, p)
    {
      var a := if p in db.bank then db.bank[p] else Account(0.0, 0.0);
      if TooDeep(a.current, a.peak, cfg.disable) {
        return false;
      }
      var current, peak := 0.0, 0.0;
      var rows := db.bank;
      while rows != map[]
        invariant current + Portfolio(Held, p.asset, rows) == Portfolio(Held, p.asset, db.bank)
        invariant peak + Portfolio(Highest, p.asset, rows) == Portfolio(Highest, p.asset, db.bank)
        decreases |rows|
      {
        var q :| q in rows;
        PortfolioWithout(Held, p.asset, rows, q);
        PortfolioWithout(Highest, p.asset, rows, q);
        if q.asset == p.asset {
          current, peak := current + rows[q].current, peak + rows[q].peak;
        }
        rows := rows - {q};
      }
      return !TooDeep(current, peak, cfg.pause);
    }

    method CheckCorrelation(db: Database, asset: string) returns (ok: bool)
      ensures ok <==> CorrelationOk(cfg, db.trades, asset)
      ensures var yes, no := |OpenBets(db.trades, asset, BuyYes)|, |OpenBets(db.trades, asset, BuyNo)|;
        ok <==> yes + no < 3
                || (Within(cfg.maxUnidirectional, yes, yes + no) && Within(cfg.maxUnidirectional, no, yes + no))
    {
      CorrelationExactlyWhen(cfg, db.trades, asset);
      var yes, no := CountOpen(db.trades, asset, BuyYes), CountOpen(db.trades, asset, BuyNo);
      var total := yes + no;
      if total > 0 {
        var dominant := if yes < no then no else yes;
        var share := dominant as real / total as real;
        if share > cfg.maxUnidirectional && total >= 3 {
          return false;
        }
      }
      return true;
    }

    method CheckCircuitBreaker(db: Database, p: Pair, now: real) returns (ok: bool)
      modifies this
      ensures ok <==> BreakerOk(cfg, old(cooldown), db.View(), p, now)
      ensures cooldown == BreakerAfter(cfg, old(cooldown), db.View(), p, now)
      ensures ok <==>
        !(p in old(cooldown) && now < old(cooldown)[p]) && !Streaks.LosingStreak(db.trades, p, cfg.losses)
      ensures ok ==> p !in cooldown
      ensures p in old(cooldown) && now < old(cooldown)[p] ==> cooldown == old(cooldown)
      ensures !ok && !(p in old(cooldown) && now < old(cooldown)[p]) ==>
        p in cooldown && cooldown[p] == now + cfg.cooldownWindows as real * if p.asset == "SOL" then 900.0 else 300.0
      ensures forall q | q != p ::
        (q in cooldown <==> q in old(cooldown)) && (q in cooldown ==> cooldown[q] == old(cooldown)[q])
    {
      Streaks.StreakIsRecent(db.trades, p, cfg.losses);
      if p in cooldown {
        if now < cooldown[p] {
          return false;
        }
        cooldown := cooldown - {p};
      }
      var recent := Recent(Of(db.trades, p), cfg.losses);
      if |recent| >= cfg.losses && (forall t | t in recent :: t.outcome == Some(Loss)) {
        cooldown := cooldown[p := now + CooldownSeconds(cfg, p.asset)];
        return false;
      }
      return true;
    }

    /** The checks in order; a refused check stops the ones after it. */
    method CheckAll(db: Database, p: Pair, now: real) returns (ok: bool)
      modifies this
      ensures ok <==> AllOk(cfg, old(cooldown), db.View(), p, now)
      ensures cooldown ==
        if DrawdownOk(cfg, db.bank, p) && CorrelationOk(cfg, db.trades, p.asset)
        then BreakerAfter(cfg, old(cooldown), db.View(), p, now) else old(cooldown)
    {
      ok := CheckDrawdown(db, p);
      if !ok {
        return;
      }
      ok := CheckCorrelation(db, p.asset);
      if !ok {
        return;
      }
      ok := CheckCircuitBreaker(db, p, now);
    }
  }
}
