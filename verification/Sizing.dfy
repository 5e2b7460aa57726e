/** The fractional Kelly sizer and the rolling statistics it reads. */
module Sizing {
  import opened Common
  import opened Rounding
  import Ledger
  import Streaks

  datatype Config = Config(
    minPct: real, maxPct: real, defaultPct: real, minSample: nat, kellyFraction: real, rollingWindow: nat)

  datatype Stats = Stats(resolved: nat, winRate: real, avgEntry: real)

  const KELLY_CAP: real := 0.10

  // ---- rolling statistics ----

  function Wins(rows: seq<Ledger.Trade>): (n: nat)
    ensures n <= |rows|
  {
    if |rows| == 0 then 0
    else Wins(rows[1..]) + if rows[0].outcome == Some(Ledger.Win) then 1 else 0
  }

  function Entries(rows: seq<Ledger.Trade>): real {
    if |rows| == 0 then 0.0 else rows[0].entry + Entries(rows[1..])
  }

  function RollingStats(db: Ledger.Db, p: Ledger.Pair, n: nat): Stats {
    var rows := Ledger.RecentOf(db, p, n);
    if |rows| == 0 then Stats(0, 0.0, 0.5)
    else Stats(|rows|, Mean(Wins(rows) as real, |rows|), Mean(Entries(rows), |rows|))
  }

  function Mean(total: real, n: nat): real
    requires n > 0
  {
    total / n as real
  }

  lemma MeanInRange(total: real, n: nat)
    requires n > 0
    ensures 0.0 <= total <= n as real <==> 0.0 <= Mean(total, n) <= 1.0
    ensures 0.0 < total < n as real <==> 0.0 < Mean(total, n) < 1.0
  {
    QuotientOrder(0.0, total, n as real);
    QuotientOrder(total, n as real, n as real);
  }

  /** Voided rows count as trials, so they pull the win rate down; it stays a proportion. */
  lemma RollingStatsInRange(db: Ledger.Db, p: Ledger.Pair, n: nat)
    requires forall t | t in db.trades :: 0.0 < t.entry < 1.0
    ensures var s := RollingStats(db, p, n);
      0.0 <= s.winRate <= 1.0 && 0.0 < s.avgEntry < 1.0 && s.resolved <= n
  {
    var rows := Ledger.RecentOf(db, p, n);
    if |rows| > 0 {
      OfSubset(db.trades, p);
      EntriesBounds(rows);
      MeanInRange(Wins(rows) as real, |rows|);
      MeanInRange(Entries(rows), |rows|);
    }
  }

  lemma {:induction false} OfSubset(trades: seq<Ledger.Trade>, p: Ledger.Pair)
    ensures forall t | t in Ledger.Of(trades, p) :: t in trades && t.pair == p
  {
    if |trades| > 0 {
      OfSubset(trades[..|trades| - 1], p);
    }
  }

  lemma {:induction false} EntriesBounds(rows: seq<Ledger.Trade>)
    requires |rows| > 0 && forall t | t in rows :: 0.0 < t.entry < 1.0
    ensures 0.0 < Entries(rows) < |rows| as real
  {
    if |rows| > 1 {
      EntriesBounds(rows[1..]);
    }
  }

  // ---- the statistics, told by the table ----

  /** The positions among these whose row was won. */
  ghost function WonAt(trades: seq<Ledger.Trade>, at: seq<nat>): set<nat>
    requires forall j | 0 <= j < |at| :: at[j] < |trades|
  {
    set i | i in at && trades[i].outcome == Some(Ledger.Win)
  }

  function EntriesAt(trades: seq<Ledger.Trade>, at: seq<nat>): (r: seq<real>)
    requires forall j | 0 <= j < |at| :: at[j] < |trades|
    ensures |r| == |at| && forall j | 0 <= j < |at| :: r[j] == trades[at[j]].entry
  {
    seq(|at|, j requires 0 <= j < |at| => trades[at[j]].entry)
  }

  lemma {:induction false} WinsCounted(trades: seq<Ledger.Trade>, at: seq<nat>, rows: seq<Ledger.Trade>)
    requires Streaks.RowsAt(trades, at, rows) && forall j, k | 0 <= j < k < |at| :: at[j] > at[k]
    ensures Wins(rows) == |WonAt(trades, at)|
  {
    if |at| == 0 {
      assert WonAt(trades, at) == {};
    } else {
      WinsCounted(trades, at[1..], rows[1..]);
      WonFirst(trades, at);
    }
  }

  lemma WonFirst(trades: seq<Ledger.Trade>, at: seq<nat>)
    requires |at| > 0 && at[0] !in at[1..] && forall j | 0 <= j < |at| :: at[j] < |trades|
    ensures |WonAt(trades, at)| == |WonAt(trades, at[1..])| + if trades[at[0]].outcome == Some(Ledger.Win) then 1 else 0
  {
    assert at == [at[0]] + at[1..];
    assert WonAt(trades, at)
        == WonAt(trades, at[1..]) + if trades[at[0]].outcome == Some(Ledger.Win) then {at[0]} else {};
  }

  lemma {:induction false} EntriesSummed(trades: seq<Ledger.Trade>, at: seq<nat>, rows: seq<Ledger.Trade>)
    requires Streaks.RowsAt(trades, at, rows)
    ensures Entries(rows) == Sum(EntriesAt(trades, at))
  {
    if |at| > 0 {
      EntriesSummed(trades, at[1..], rows[1..]);
      assert EntriesAt(trades, at)[1..] == EntriesAt(trades, at[1..]);
    }
  }

  /** The statistics are those of the newest n resolved rows: how many, how many of them won, at what prices. */
  ghost predicate StatsOf(trades: seq<Ledger.Trade>, p: Ledger.Pair, n: nat, at: seq<nat>, s: Stats) {
    && Streaks.Newest(trades, p, n, at) && s.resolved == |at|
    && (|at| == 0 ==> s.winRate == 0.0 && s.avgEntry == 0.5)
    && (|at| > 0 ==> Times(s.winRate, |at|) == |WonAt(trades, at)| as real
                     && Times(s.avgEntry, |at|) == Sum(EntriesAt(trades, at)))
  }

  function Times(x: real, n: nat): real {
    x * n as real
  }

  lemma StatsTold(db: Ledger.Db, p: Ledger.Pair, n: nat) returns (at: seq<nat>)
    ensures StatsOf(db.trades, p, n, at, RollingStats(db, p, n))
  {
    at := Streaks.RecentIsNewest(db.trades, p, n);
    var rows := Ledger.RecentOf(db, p, n);
    WinsCounted(db.trades, at, rows);
    EntriesSummed(db.trades, at, rows);
    if |at| > 0 {
      MeanBack(Wins(rows) as real, |rows|);
      MeanBack(Entries(rows), |rows|);
    }
  }

  lemma MeanBack(total: real, n: nat)
    requires n > 0
    ensures Times(Mean(total, n), n) == total
  {
  }

  // ---- the size ----

  function Cents(x: real): real {
    Round(x, Two)
  }

  function Share(b: real, pct: real): real {
    Cents(b * pct)
  }

  function Smallest(cfg: Config, bankroll: real): real {
    Max(Share(bankroll, cfg.minPct), 0.10)
  }

  function Largest(cfg: Config, bankroll: real): real {
    Max(Share(bankroll, cfg.maxPct), Smallest(cfg, bankroll))
  }

  function Clamp(lo: real, hi: real, x: real): real {
    Max(lo, Min(hi, x))
  }

  function FullKelly(winRate: real, entry: real): real
    requires entry != 1.0
  {
    winRate - (1.0 - winRate) * (entry / (1.0 - entry))
  }

  /** The linear map from a ratio onto the band, in whole cents. */
  function Ramp(lo: real, hi: real, ratio: real): real {
    Cents(Clamp(lo, hi, lo + Rise(hi - lo, ratio)))
  }

  function Rise(band: real, ratio: real): real {
    band * ratio
  }

  function Basis(bankroll: real): (b: real)
    ensures b > 0.0
  {
    if bankroll <= 0.0 then 100.0 else bankroll
  }

  function KellySize(cfg: Config, stats: Stats, bankroll: real): real {
    SizeIn(cfg, stats, Smallest(cfg, Basis(bankroll)), Largest(cfg, Basis(bankroll)),
           Share(Basis(bankroll), cfg.defaultPct))
  }

  function SizeIn(cfg: Config, stats: Stats, lo: real, hi: real, warmup: real): real {
    if stats.resolved < cfg.minSample then Cents(Clamp(lo, hi, warmup))
    else if stats.avgEntry >= 1.0 then lo
    else ByFraction(lo, hi, FullKelly(stats.winRate, stats.avgEntry), cfg.kellyFraction)
  }

  function ByFraction(lo: real, hi: real, kelly: real, fraction: real): real {
    var frac := kelly * fraction;
    if frac <= 0.0 then lo else Ramp(lo, hi, Min(frac / (KELLY_CAP * fraction), 1.0))
  }

  lemma ClampInBand(lo: real, hi: real, x: real)
    requires OnGrid(lo, Two) && OnGrid(hi, Two) && lo <= hi
    ensures lo <= Cents(Clamp(lo, hi, x)) <= hi
  {
    var y := Clamp(lo, hi, x);
    RoundMonotone(lo, y, Two);
    RoundMonotone(y, hi, Two);
    RoundFixesGrid(lo, Two);
    RoundFixesGrid(hi, Two);
  }

  lemma BoundsOnGrid(cfg: Config, b: real)
    ensures OnGrid(Smallest(cfg, b), Two) && OnGrid(Largest(cfg, b), Two)
    ensures 0.10 <= Smallest(cfg, b) <= Largest(cfg, b)
  {
    ShareOnGrid(b, cfg.minPct);
    ShareOnGrid(b, cfg.maxPct);
    DimeOnGrid();
  }

  lemma ShareOnGrid(b: real, pct: real)
    ensures OnGrid(Share(b, pct), Two)
  {
  }

  lemma DimeOnGrid()
    ensures OnGrid(0.10, Two)
  {
  }

  /** Cent rounding cannot push the size out of the band, whatever the statistics say. */
  lemma SizeInBand(cfg: Config, stats: Stats, bankroll: real)
    ensures Smallest(cfg, Basis(bankroll)) <= KellySize(cfg, stats, bankroll) <= Largest(cfg, Basis(bankroll))
  {
    var lo, hi := Smallest(cfg, Basis(bankroll)), Largest(cfg, Basis(bankroll));
    var warmup := Share(Basis(bankroll), cfg.defaultPct);
    BoundsOnGrid(cfg, Basis(bankroll));
    AnySizeInBand(cfg, stats, lo, hi, warmup);
  }

  lemma AnySizeInBand(cfg: Config, stats: Stats, lo: real, hi: real, warmup: real)
    requires OnGrid(lo, Two) && OnGrid(hi, Two) && lo <= hi
    ensures lo <= SizeIn(cfg, stats, lo, hi, warmup) <= hi
  {
    if stats.resolved < cfg.minSample {
      ClampInBand(lo, hi, warmup);
    } else if stats.avgEntry < 1.0 {
      FractionInBand(lo, hi, FullKelly(stats.winRate, stats.avgEntry), cfg.kellyFraction);
    }
  }

  lemma FractionInBand(lo: real, hi: real, kelly: real, fraction: real)
    requires OnGrid(lo, Two) && OnGrid(hi, Two) && lo <= hi
    ensures lo <= ByFraction(lo, hi, kelly, fraction) <= hi
  {
  }

  /** The edge per unit of risk. */
  lemma FullKellyIsEdge(winRate: real, entry: real)
    requires entry != 1.0
    ensures FullKelly(winRate, entry) == (winRate - entry) / (1.0 - entry)
  {
  }

  /** The size with the fraction taken out: where the full Kelly value falls between 0 and the cap. */
  function ByEdge(lo: real, hi: real, kelly: real): real {
    if kelly <= 0.0 then lo else Ramp(lo, hi, Min(kelly / KELLY_CAP, 1.0))
  }

  /** kelly_fraction cancels: only its sign reaches the result. */
  lemma FractionCancels(cfg: Config, stats: Stats, bankroll: real)
    requires stats.resolved >= cfg.minSample && stats.avgEntry < 1.0
    ensures KellySize(cfg, stats, bankroll)
      == if cfg.kellyFraction <= 0.0 then Smallest(cfg, Basis(bankroll))
         else ByEdge(Smallest(cfg, Basis(bankroll)), Largest(cfg, Basis(bankroll)),
                     FullKelly(stats.winRate, stats.avgEntry))
  {
    BoundsOnGrid(cfg, Basis(bankroll));
    ByFractionIsByEdge(Smallest(cfg, Basis(bankroll)), Largest(cfg, Basis(bankroll)),
                       FullKelly(stats.winRate, stats.avgEntry), cfg.kellyFraction);
  }

  lemma ByFractionIsByEdge(lo: real, hi: real, k: real, f: real)
    requires OnGrid(lo, Two) && lo <= hi
    ensures ByFraction(lo, hi, k, f) == if f <= 0.0 then lo else ByEdge(lo, hi, k)
  {
    FractionSign(k, f);
    if k * f > 0.0 {
      CancelFactor(k, f);
      assert ByFraction(lo, hi, k, f) == Ramp(lo, hi, Min(k / KELLY_CAP, 1.0));
      if k < 0.0 {
        RampFoot(lo, hi, Min(k / KELLY_CAP, 1.0));
      }
    }
  }

  lemma FractionSign(k: real, f: real)
    ensures k * f > 0.0 <==> (k > 0.0 && f > 0.0) || (k < 0.0 && f < 0.0)
  {
  }

  lemma CancelFactor(k: real, f: real)
    requires f != 0.0
    ensures (k * f) / (KELLY_CAP * f) == k / KELLY_CAP
  {
  }

  /** A ratio of at most 0 falls on or below the foot of the band. */
  lemma RampFoot(lo: real, hi: real, r: real)
    requires r <= 0.0 && lo <= hi && OnGrid(lo, Two)
    ensures Ramp(lo, hi, r) == lo
  {
  }

  lemma RiseMonotone(band: real, r1: real, r2: real)
    requires band >= 0.0 && r1 <= r2
    ensures Rise(band, r1) <= Rise(band, r2) && Rise(band, 0.0) == 0.0
  {
  }

  lemma RampMonotone(lo: real, hi: real, r1: real, r2: real)
    requires OnGrid(lo, Two) && OnGrid(hi, Two) && lo <= hi && r1 <= r2
    ensures lo <= Ramp(lo, hi, r1) <= Ramp(lo, hi, r2)
  {
    var x1, x2 := lo + Rise(hi - lo, r1), lo + Rise(hi - lo, r2);
    RiseMonotone(hi - lo, r1, r2);
    ClampInBand(lo, hi, x1);
    RoundMonotone(Clamp(lo, hi, x1), Clamp(lo, hi, x2), Two);
  }

  lemma ByEdgeMonotone(lo: real, hi: real, k1: real, k2: real)
    requires OnGrid(lo, Two) && OnGrid(hi, Two) && lo <= hi && k1 <= k2
    ensures lo <= ByEdge(lo, hi, k1) <= ByEdge(lo, hi, k2)
  {
    QuotientOrder(k1, k2, KELLY_CAP);
    RampMonotone(lo, hi, Min(k1 / KELLY_CAP, 1.0), Min(k2 / KELLY_CAP, 1.0));
    ClampInBand(lo, hi, lo + Rise(hi - lo, Min(k2 / KELLY_CAP, 1.0)));
  }

  lemma FullKellyMonotone(w1: real, w2: real, e1: real, e2: real)
    requires w1 <= w2 <= 1.0 && 0.0 <= e2 <= e1 < 1.0
    ensures FullKelly(w1, e1) <= FullKelly(w2, e2)
  {
    var q1, q2 := e1 / (1.0 - e1), e2 / (1.0 - e2);
    OddsMonotone(e1, e2);
    assert (1.0 - w1) * q1 >= (1.0 - w1) * q2;
    assert (1.0 - w1) * q2 >= (1.0 - w2) * q2;
  }

  lemma OddsMonotone(e1: real, e2: real)
    requires 0.0 <= e2 <= e1 < 1.0
    ensures 0.0 <= e2 / (1.0 - e2) <= e1 / (1.0 - e1)
  {
    var q1, q2 := e1 / (1.0 - e1), e2 / (1.0 - e2);
    assert q1 * (1.0 - e1) == e1 && q2 * (1.0 - e2) == e2;
    QuotientOrder(0.0, e2, 1.0 - e2);
    assert q2 >= 0.0;
    var c, gap := 1.0 - e1, q1 - q2;
    assert q2 * c <= q2 * (1.0 - e2);
    assert gap * c == q1 * c - q2 * c;
    ProductSign(gap, c);
  }

  /**
   A better record never shrinks the bet and a dearer one never grows it; and beating the
   smallest bet takes a win rate above the average entry price.
   */
  lemma SizeFollowsEdge(cfg: Config, s1: Stats, s2: Stats, bankroll: real)
    requires s1.resolved >= cfg.minSample && s2.resolved >= cfg.minSample
    requires s1.winRate <= s2.winRate <= 1.0 && 0.0 <= s2.avgEntry <= s1.avgEntry
    ensures KellySize(cfg, s1, bankroll) <= KellySize(cfg, s2, bankroll)
    ensures KellySize(cfg, s2, bankroll) > Smallest(cfg, Basis(bankroll)) ==> s2.winRate > s2.avgEntry
  {
    SizeInBand(cfg, s2, bankroll);
    if s2.avgEntry < 1.0 {
      var lo, hi := Smallest(cfg, Basis(bankroll)), Largest(cfg, Basis(bankroll));
      BoundsOnGrid(cfg, Basis(bankroll));
      var k2 := FullKelly(s2.winRate, s2.avgEntry);
      FractionCancels(cfg, s2, bankroll);
      FullKellyIsEdge(s2.winRate, s2.avgEntry);
      QuotientOrder(s2.winRate - s2.avgEntry, 0.0, 1.0 - s2.avgEntry);
      if s1.avgEntry < 1.0 {
        FractionCancels(cfg, s1, bankroll);
        FullKellyMonotone(s1.winRate, s2.winRate, s1.avgEntry, s2.avgEntry);
        ByEdgeMonotone(lo, hi, FullKelly(s1.winRate, s1.avgEntry), k2);
      }
    }
  }

  // ---- the size, told by the table and the percentages ----

  /** Turning a recorded loss into a win never shrinks the bet. */
  lemma MoreWinsNeverShrink(cfg: Config, db: Ledger.Db, p: Ledger.Pair, i: nat, bankroll: real)
    requires i < |db.trades| && db.trades[i].outcome == Some(Ledger.Loss)
    requires forall t | t in db.trades :: 0.0 < t.entry < 1.0
    requires RollingStats(db, p, cfg.rollingWindow).resolved >= cfg.minSample
    ensures var better := db.(trades := db.trades[i := db.trades[i].(outcome := Some(Ledger.Win))]);
      KellySize(cfg, RollingStats(db, p, cfg.rollingWindow), bankroll)
      <= KellySize(cfg, RollingStats(better, p, cfg.rollingWindow), bankroll)
  {
    var n := cfg.rollingWindow;
    var better := db.(trades := db.trades[i := db.trades[i].(outcome := Some(Ledger.Win))]);
    BetterStats(db, better, p, n, i);
    RollingStatsInRange(db, p, n);
    RollingStatsInRange(better, p, n);
    SizeFollowsEdge(cfg, RollingStats(db, p, n), RollingStats(better, p, n), bankroll);
  }

  lemma BetterStats(db: Ledger.Db, better: Ledger.Db, p: Ledger.Pair, n: nat, i: nat)
    requires i < |db.trades| && db.trades[i].outcome == Some(Ledger.Loss)
    requires better.trades == db.trades[i := db.trades[i].(outcome := Some(Ledger.Win))]
    ensures var a, b := RollingStats(db, p, n), RollingStats(better, p, n);
      a.resolved == b.resolved && a.winRate <= b.winRate && a.avgEntry == b.avgEntry
  {
    var a, b := RollingStats(db, p, n), RollingStats(better, p, n);
    var at := StatsTold(db, p, n);
    var at' := StatsTold(better, p, n);
    Streaks.NewestSameResolved(db.trades, better.trades, p, n, at);
    Streaks.NewestUnique(better.trades, p, n, at, at');
    Streaks.MembersCount(at);
    var won, won' := WonAt(db.trades, at), WonAt(better.trades, at);
    assert won <= won' by {
      assert forall j | j in won :: j in at && j != i;
    }
    SmallerSet(won, won', Streaks.Members(at));
    assert EntriesAt(db.trades, at) == EntriesAt(better.trades, at);
    if |at| > 0 {
      SameFactor(a.winRate, b.winRate, |at|);
      SameFactor(a.avgEntry, b.avgEntry, |at|);
    }
  }

  lemma SmallerSet(a: set<nat>, b: set<nat>, all: set<nat>)
    requires a <= b <= all
    ensures |a| <= |b|
  {
    Streaks.SubsetCount(a, b);
  }

  lemma SameFactor(x: real, y: real, n: nat)
    requires n > 0
    ensures Times(x, n) <= Times(y, n) ==> x <= y
    ensures Times(x, n) == Times(y, n) ==> x == y
  {
    var k := n as real;
    TimesDifference(x, y, n);
    ProductSign(x - y, k);
  }

  lemma TimesDifference(x: real, y: real, n: nat)
    ensures (x - y) * n as real == Times(x, n) - Times(y, n)
  {
  }

  predicate KeptWithin(x: real, lo: real, hi: real, size: real) {
    size == if x < lo then lo else if x > hi then hi else x
  }

  /** Until there are enough resolved trades the size is the default share, kept within the band. */
  lemma WarmupSize(cfg: Config, stats: Stats, bankroll: real)
    requires stats.resolved < cfg.minSample
    ensures KeptWithin(Share(Basis(bankroll), cfg.defaultPct), Smallest(cfg, Basis(bankroll)),
                       Largest(cfg, Basis(bankroll)), KellySize(cfg, stats, bankroll))
  {
    var b := Basis(bankroll);
    BoundsOnGrid(cfg, b);
    ShareOnGrid(b, cfg.defaultPct);
    WarmupIn(cfg, stats, Smallest(cfg, b), Largest(cfg, b), Share(b, cfg.defaultPct));
  }

  lemma WarmupIn(cfg: Config, stats: Stats, lo: real, hi: real, x: real)
    requires stats.resolved < cfg.minSample && lo <= hi && OnGrid(lo, Two) && OnGrid(hi, Two) && OnGrid(x, Two)
    ensures KeptWithin(x, lo, hi, SizeIn(cfg, stats, lo, hi, x))
  {
    var y := if x < lo then lo else if x > hi then hi else x;
    assert Clamp(lo, hi, x) == y;
    RoundFixesGrid(y, Two);
    assert Cents(y) == y;
  }

  /** To the cent x, unless that is below the floor. */
  predicate NearOrFloor(end: real, x: real, floor: real) {
    (x >= floor ==> -0.005 <= end - x <= 0.005) && (x <= floor ==> end == floor)
  }

  /** The lower end of the band is its share of the bankroll, but at least a dime. */
  lemma SmallestTold(cfg: Config, b: real)
    ensures NearOrFloor(Smallest(cfg, b), b * cfg.minPct, 0.10)
  {
    DimeOnGrid();
    EndTold(b, cfg.minPct, 0.10);
  }

  /** The upper end is its share, but at least the lower end. */
  lemma LargestTold(cfg: Config, b: real)
    ensures NearOrFloor(Largest(cfg, b), b * cfg.maxPct, Smallest(cfg, b))
  {
    BoundsOnGrid(cfg, b);
    LargestFrom(cfg, b, Smallest(cfg, b));
  }

  lemma LargestFrom(cfg: Config, b: real, lo: real)
    requires OnGrid(lo, Two) && lo == Smallest(cfg, b)
    ensures NearOrFloor(Largest(cfg, b), b * cfg.maxPct, lo)
  {
    EndTold(b, cfg.maxPct, lo);
  }

  lemma EndTold(b: real, pct: real, floor: real)
    requires OnGrid(floor, Two)
    ensures NearOrFloor(Max(Share(b, pct), floor), b * pct, floor)
  {
    AtLeast(b * pct, floor);
  }

  /** Rounding to the cent and then raising to a floor in whole cents. */
  lemma AtLeast(x: real, floor: real)
    requires OnGrid(floor, Two)
    ensures NearOrFloor(Max(Cents(x), floor), x, floor)
  {
    RoundNear(x, Two);
    RoundFixesGrid(floor, Two);
    if x >= floor {
      RoundMonotone(floor, x, Two);
    }
    if x <= floor {
      RoundMonotone(x, floor, Two);
    }
  }

  /** This part of the way from one end to the other. */
  function PartWay(lo: real, hi: real, part: real): real {
    lo + (hi - lo) * part
  }

  /** Between no edge and the cap of a tenth the size lies, to the cent, that part of the way up the band. */
  lemma SizeIsProportional(cfg: Config, stats: Stats, bankroll: real, edge: real)
    requires stats.resolved >= cfg.minSample && stats.avgEntry < 1.0 && cfg.kellyFraction > 0.0
    requires edge * (1.0 - stats.avgEntry) == stats.winRate - stats.avgEntry
    ensures var lo, hi := Smallest(cfg, Basis(bankroll)), Largest(cfg, Basis(bankroll));
      var size := KellySize(cfg, stats, bankroll);
      && (edge <= 0.0 ==> size == lo)
      && (edge >= 0.10 ==> size == hi)
      && (0.0 <= edge <= 0.10 ==> -0.005 <= size - PartWay(lo, hi, edge * 10.0) <= 0.005)
  {
    EdgeIsKelly(stats.winRate, stats.avgEntry, edge);
    FractionCancels(cfg, stats, bankroll);
    BoundsOnGrid(cfg, Basis(bankroll));
    EdgePlaces(Smallest(cfg, Basis(bankroll)), Largest(cfg, Basis(bankroll)), edge);
  }

  lemma EdgeIsKelly(winRate: real, entry: real, edge: real)
    requires entry < 1.0 && edge * (1.0 - entry) == winRate - entry
    ensures FullKelly(winRate, entry) == edge
  {
    FullKellyIsEdge(winRate, entry);
    QuotientIs(winRate - entry, 1.0 - entry, edge);
  }

  lemma EdgePlaces(lo: real, hi: real, edge: real)
    requires OnGrid(lo, Two) && OnGrid(hi, Two) && lo <= hi
    ensures edge <= 0.0 ==> ByEdge(lo, hi, edge) == lo
    ensures edge >= 0.10 ==> ByEdge(lo, hi, edge) == hi
    ensures 0.0 <= edge <= 0.10 ==> -0.005 <= ByEdge(lo, hi, edge) - PartWay(lo, hi, edge * 10.0) <= 0.005
  {
    if edge > 0.0 {
      var ratio := Min(edge / KELLY_CAP, 1.0);
      assert edge / KELLY_CAP == edge * 10.0;
      RiseWithin(lo, hi, ratio);
      RoundNear(lo + Rise(hi - lo, ratio), Two);
      RoundFixesGrid(hi, Two);
      if edge >= 0.10 {
        assert Rise(hi - lo, 1.0) == hi - lo;
      }
    }
  }

  lemma RiseWithin(lo: real, hi: real, ratio: real)
    requires lo <= hi && 0.0 <= ratio <= 1.0
    ensures lo <= lo + Rise(hi - lo, ratio) <= hi
  {
    RiseMonotone(hi - lo, 0.0, ratio);
    RiseMonotone(hi - lo, ratio, 1.0);
  }

  // ---- affordability ----

  /** The share of a dollar, or more, that cent rounding can never push past the bankroll. */
  const FULL_SHARE: real := 201.0 / 202.0

  predicate Affordable(cfg: Config) {
    cfg.minPct <= FULL_SHARE && cfg.maxPct <= FULL_SHARE
  }

  /** With a bankroll of at least a dollar, the size never exceeds it. */
  lemma SizeWithinBankroll(cfg: Config, stats: Stats, bankroll: real)
    requires Affordable(cfg) && bankroll >= 1.0
    ensures 0.10 <= KellySize(cfg, stats, bankroll) <= bankroll
  {
    SizeInBand(cfg, stats, bankroll);
    BoundsOnGrid(cfg, bankroll);
    CentsAfford(cfg.minPct, bankroll);
    CentsAfford(cfg.maxPct, bankroll);
  }

  /** Nearest whole number of cents: not past 100, or close enough below. */
  lemma CentsAfford(pct: real, bankroll: real)
    requires pct <= FULL_SHARE && bankroll >= 1.0
    ensures Share(bankroll, pct) <= bankroll
  {
    var x := bankroll * pct * 100.0;
    var n := RoundInt(x);
    assert n as real <= x + 0.5;
    ProductSign(FULL_SHARE - pct + 1.0, bankroll);
    assert x <= bankroll * 100.0 * FULL_SHARE;
    assert n as real <= bankroll * 100.0;
  }

  /** The bound on a percentage is the exact one: anything above it costs some bankroll more than it has. */
  lemma CentsAffordExactlyWhen(pct: real)
    ensures (forall b | b >= 1.0 :: Share(b, pct) <= b) <==> pct <= FULL_SHARE
  {
    if pct <= FULL_SHARE {
      forall b | b >= 1.0 ensures Share(b, pct) <= b {
        CentsAfford(pct, b);
      }
    } else {
      if pct > 1.005 {
        RoundsUp(pct, 1.0);
      } else {
        var b := JustBelow(pct, 1.005 / pct);
        RoundsUp(pct, b);
      }
    }
  }

  lemma JustBelow(pct: real, q: real) returns (b: real)
    requires FULL_SHARE < pct <= 1.005 && q * pct == 1.005
    ensures 1.0 <= b < 1.01 && b * pct > 1.005
  {
    b := (q + 1.01) / 2.0;
    var gap := 1.01 - q;
    assert 1.01 * pct > 1.005;
    assert gap * pct == 1.01 * pct - 1.005;
    ProductSign(gap, pct);
    assert b * pct == 1.005 + gap * pct / 2.0;
    ProductSign(1.0 - q, pct);
    assert (1.0 - q) * pct == pct - 1.005;
  }

  lemma RoundsUp(pct: real, b: real)
    requires 1.0 <= b < 1.01 && b * pct > 1.005
    ensures Share(b, pct) > b
  {
    assert RoundInt(b * pct * 100.0) >= 101;
  }
}
