/** Runs in which two bots of one asset pass the checks before either has its order in the table. */
module Overlaps {
  import opened Common
  import opened Ledger
  import opened Positions
  import opened Protocol
  import Risk

  /** What the outside world offers a bot for one order. */
  datatype Offer = Offer(signal: Signal, elapsed: real, market: string, ask: real, regime: Regime)

  function OrderOn(cfg: Config, s: Sys, p: Pair, o: Offer): Option<Trade>
    requires p in cfg.bots
  {
    PriceOrder(cfg, s.db, p, o.signal, Current(s.db, p), Some(o.market), o.ask, o.regime, s.clock)
  }

  /** On its own the bot would place this order now. */
  ghost predicate Permitted(cfg: Config, s: Sys, p: Pair, o: Offer) {
    && p in cfg.bots && StageOf(s, p).Idle? && !o.signal.Skip? && Current(s.db, p) >= 1.0
    && OrdersNow(s, p) < cfg.bots[p].maxOrders && o.elapsed <= cfg.bots[p].maxElapsed
    && Risk.AllOk(cfg.risk, s.cooldown, s.db, p, s.clock)
    && OrderOn(cfg, s, p, o).Some?
  }

  /** Everything up to the order, for one bot. */
  function Prep(p: Pair, o: Offer): seq<Action> {
    [Begin(p, o.signal, true), Space(p, o.elapsed), CheckDrawdown(p), CheckCorrelation(p), CheckBreaker(p),
     Price(p, Some(o.market), o.ask, o.regime)]
  }

  function Staged(s: Sys, p: Pair, st: Stage): Sys {
    s.(stages := s.stages[p := st])
  }

  /** A stage that only moves the bot on. */
  lemma StageStep(cfg: Config, s: Sys, st: Stage, a: Action, next: Stage)
    requires ByBot(a) && a.p in cfg.bots && !a.Book? && !a.Charge? && !a.Count? && !a.CheckBreaker?
    requires StageAfter(cfg, Staged(s, a.p, st), a.p, a) == next
    ensures Step(cfg, Staged(s, a.p, st), a) == Staged(s, a.p, next)
  {
    assert s.stages[a.p := st][a.p := next] == s.stages[a.p := next];
  }

  /** The breaker forgets a cooldown that is over. */
  function Cooled(s: Sys, p: Pair): Sys {
    s.(cooldown := s.cooldown - {p})
  }

  lemma BreakerPasses(cfg: Config, s: Sys, p: Pair, signal: Signal, budget: real)
    requires p in cfg.bots && Risk.BreakerOk(cfg.risk, s.cooldown, s.db, p, s.clock)
    ensures Step(cfg, Staged(s, p, Balanced(signal, budget)), CheckBreaker(p))
         == Staged(Cooled(s, p), p, Cleared(signal, budget))
  {
    var next := Cleared(signal, budget);
    assert s.stages[p := Balanced(signal, budget)][p := next] == s.stages[p := next];
  }

  /** A permitted bot gets ready, and the tables are as they were. */
  lemma PrepRun(cfg: Config, s: Sys, p: Pair, o: Offer)
    requires Permitted(cfg, s, p, o) && p in s.stages
    ensures Run(cfg, s, Prep(p, o)) == Staged(Cooled(s, p), p, Ready(Current(s.db, p), OrderOn(cfg, s, p, o).value))
  {
    var b, g := Current(s.db, p), o.signal;
    var steps := Prep(p, o);
    assert Staged(s, p, Idle) == s by { assert s.stages[p := Idle] == s.stages; }
    StageStep(cfg, s, Idle, steps[0], Funded(g, b));
    StageStep(cfg, s, Funded(g, b), steps[1], Spaced(g, b));
    StageStep(cfg, s, Spaced(g, b), steps[2], Sound(g, b));
    StageStep(cfg, s, Sound(g, b), steps[3], Balanced(g, b));
    BreakerPasses(cfg, s, p, g, b);
    StageStep(cfg, Cooled(s, p), Cleared(g, b), steps[5], Ready(b, OrderOn(cfg, s, p, o).value));
    SixSteps(cfg, s, steps);
  }

  lemma SixSteps(cfg: Config, s: Sys, a: seq<Action>)
    requires |a| == 6
    ensures Run(cfg, s, a)
         == Step(cfg, Step(cfg, Step(cfg, Step(cfg, Step(cfg, Step(cfg, s, a[0]), a[1]), a[2]), a[3]), a[4]), a[5])
  {
    var s2 := Step(cfg, Step(cfg, s, a[0]), a[1]);
    var s4 := Step(cfg, Step(cfg, s2, a[2]), a[3]);
    assert a == [a[0], a[1]] + ([a[2], a[3]] + [a[4], a[5]]);
    RunConcat(cfg, s, [a[0], a[1]], [a[2], a[3]] + [a[4], a[5]]);
    RunConcat(cfg, s2, [a[2], a[3]], [a[4], a[5]]);
    RunTwo(cfg, s, a[0], a[1]);
    RunTwo(cfg, s2, a[2], a[3]);
    RunTwo(cfg, s4, a[4], a[5]);
  }

  // ---- the overlap ----

  /** Both get ready, then both insert. */
  function Overlapped(p: Pair, op: Offer, q: Pair, oq: Offer): seq<Action> {
    Prep(p, op) + Prep(q, oq) + [Book(p), Book(q)]
  }

  function BothReady(cfg: Config, s: Sys, p: Pair, op: Offer, q: Pair, oq: Offer): Sys
    requires p in cfg.bots && q in cfg.bots && OrderOn(cfg, s, p, op).Some? && OrderOn(cfg, s, q, oq).Some?
  {
    Staged(Cooled(Staged(Cooled(s, p), p, Ready(Current(s.db, p), OrderOn(cfg, s, p, op).value)), q),
           q, Ready(Current(s.db, q), OrderOn(cfg, s, q, oq).value))
  }

  /** One bot getting ready takes nothing from the other's permission. */
  lemma StillPermitted(cfg: Config, s: Sys, p: Pair, q: Pair, oq: Offer, st: Stage)
    requires Permitted(cfg, s, q, oq) && p != q
    ensures var s' := Staged(Cooled(s, p), p, st);
      Permitted(cfg, s', q, oq) && OrderOn(cfg, s', q, oq) == OrderOn(cfg, s, q, oq)
  {
  }

  lemma BothReadyRun(cfg: Config, s: Sys, p: Pair, op: Offer, q: Pair, oq: Offer)
    requires p != q && Permitted(cfg, s, p, op) && Permitted(cfg, s, q, oq) && p in s.stages && q in s.stages
    ensures Run(cfg, s, Prep(p, op) + Prep(q, oq)) == BothReady(cfg, s, p, op, q, oq)
  {
    var first := Staged(Cooled(s, p), p, Ready(Current(s.db, p), OrderOn(cfg, s, p, op).value));
    PrepRun(cfg, s, p, op);
    StillPermitted(cfg, s, p, q, oq, Ready(Current(s.db, p), OrderOn(cfg, s, p, op).value));
    PrepRun(cfg, first, q, oq);
    RunConcat(cfg, s, Prep(p, op), Prep(q, oq));
  }

  /** Two permitted bots of one asset that overlap both get their order in. */
  lemma OverlapAddsTwo(cfg: Config, s: Sys, p: Pair, op: Offer, q: Pair, oq: Offer)
    requires Proper(cfg) && Tidy(cfg, s) && Solvent(cfg, s) && p != q && p.asset == q.asset
    requires Permitted(cfg, s, p, op) && Permitted(cfg, s, q, oq) && p in s.stages && q in s.stages
    ensures OpenOn(Run(cfg, s, Overlapped(p, op, q, oq)).db.trades, p.asset) == OpenOn(s.db.trades, p.asset) + 2
  {
    var ready := BothReady(cfg, s, p, op, q, oq);
    BothReadyRun(cfg, s, p, op, q, oq);
    TidyRun(cfg, s, Prep(p, op) + Prep(q, oq));
    SolventRun(cfg, s, Prep(p, op) + Prep(q, oq));
    RunConcat(cfg, s, Prep(p, op) + Prep(q, oq), [Book(p), Book(q)]);
    RunTwo(cfg, ready, Book(p), Book(q));
    BookBoth(cfg, ready, p, q);
  }

  lemma BookBoth(cfg: Config, s: Sys, p: Pair, q: Pair)
    requires Proper(cfg) && Tidy(cfg, s) && Solvent(cfg, s) && p != q && p.asset == q.asset
    requires StageOf(s, p).Ready? && StageOf(s, q).Ready?
    ensures OpenOn(Step(cfg, Step(cfg, s, Book(p)), Book(q)).db.trades, p.asset) == OpenOn(s.db.trades, p.asset) + 2
  {
    BookAdds(cfg, s, p);
    TidyStep(cfg, s, Book(p));
    SolventStep(cfg, s, Book(p));
    StepFacts(cfg, s, Book(p), q);
    BookAdds(cfg, Step(cfg, s, Book(p)), q);
  }

  /** With two trades open, each of two bots being permitted by itself, the overlap reaches four. */
  lemma OverlapReachesFour(cfg: Config, s: Sys, p: Pair, op: Offer, q: Pair, oq: Offer)
    requires Proper(cfg) && Tidy(cfg, s) && Solvent(cfg, s) && p != q && p.asset == q.asset
    requires Permitted(cfg, s, p, op) && Permitted(cfg, s, q, oq) && p in s.stages && q in s.stages
    requires OpenOn(s.db.trades, p.asset) == 2
    ensures OpenOn(Run(cfg, s, Overlapped(p, op, q, oq)).db.trades, p.asset) == 4
  {
    OverlapAddsTwo(cfg, s, p, op, q, oq);
  }
}
