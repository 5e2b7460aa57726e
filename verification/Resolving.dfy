/** One pass of the resolver loop, settlement and dead letters, as a run of the protocol. */
module Resolving {
  import opened Common
  import opened Ledger
  import opened Protocol
  import opened Settlement
  import opened Store
  import Guarantees

  function SettleSteps(trades: seq<Trade>, done: seq<nat>, answers: Answers): (r: seq<Action>)
    requires forall k | 0 <= k < |done| :: done[k] < |trades|
    ensures |r| == |done|
    ensures forall k | 0 <= k < |r| :: r[k] == SettleNext(Verdict(trades[done[k]], answers))
  {
    seq(|done|, k requires 0 <= k < |done| => SettleNext(Verdict(trades[done[k]], answers)))
  }

  function VoidSteps(n: nat): (r: seq<Action>)
    ensures |r| == n && forall k | 0 <= k < n :: r[k] == VoidNext
  {
    seq(n, _ => VoidNext)
  }

  lemma PollStep(cfg: Config, s: Sys, done: seq<nat>, answers: Answers)
    requires s.work.Resting? && Decided(s.db.trades, done, answers)
    ensures Step(cfg, s, Poll(done)) == s.(work := Settling(done))
  {
  }

  lemma SettleStep(cfg: Config, s: Sys, id: nat, rest: seq<nat>, t: Trade, answers: Answers)
    requires s.work == Settling([id] + rest) && id < |s.db.trades| && s.db.trades[id] == t
    requires Verdict(t, answers).Some?
    ensures Step(cfg, s, SettleNext(Verdict(t, answers)))
         == s.(db := SettleOne(s.db, id, answers, cfg.feePct), work := Settling(rest))
  {
    assert ([id] + rest)[1..] == rest;
  }

  /** Where the loop stands after k settlements. */
  function Midway(cfg: Config, s: Sys, done: seq<nat>, answers: Answers, k: nat): Sys
    requires k <= |done|
  {
    s.(db := SettleList(s.db, done[..k], answers, cfg.feePct), work := Settling(done[k..]))
  }

  lemma MidwayNext(cfg: Config, s: Sys, done: seq<nat>, answers: Answers, k: nat)
    requires Decided(s.db.trades, done, answers) && k < |done|
    ensures Step(cfg, Midway(cfg, s, done, answers, k), SettleNext(Verdict(s.db.trades[done[k]], answers)))
         == Midway(cfg, s, done, answers, k + 1)
  {
    RowStillOpen(s.db, done, answers, cfg.feePct, k);
    assert done[k..] == [done[k]] + done[k + 1..];
    SettleStep(cfg, Midway(cfg, s, done, answers, k), done[k], done[k + 1..], s.db.trades[done[k]], answers);
    assert done[..k + 1][..k] == done[..k];
  }

  lemma {:induction false} SettleRun(cfg: Config, s: Sys, done: seq<nat>, answers: Answers, k: nat)
    requires s.work == Settling(done) && Decided(s.db.trades, done, answers) && k <= |done|
    ensures Run(cfg, s, SettleSteps(s.db.trades, done, answers)[..k]) == Midway(cfg, s, done, answers, k)
  {
    if k > 0 {
      SettleRun(cfg, s, done, answers, k - 1);
      RunNext(cfg, s, SettleSteps(s.db.trades, done, answers), k - 1, Midway(cfg, s, done, answers, k - 1));
      MidwayNext(cfg, s, done, answers, k - 1);
    }
  }

  /** The row to be settled next reads as it did when the loop started. */
  lemma RowStillOpen(db: Db, done: seq<nat>, answers: Answers, feePct: real, k: nat)
    requires Decided(db.trades, done, answers) && k < |done|
    ensures var mid := SettleList(db, done[..k], answers, feePct);
      done[k] < |mid.trades| && mid.trades[done[k]] == db.trades[done[k]] && Verdict(db.trades[done[k]], answers).Some?
  {
    SettleListRows(db, done[..k], answers, feePct);
    assert done[k] in done && done[k] !in done[..k];
  }

  lemma VoidStep(cfg: Config, s: Sys, id: nat, rest: seq<nat>)
    requires s.work == Voiding([id] + rest)
    ensures Step(cfg, s, VoidNext) == s.(db := Ledger.MoveToDeadLetter(s.db, id), work := Voiding(rest))
  {
    assert ([id] + rest)[1..] == rest;
  }

  lemma {:induction false} VoidRun(cfg: Config, s: Sys, stale: seq<nat>, k: nat)
    requires s.work == Voiding(stale) && k <= |stale|
    ensures Run(cfg, s, VoidSteps(k)) == s.(db := VoidList(s.db, stale[..k]), work := Voiding(stale[k..]))
  {
    if k > 0 {
      VoidRun(cfg, s, stale, k - 1);
      var mid := s.(db := VoidList(s.db, stale[..k - 1]), work := Voiding(stale[k - 1..]));
      assert stale[k - 1..] == [stale[k - 1]] + stale[k..];
      VoidStep(cfg, mid, stale[k - 1], stale[k..]);
      assert VoidSteps(k)[..k - 1] == VoidSteps(k - 1) && VoidSteps(k)[..k] == VoidSteps(k);
      RunNext(cfg, s, VoidSteps(k), k - 1, mid);
      assert stale[..k][..k - 1] == stale[..k - 1];
    }
  }

  // ---- the whole pass ----

  /** Poll, settle the decided trades, let time pass, sweep, void the stale ones, rest. */
  function SettlePart(trades: seq<Trade>, done: seq<nat>, answers: Answers): seq<Action>
    requires forall k | 0 <= k < |done| :: done[k] < |trades|
  {
    [Poll(done)] + SettleSteps(trades, done, answers)
  }

  function VoidPart(elapsed: real, n: nat): seq<Action> {
    [Tick(elapsed), Sweep] + VoidSteps(n) + [Rest]
  }

  lemma SettlePartRun(cfg: Config, s: Sys, done: seq<nat>, answers: Answers)
    requires s.work.Resting? && Decided(s.db.trades, done, answers)
    ensures Run(cfg, s, SettlePart(s.db.trades, done, answers))
         == s.(db := SettleList(s.db, done, answers, cfg.feePct), work := Settling([]))
  {
    var steps := SettleSteps(s.db.trades, done, answers);
    RunConcat(cfg, s, [Poll(done)], steps);
    RunOne(cfg, s, Poll(done));
    PollStep(cfg, s, done, answers);
    SettleRun(cfg, s.(work := Settling(done)), done, answers, |done|);
    assert steps[..|done|] == steps && done[..|done|] == done && done[|done|..] == [];
  }

  lemma VoidPartRun(cfg: Config, s: Sys, elapsed: real, stale: seq<nat>)
    requires s.work == Settling([]) && elapsed >= 0.0
    requires stale == StaleIds(s.db.trades, s.clock + elapsed - DEAD_LETTER_AFTER_HOURS * 3600.0)
    ensures Run(cfg, s, VoidPart(elapsed, |stale|))
         == s.(db := VoidList(s.db, stale), clock := s.clock + elapsed, work := Resting)
  {
    var swept := s.(clock := s.clock + elapsed, work := Voiding(stale));
    SweepRun(cfg, s, elapsed, stale);
    VoidRun(cfg, swept, stale, |stale|);
    assert stale[..|stale|] == stale && stale[|stale|..] == [];
    RunConcat(cfg, s, [Tick(elapsed), Sweep], VoidSteps(|stale|));
    RunConcat(cfg, s, [Tick(elapsed), Sweep] + VoidSteps(|stale|), [Rest]);
    RunOne(cfg, swept.(db := VoidList(s.db, stale), work := Voiding([])), Rest);
    RestStep(cfg, swept.(db := VoidList(s.db, stale), work := Voiding([])));
  }

  lemma RestStep(cfg: Config, s: Sys)
    requires s.work == Voiding([])
    ensures Step(cfg, s, Rest) == s.(work := Resting)
  {
  }

  lemma SweepRun(cfg: Config, s: Sys, elapsed: real, stale: seq<nat>)
    requires s.work == Settling([]) && elapsed >= 0.0
    requires stale == StaleIds(s.db.trades, s.clock + elapsed - DEAD_LETTER_AFTER_HOURS * 3600.0)
    ensures Run(cfg, s, [Tick(elapsed), Sweep]) == s.(clock := s.clock + elapsed, work := Voiding(stale))
  {
    var later := s.(clock := s.clock + elapsed);
    RunTwo(cfg, s, Tick(elapsed), Sweep);
    TickStep(cfg, s, elapsed);
    SweepStep(cfg, later, stale);
  }

  lemma SweepStep(cfg: Config, s: Sys, stale: seq<nat>)
    requires s.work == Settling([])
    requires stale == StaleIds(s.db.trades, s.clock - DEAD_LETTER_AFTER_HOURS * 3600.0)
    ensures Step(cfg, s, Sweep) == s.(work := Voiding(stale))
  {
  }

  /** The pass as one script. */
  function Pass(trades: seq<Trade>, done: seq<nat>, answers: Answers, elapsed: real, n: nat): seq<Action>
    requires forall k | 0 <= k < |done| :: done[k] < |trades|
  {
    SettlePart(trades, done, answers) + VoidPart(elapsed, n)
  }

  lemma JoinRuns(cfg: Config, s: Sys, a: seq<Action>, b: seq<Action>, mid: Sys, end: Sys)
    requires Run(cfg, s, a) == mid && Run(cfg, mid, b) == end
    ensures Run(cfg, s, a + b) == end
  {
    RunConcat(cfg, s, a, b);
  }

  lemma PassRun(cfg: Config, s: Sys, done: seq<nat>, answers: Answers, elapsed: real, stale: seq<nat>)
    requires s.work.Resting? && Decided(s.db.trades, done, answers) && elapsed >= 0.0
    requires var settled := SettleList(s.db, done, answers, cfg.feePct);
      stale == StaleIds(settled.trades, s.clock + elapsed - DEAD_LETTER_AFTER_HOURS * 3600.0)
    ensures Run(cfg, s, Pass(s.db.trades, done, answers, elapsed, |stale|))
         == s.(db := VoidList(SettleList(s.db, done, answers, cfg.feePct), stale), clock := s.clock + elapsed)
  {
    var settled := SettleList(s.db, done, answers, cfg.feePct);
    var mid := s.(db := settled, work := Settling([]));
    var end := s.(db := VoidList(settled, stale), clock := s.clock + elapsed);
    SettlePartRun(cfg, s, done, answers);
    VoidPartRun(cfg, mid, elapsed, stale);
    assert mid.(db := VoidList(settled, stale), clock := s.clock + elapsed, work := Resting) == end;
    JoinRuns(cfg, s, SettlePart(s.db.trades, done, answers), VoidPart(elapsed, |stale|), mid, end);
  }

  method Settle(r: Resolver, answers: Answers) returns (ghost done: seq<nat>)
    modifies r.db
    ensures Decided(old(r.db.trades), done, answers)
    ensures r.db.View() == SettleList(old(r.db.View()), done, answers, r.feePct)
  {
    done := r.ResolveCycle(answers);
  }

  method VoidStale(r: Resolver, now: real)
    modifies r.db
    ensures r.db.View()
      == VoidList(old(r.db.View()), StaleIds(old(r.db.trades), now - DEAD_LETTER_AFTER_HOURS * 3600.0))
  {
    r.DlqCycle(now);
  }

  /**
   The loop body on the shared tables.  What it leaves is what the protocol's own steps leave, with
   the list the grouping loop really worked through in place of the polled one; so everything
   proved about all runs holds of the loop.  `elapsed` is the time between its two halves.
   */
  method ResolverPass(r: Resolver, answers: Answers, now: real, elapsed: real, ghost cfg: Config, ghost s: Sys)
    returns (ghost done: seq<nat>, ghost voided: nat)
    requires elapsed >= 0.0 && cfg.feePct == r.feePct
    requires s.db == r.db.View() && s.clock == now && s.work.Resting?
    modifies r.db
    ensures Decided(s.db.trades, done, answers)
    ensures Run(cfg, s, Pass(s.db.trades, done, answers, elapsed, voided))
         == s.(db := r.db.View(), clock := now + elapsed)
  {
    done := Settle(r, answers);
    ghost var stale := StaleIds(r.db.trades, now + elapsed - DEAD_LETTER_AFTER_HOURS * 3600.0);
    voided := |stale|;
    PassRun(cfg, s, done, answers, elapsed, stale);
    VoidStale(r, now + elapsed);
  }

  /** So a row that had an outcome when a pass began is not written by it, nor by anything after it. */
  lemma PassSettlesOnce(
    cfg: Config, s: Sys, done: seq<nat>, answers: Answers, elapsed: real, n: nat, later: seq<Action>, i: nat)
    requires Proper(cfg) && Tidy(cfg, s) && s.work.Resting? && Decided(s.db.trades, done, answers)
    requires i < |s.db.trades|
    ensures var after := Run(cfg, s, Pass(s.db.trades, done, answers, elapsed, n));
      var end := Run(cfg, after, later);
      && i < |after.db.trades|
      && (!s.db.trades[i].Open() ==> i < |end.db.trades| && end.db.trades[i] == s.db.trades[i])
      && (i in done ==> i < |end.db.trades| && end.db.trades[i] == SettledRow(s.db.trades[i], answers, cfg.feePct))
  {
    var first, second := SettlePart(s.db.trades, done, answers), VoidPart(elapsed, n);
    var settled := Run(cfg, s, first);
    SettlePartRun(cfg, s, done, answers);
    SettleListRows(s.db, done, answers, cfg.feePct);
    RunConcat(cfg, s, first, second);
    TidyRun(cfg, s, first);
    RowsRemain(cfg, settled, second, i);
    RunConcat(cfg, settled, second, later);
    if !settled.db.trades[i].Open() {
      Guarantees.SettledOnce(cfg, settled, second + later, i);
    }
  }

  lemma {:induction false} RowsRemain(cfg: Config, s: Sys, actions: seq<Action>, i: nat)
    requires Proper(cfg) && Tidy(cfg, s) && i < |s.db.trades|
    ensures i < |Run(cfg, s, actions).db.trades|
    decreases |actions|
  {
    if |actions| > 0 {
      StepFacts(cfg, s, actions[0], Pair("", ""));
      CallsAreGood(cfg, s, actions[0]);
      var call := Call(cfg, s, actions[0]);
      if call.Some? {
        RowsStaySane(cfg, s.db, call.value);
      }
      TidyStep(cfg, s, actions[0]);
      RowsRemain(cfg, Step(cfg, s, actions[0]), actions[1..], i);
    }
  }
}
