/**
 The bots and the resolver interleaved statement by statement.  A storage call of several
 statements is no step here: between any two of its statements every other coroutine may move,
 on the same pair too.  Writes get lost in such overlaps (`Interleaving` says when), so the books need
 not balance; what still holds is that no account falls to minus its gas or rises above its peak, that
 no order is refused, that peaks never fall and that no closed trade is ever rewritten.

 What makes it hold is who writes what: each pair has one bot, only that bot takes money out of
 its account, and only the one resolver pays in or writes a peak.
 */
module Statements {
  import opened Common
  import opened Interleaving
  import opened Ledger
  import P = Protocol
  import Guarantees

  /** The placements under way, one a pair at most, and the call the resolver is in. */
  datatype Machine = Machine(sys: P.Sys, placing: map<Pair, Flight>, resolving: Option<Flight>)

  /** A bot's or the resolver's next action, as far as its first statement; or the next statement of a call. */
  datatype Move = Act(a: P.Action) | PlaceNext(p: Pair) | ResolveNext

  predicate ByResolver(a: P.Action) {
    a.Poll? || a.SettleNext? || a.Sweep? || a.VoidNext? || a.Rest?
  }

  /** The coroutine that would take the action is still in a storage call. */
  predicate Busy(cfg: P.Config, m: Machine, a: P.Action) {
    (P.ByBot(a) && (a.p !in cfg.bots || a.p in m.placing)) || (ByResolver(a) && m.resolving.Some?)
  }

  function Begun(cfg: P.Config, s: P.Sys, a: P.Action): Option<Flight> {
    var call := P.Call(cfg, s, a);
    if call.Some? then First(s.db, call.value).1 else None
  }

  ghost function Advance(cfg: P.Config, m: Machine, move: Move): Machine {
    match move
    case Act(a) =>
      if Busy(cfg, m, a) then m
      else
        var f := Begun(cfg, m.sys, a);
        if f.None? then m.(sys := P.Step(cfg, m.sys, a))
        else if a.Book? then m.(placing := m.placing[a.p := f.value])
        else m.(sys := m.sys.(work := P.WorkAfter(m.sys, a)), resolving := f)
    case PlaceNext(p) =>
      if p !in m.placing then m
      else
        var (db, f) := Next(m.sys.db, m.placing[p]);
        if f.Some? then m.(sys := m.sys.(db := db), placing := m.placing[p := f.value])
        else Machine(m.sys.(db := db, stages := m.sys.stages[p := P.Booked]), m.placing - {p}, m.resolving)
    case ResolveNext =>
      if m.resolving.None? then m
      else
        var (db, f) := Next(m.sys.db, m.resolving.value);
        m.(sys := m.sys.(db := db), resolving := f)
  }

  ghost function Drive(cfg: P.Config, m: Machine, moves: seq<Move>): Machine
    decreases |moves|
  {
    if |moves| == 0 then m else Drive(cfg, Advance(cfg, m, moves[0]), moves[1..])
  }

  // ---- the invariant ----

  /** What a bot's account holds while the bot is at `st`, or inside its placement `f`. */
  predicate Covered(cfg: P.Config, st: P.Stage, f: Option<Flight>, a: Account) {
    && -cfg.gas < a.current <= a.peak
    && match f
      case None => P.Afloat(cfg, st, a)
      case Some(BalanceRead(t, read)) => st.Ready? && t.Cost() < st.budget <= read <= a.current
      case Some(StakeTaken(t)) => a.current > 0.0
      case _ => false
  }

  /** An account read by the resolver and not yet written back: since then only its bot has touched it. */
  predicate UpToDate(read: Option<Account>, a: Account) {
    read.Some? ==> read.value.peak == a.peak && a.current <= read.value.current
  }

  predicate OwnOrder(f: Flight, st: P.Stage, p: Pair) {
    && (f.BalanceRead? || f.StakeTaken?) && st.Ready? && P.OrderSane(f.t, p) && f.t.Cost() < st.budget
    && f.t == st.order.(placedAt := f.t.placedAt)
  }

  predicate Unlisted(work: P.Work, id: nat) {
    work.Resting? || id !in work.ids
  }

  predicate Pays(cfg: P.Config, row: Trade, pnl: real) {
    row.pair in cfg.bots && row.Cost() + pnl >= 0.0
  }

  predicate OpenAt(trades: seq<Trade>, id: nat) {
    id < |trades| && trades[id].Open()
  }

  predicate OwnTrade(cfg: P.Config, trades: seq<Trade>, work: P.Work, f: Flight) {
    match f
    case RowRead(id, o, pnl, row) =>
      Pays(cfg, row, pnl) && OpenAt(trades, id) && Unlisted(work, id) && row == trades[id] && o != Void
    case RowMarked(_, _, pnl, row) => Pays(cfg, row, pnl)
    case AccountRead(_, _, pnl, row, account) => Pays(cfg, row, pnl) && account.Some?
    case DoomedRead(id, _) => OpenAt(trades, id) && Unlisted(work, id)
    case Copied(id, _) => OpenAt(trades, id) && Unlisted(work, id)
    case _ => false
  }

  function PlacementOf(placing: map<Pair, Flight>, p: Pair): Option<Flight> {
    if p in placing then Some(placing[p]) else None
  }

  function ReadOf(resolving: Option<Flight>, p: Pair): Option<Account> {
    if resolving.Some? && resolving.value.AccountRead? && resolving.value.row.pair == p
    then resolving.value.account else None
  }

  ghost predicate Placements(cfg: P.Config, stages: map<Pair, P.Stage>, placing: map<Pair, Flight>) {
    forall p | p in placing :: p in cfg.bots && p in stages && OwnOrder(placing[p], stages[p], p)
  }

  ghost predicate Accounts(cfg: P.Config, m: Machine) {
    forall p | p in m.sys.db.bank ::
      && Covered(cfg, P.StageOf(m.sys, p), PlacementOf(m.placing, p), m.sys.db.bank[p])
      && UpToDate(ReadOf(m.resolving, p), m.sys.db.bank[p])
  }

  ghost predicate Sound(cfg: P.Config, m: Machine) {
    && P.Tidy(cfg, m.sys)
    && Placements(cfg, m.sys.stages, m.placing)
    && (m.resolving.Some? ==> OwnTrade(cfg, m.sys.db.trades, m.sys.work, m.resolving.value))
    && Accounts(cfg, m)
  }

  /** No call on p is under way. */
  ghost predicate Still(m: Machine, p: Pair) {
    p !in m.placing && (m.resolving.Some? ==> m.resolving.value.Target() != p)
  }

  /** From one state of the tables to a later one: peaks have not fallen, closed trades are as they were. */
  ghost predicate Onward(a: Db, b: Db) {
    && a.bank.Keys == b.bank.Keys && |a.trades| <= |b.trades|
    && (forall p | p in a.bank :: a.bank[p].peak <= b.bank[p].peak)
    && (forall i | 0 <= i < |a.trades| && !a.trades[i].Open() :: b.trades[i] == a.trades[i])
  }

  lemma OnwardStill(a: Db)
    ensures Onward(a, a)
  {
  }

  lemma OnwardTwice(a: Db, b: Db, c: Db)
    requires Onward(a, b) && Onward(b, c)
    ensures Onward(a, c)
  {
    forall i | 0 <= i < |a.trades| && !a.trades[i].Open() ensures c.trades[i] == a.trades[i] {
      assert b.trades[i] == a.trades[i];
    }
  }

  // ---- an action taken whole ----

  /** An action that begins no longer call writes at most the fee of its own bot. */
  lemma WholeWrites(cfg: P.Config, s: P.Sys, a: P.Action)
    requires Begun(cfg, s, a).None?
    ensures P.DbAfter(cfg, s, a)
         == if a.Charge? && P.StageOf(s, a.p).Booked? then Deduct(s.db, a.p, cfg.gas) else s.db
  {
  }

  /** A bot that is ready and not placing yet is covered, so its placement is not refused. */
  lemma NotRefused(cfg: P.Config, m: Machine, p: Pair)
    requires Sound(cfg, m) && P.StageOf(m.sys, p).Ready? && p !in m.placing
    ensures Begun(cfg, m.sys, P.Book(p))
         == Some(BalanceRead(P.StageOf(m.sys, p).order.(placedAt := m.sys.clock), m.sys.db.bank[p].current))
  {
    var st := P.StageOf(m.sys, p);
    assert P.StageSane(st, p) && p in m.sys.db.bank;
    assert Covered(cfg, st, None, m.sys.db.bank[p]);
  }

  lemma OwnWholeCovered(cfg: P.Config, m: Machine, p: Pair, a: P.Action)
    requires Sound(cfg, m) && P.Proper(cfg) && p in m.sys.db.bank && P.ByBot(a) && a.p == p && !Busy(cfg, m, a)
    requires Begun(cfg, m.sys, a).None?
    ensures p in P.DbAfter(cfg, m.sys, a).bank
    ensures Covered(cfg, P.StageAfter(cfg, m.sys, p, a), None, P.DbAfter(cfg, m.sys, a).bank[p])
    ensures P.DbAfter(cfg, m.sys, a).bank[p].current <= m.sys.db.bank[p].current
    ensures P.DbAfter(cfg, m.sys, a).bank[p].peak == m.sys.db.bank[p].peak
  {
    var st := P.StageOf(m.sys, p);
    assert Covered(cfg, st, None, m.sys.db.bank[p]);
    WholeWrites(cfg, m.sys, a);
    if a.Book? && st.Ready? {
      NotRefused(cfg, m, p);
      assert false;
    } else if a.Charge? && st.Booked? {
      assert P.StageAfter(cfg, m.sys, p, a) == P.Charged;
    } else {
      P.StageAfloat(cfg, m.sys, p, a);
    }
  }

  lemma WholeAccounts(cfg: P.Config, m: Machine, a: P.Action)
    requires Sound(cfg, m) && P.Proper(cfg) && !Busy(cfg, m, a) && Begun(cfg, m.sys, a).None?
    ensures Accounts(cfg, m.(sys := P.Step(cfg, m.sys, a)))
    ensures Onward(m.sys.db, P.Step(cfg, m.sys, a).db)
  {
    var s' := P.Step(cfg, m.sys, a);
    WholeWrites(cfg, m.sys, a);
    forall p | p in s'.db.bank
      ensures p in m.sys.db.bank && m.sys.db.bank[p].peak == s'.db.bank[p].peak
      ensures Covered(cfg, P.StageOf(s', p), PlacementOf(m.placing, p), s'.db.bank[p])
      ensures UpToDate(ReadOf(m.resolving, p), s'.db.bank[p])
    {
      P.StepFacts(cfg, m.sys, a, p);
      P.BankKeys(cfg, m.sys, a);
      assert UpToDate(ReadOf(m.resolving, p), m.sys.db.bank[p]);
      if P.ByBot(a) && a.p == p {
        OwnWholeCovered(cfg, m, p, a);
      }
    }
    P.StepFacts(cfg, m.sys, a, Pair("", ""));
    P.BankKeys(cfg, m.sys, a);
  }

  lemma WholeKeeps(cfg: P.Config, m: Machine, a: P.Action)
    requires Sound(cfg, m) && P.Proper(cfg) && !Busy(cfg, m, a) && Begun(cfg, m.sys, a).None?
    ensures Sound(cfg, m.(sys := P.Step(cfg, m.sys, a))) && Onward(m.sys.db, P.Step(cfg, m.sys, a).db)
  {
    WholeAccounts(cfg, m, a);
    P.TidyStep(cfg, m.sys, a);
    WholeWrites(cfg, m.sys, a);
    P.StepFacts(cfg, m.sys, a, Pair("", ""));
  }

  // ---- the first statement of a call ----

  lemma BookBegins(cfg: P.Config, m: Machine, p: Pair)
    requires Sound(cfg, m) && P.StageOf(m.sys, p).Ready? && p !in m.placing && p in cfg.bots
    ensures var f := Begun(cfg, m.sys, P.Book(p)); f.Some? && Sound(cfg, m.(placing := m.placing[p := f.value]))
  {
    NotRefused(cfg, m, p);
    var st := P.StageOf(m.sys, p);
    assert P.StageSane(st, p) && Covered(cfg, st, None, m.sys.db.bank[p]);
    var f := Begun(cfg, m.sys, P.Book(p)).value;
    forall r | r in m.sys.db.bank
      ensures Covered(cfg, P.StageOf(m.sys, r), PlacementOf(m.placing[p := f], r), m.sys.db.bank[r])
    {
      assert Covered(cfg, P.StageOf(m.sys, r), PlacementOf(m.placing, r), m.sys.db.bank[r]);
    }
  }

  lemma ResolverBegins(cfg: P.Config, m: Machine, a: P.Action)
    requires Sound(cfg, m) && P.Proper(cfg) && !Busy(cfg, m, a) && Begun(cfg, m.sys, a).Some? && !a.Book?
    ensures Sound(cfg, m.(sys := m.sys.(work := P.WorkAfter(m.sys, a)), resolving := Begun(cfg, m.sys, a)))
  {
    var s := m.sys;
    var id, f := s.work.ids[0], Begun(cfg, s, a).value;
    var rest := s.work.ids[1..];
    assert forall k | 0 <= k < |rest| :: rest[k] == s.work.ids[k + 1] && rest[k] != id;
    P.CallsAreGood(cfg, s, a);
    assert OwnTrade(cfg, s.db.trades, P.WorkAfter(s, a), f);
    var m' := m.(sys := s.(work := P.WorkAfter(s, a)), resolving := Some(f));
    forall p | p in s.db.bank
      ensures Covered(cfg, P.StageOf(m'.sys, p), PlacementOf(m.placing, p), s.db.bank[p])
      ensures UpToDate(ReadOf(m'.resolving, p), s.db.bank[p])
    {
      assert Covered(cfg, P.StageOf(s, p), PlacementOf(m.placing, p), s.db.bank[p]);
    }
  }

  // ---- the later statements of a placement ----

  lemma PlacementMoves(cfg: P.Config, m: Machine, p: Pair)
    requires Sound(cfg, m) && P.Proper(cfg) && p in m.placing
    ensures Sound(cfg, Advance(cfg, m, PlaceNext(p))) && Onward(m.sys.db, Advance(cfg, m, PlaceNext(p)).sys.db)
  {
    assert OwnOrder(m.placing[p], m.sys.stages[p], p) && p in m.sys.db.bank;
    assert Covered(cfg, P.StageOf(m.sys, p), Some(m.placing[p]), m.sys.db.bank[p]);
    if m.placing[p].BalanceRead? {
      StakeIsTaken(cfg, m, p);
    } else {
      RowIsInserted(cfg, m, p);
    }
  }

  /** A write by the pair's own bot, which never leaves more than there was. */
  lemma OwnWrite(cfg: P.Config, m: Machine, m': Machine, p: Pair, a: Account)
    requires Accounts(cfg, m) && p in m.sys.db.bank && m'.sys.db.bank == m.sys.db.bank[p := a]
    requires m'.resolving == m.resolving && a.current <= m.sys.db.bank[p].current && a.peak == m.sys.db.bank[p].peak
    requires forall r | r in m.sys.db.bank && r != p ::
      P.StageOf(m'.sys, r) == P.StageOf(m.sys, r) && PlacementOf(m'.placing, r) == PlacementOf(m.placing, r)
    requires Covered(cfg, P.StageOf(m'.sys, p), PlacementOf(m'.placing, p), a)
    ensures Accounts(cfg, m')
  {
    forall r | r in m'.sys.db.bank
      ensures Covered(cfg, P.StageOf(m'.sys, r), PlacementOf(m'.placing, r), m'.sys.db.bank[r])
      ensures UpToDate(ReadOf(m'.resolving, r), m'.sys.db.bank[r])
    {
      assert Covered(cfg, P.StageOf(m.sys, r), PlacementOf(m.placing, r), m.sys.db.bank[r]);
      assert UpToDate(ReadOf(m.resolving, r), m.sys.db.bank[r]);
    }
  }

  /** The absolute write of the stake: the balance has not fallen since it was read. */
  lemma StakeIsTaken(cfg: P.Config, m: Machine, p: Pair)
    requires Sound(cfg, m) && P.Proper(cfg) && p in m.placing && m.placing[p].BalanceRead?
    ensures Sound(cfg, Advance(cfg, m, PlaceNext(p))) && Onward(m.sys.db, Advance(cfg, m, PlaceNext(p)).sys.db)
  {
    var f, a := m.placing[p], m.sys.db.bank[p];
    assert OwnOrder(f, m.sys.stages[p], p) && Covered(cfg, P.StageOf(m.sys, p), Some(f), a);
    var left := Account(f.read - f.t.Cost(), a.peak);
    assert P.StageSane(m.sys.stages[p], p);
    P.StakePositive(f.t, f.t.Cost());
    StakeLeaves(cfg, P.StageOf(m.sys, p), f.t, f.read, a, left);
    StakeStep(cfg, m, p, f.t, f.read, left);
    OwnWrite(cfg, m, Advance(cfg, m, PlaceNext(p)), p, left);
    BankReplaced(cfg, m.sys, p, left);
  }

  lemma StakeStep(cfg: P.Config, m: Machine, p: Pair, t: Trade, read: real, left: Account)
    requires p in m.placing && m.placing[p] == BalanceRead(t, read) && t.pair == p && p in m.sys.db.bank
    requires left == Account(read - t.Cost(), m.sys.db.bank[p].peak)
    ensures Advance(cfg, m, PlaceNext(p)) == m.(
      sys := m.sys.(db := m.sys.db.(bank := m.sys.db.bank[p := left])), placing := m.placing[p := StakeTaken(t)])
  {
  }

  lemma StakeLeaves(cfg: P.Config, st: P.Stage, t: Trade, read: real, a: Account, left: Account)
    requires Covered(cfg, st, Some(BalanceRead(t, read)), a) && cfg.gas >= 0.0 && t.Cost() > 0.0
    requires left == Account(read - t.Cost(), a.peak) && (st.Ready? ==> st.budget >= 1.0)
    ensures Covered(cfg, st, Some(StakeTaken(t)), left) && left.current <= a.current
  {
  }

  lemma BankReplaced(cfg: P.Config, s: P.Sys, p: Pair, a: Account)
    requires P.Tidy(cfg, s) && p in s.db.bank && a.peak == s.db.bank[p].peak
    ensures P.Tidy(cfg, s.(db := s.db.(bank := s.db.bank[p := a])))
    ensures Onward(s.db, s.db.(bank := s.db.bank[p := a]))
  {
  }

  lemma RowIsInserted(cfg: P.Config, m: Machine, p: Pair)
    requires Sound(cfg, m) && P.Proper(cfg) && p in m.placing && m.placing[p].StakeTaken?
    ensures Sound(cfg, Advance(cfg, m, PlaceNext(p))) && Onward(m.sys.db, Advance(cfg, m, PlaceNext(p)).sys.db)
  {
    var f, a := m.placing[p], m.sys.db.bank[p];
    assert OwnOrder(f, m.sys.stages[p], p) && Covered(cfg, P.StageOf(m.sys, p), Some(f), a);
    RowStep(cfg, m, p, f.t);
    var m' := Advance(cfg, m, PlaceNext(p));
    assert m'.sys.db.bank == m.sys.db.bank[p := a];
    OwnWrite(cfg, m, m', p, a);
    RowAppended(cfg, m.sys, m'.sys, f.t);
    PlacementDone(cfg, m.sys.stages, m.placing, p);
    if m.resolving.Some? {
      OwnTradeStays(cfg, m.sys.db.trades, f.t, m.sys.work, m.resolving.value);
    }
  }

  lemma OwnTradeStays(cfg: P.Config, trades: seq<Trade>, t: Trade, work: P.Work, f: Flight)
    requires OwnTrade(cfg, trades, work, f)
    ensures OwnTrade(cfg, trades + [t], work, f)
  {
  }

  lemma PlacementDone(cfg: P.Config, stages: map<Pair, P.Stage>, placing: map<Pair, Flight>, p: Pair)
    requires Placements(cfg, stages, placing)
    ensures Placements(cfg, stages[p := P.Booked], placing - {p})
  {
  }

  lemma RowStep(cfg: P.Config, m: Machine, p: Pair, t: Trade)
    requires p in m.placing && m.placing[p] == StakeTaken(t)
    ensures Advance(cfg, m, PlaceNext(p)) == Machine(
      m.sys.(db := m.sys.db.(trades := m.sys.db.trades + [t]), stages := m.sys.stages[p := P.Booked]),
      m.placing - {p}, m.resolving)
  {
  }

  lemma RowAppended(cfg: P.Config, s: P.Sys, s': P.Sys, t: Trade)
    requires P.Tidy(cfg, s) && P.OrderSane(t, t.pair) && t.pair in cfg.bots && s'.work == s.work
    requires s'.db == s.db.(trades := s.db.trades + [t]) && s'.stages == s.stages[t.pair := P.Booked]
    ensures P.Tidy(cfg, s') && Onward(s.db, s'.db)
  {
  }

  // ---- the later statements of the resolver ----

  /** Marking an open row that is on no list. */
  lemma RowIsMarked(cfg: P.Config, m: Machine, id: nat, o: Outcome, pnl: real, f: Option<Flight>)
    requires Sound(cfg, m) && OpenAt(m.sys.db.trades, id) && Unlisted(m.sys.work, id)
    requires f.Some? ==> f.value.RowMarked? && Pays(cfg, f.value.row, f.value.pnl)
    ensures var m' := m.(sys := m.sys.(db := SetResult(m.sys.db, id, o, pnl)), resolving := f);
      Sound(cfg, m') && Onward(m.sys.db, m'.sys.db)
  {
    var m' := m.(sys := m.sys.(db := SetResult(m.sys.db, id, o, pnl)), resolving := f);
    assert P.RowsSane(cfg, m'.sys.db.trades) && P.WorkSane(m'.sys.db.trades, m'.sys.work);
    SameBank(cfg, m, m');
  }

  /** Accounts stay covered while the bank, the stages and the placements do, and no account is held read. */
  lemma SameBank(cfg: P.Config, m: Machine, m': Machine)
    requires Accounts(cfg, m) && m'.sys.db.bank == m.sys.db.bank && m'.sys.stages == m.sys.stages
    requires m'.placing == m.placing
    requires forall p | p in m.sys.db.bank :: UpToDate(ReadOf(m'.resolving, p), m.sys.db.bank[p])
    ensures Accounts(cfg, m')
  {
    forall p | p in m'.sys.db.bank
      ensures Covered(cfg, P.StageOf(m'.sys, p), PlacementOf(m'.placing, p), m'.sys.db.bank[p])
    {
      assert Covered(cfg, P.StageOf(m.sys, p), PlacementOf(m.placing, p), m.sys.db.bank[p]);
    }
  }

  lemma AccountIsRead(cfg: P.Config, m: Machine)
    requires Sound(cfg, m) && m.resolving.Some? && m.resolving.value.RowMarked?
    ensures Sound(cfg, Advance(cfg, m, ResolveNext)) && Onward(m.sys.db, Advance(cfg, m, ResolveNext).sys.db)
  {
    assert m.resolving.value.row.pair in m.sys.db.bank;
    OnwardStill(m.sys.db);
    SameBank(cfg, m, Advance(cfg, m, ResolveNext));
  }

  /** The absolute write of balance and peak: the payout covers whatever the bot took out meanwhile. */
  lemma AccountIsWritten(cfg: P.Config, m: Machine)
    requires Sound(cfg, m) && m.resolving.Some? && m.resolving.value.AccountRead?
    ensures Sound(cfg, Advance(cfg, m, ResolveNext)) && Onward(m.sys.db, Advance(cfg, m, ResolveNext).sys.db)
  {
    var f := m.resolving.value;
    var p, paid := f.row.pair, f.row.Cost() + f.pnl;
    var m' := Advance(cfg, m, ResolveNext);
    assert UpToDate(ReadOf(m.resolving, p), m.sys.db.bank[p]);
    assert m'.sys.db == m.sys.db.(bank := m.sys.db.bank[p := Credited(f.account.value, paid)]);
    forall r | r in m'.sys.db.bank
      ensures Covered(cfg, P.StageOf(m'.sys, r), PlacementOf(m'.placing, r), m'.sys.db.bank[r])
    {
      assert Covered(cfg, P.StageOf(m.sys, r), PlacementOf(m.placing, r), m.sys.db.bank[r]);
      if r == p {
        PaidInCovers(cfg, P.StageOf(m.sys, r), PlacementOf(m.placing, r), m.sys.db.bank[r], f.account.value, paid);
      }
    }
  }

  lemma PaidInCovers(cfg: P.Config, st: P.Stage, f: Option<Flight>, a: Account, read: Account, paid: real)
    requires Covered(cfg, st, f, a) && paid >= 0.0 && read.peak == a.peak && a.current <= read.current
    ensures Covered(cfg, st, f, Credited(read, paid))
  {
  }

  lemma ResolverMoves(cfg: P.Config, m: Machine)
    requires Sound(cfg, m) && m.resolving.Some?
    ensures Sound(cfg, Advance(cfg, m, ResolveNext)) && Onward(m.sys.db, Advance(cfg, m, ResolveNext).sys.db)
  {
    match m.resolving.value
    case RowRead(id, o, pnl, row) => RowIsMarked(cfg, m, id, o, pnl, Some(RowMarked(id, o, pnl, row)));
    case RowMarked(_, _, _, _) => AccountIsRead(cfg, m);
    case AccountRead(_, _, _, _, _) => AccountIsWritten(cfg, m);
    case DoomedRead(_, _) => SameBank(cfg, m, Advance(cfg, m, ResolveNext));
    case Copied(id, _) => RowIsMarked(cfg, m, id, Void, 0.0, None);
  }

  // ---- every run of statements ----

  lemma MoveKeeps(cfg: P.Config, m: Machine, move: Move)
    requires P.Proper(cfg) && Sound(cfg, m)
    ensures Sound(cfg, Advance(cfg, m, move)) && Onward(m.sys.db, Advance(cfg, m, move).sys.db)
  {
    OnwardStill(m.sys.db);
    match move
    case Act(a) =>
      if !Busy(cfg, m, a) {
        if Begun(cfg, m.sys, a).None? {
          WholeKeeps(cfg, m, a);
        } else if a.Book? {
          BookBegins(cfg, m, a.p);
        } else {
          ResolverBegins(cfg, m, a);
        }
      }
    case PlaceNext(p) => if p in m.placing { PlacementMoves(cfg, m, p); }
    case ResolveNext => if m.resolving.Some? { ResolverMoves(cfg, m); }
  }

  lemma {:induction false} SoundForever(cfg: P.Config, m: Machine, moves: seq<Move>)
    requires P.Proper(cfg) && Sound(cfg, m)
    ensures Sound(cfg, Drive(cfg, m, moves)) && Onward(m.sys.db, Drive(cfg, m, moves).sys.db)
    decreases |moves|
  {
    if |moves| == 0 {
      OnwardStill(m.sys.db);
    } else {
      var next := Advance(cfg, m, moves[0]);
      MoveKeeps(cfg, m, moves[0]);
      SoundForever(cfg, next, moves[1..]);
      OnwardTwice(m.sys.db, next.sys.db, Drive(cfg, next, moves[1..]).sys.db);
    }
  }

  // ---- the runs of the protocol are among them ----

  lemma DriveOne(cfg: P.Config, m: Machine, move: Move)
    ensures Drive(cfg, m, [move]) == Advance(cfg, m, move)
  {
    assert Drive(cfg, Advance(cfg, m, move), [move][1..]) == Advance(cfg, m, move);
  }

  lemma {:induction false} DriveConcat(cfg: P.Config, m: Machine, a: seq<Move>, b: seq<Move>)
    ensures Drive(cfg, m, a + b) == Drive(cfg, Drive(cfg, m, a), b)
    decreases |a|
  {
    if |a| == 0 {
      assert a + b == b;
    } else {
      assert (a + b)[1..] == a[1..] + b;
      DriveConcat(cfg, Advance(cfg, m, a[0]), a[1..], b);
    }
  }

  lemma DriveNext(cfg: P.Config, m: Machine, moves: seq<Move>, move: Move, mid: Machine)
    requires Drive(cfg, m, moves) == mid
    ensures Drive(cfg, m, moves + [move]) == Advance(cfg, mid, move)
  {
    DriveConcat(cfg, m, moves, [move]);
    DriveOne(cfg, mid, move);
  }

  /** A placement nobody interrupts. */
  lemma BookInFull(cfg: P.Config, m: Machine, p: Pair)
    requires !Busy(cfg, m, P.Book(p)) && Begun(cfg, m.sys, P.Book(p)).Some?
    ensures Drive(cfg, m, [Act(P.Book(p))] + [PlaceNext(p)] + [PlaceNext(p)])
         == m.(sys := P.Step(cfg, m.sys, P.Book(p)))
  {
    var m1 := Advance(cfg, m, Act(P.Book(p)));
    var m2 := Advance(cfg, m1, PlaceNext(p));
    DriveOne(cfg, m, Act(P.Book(p)));
    DriveNext(cfg, m, [Act(P.Book(p))], PlaceNext(p), m1);
    DriveNext(cfg, m, [Act(P.Book(p))] + [PlaceNext(p)], PlaceNext(p), m2);
    assert Advance(cfg, m2, PlaceNext(p)).placing == m.placing;
  }

  /** A settlement or a void nobody interrupts. */
  lemma ResolverInFull(cfg: P.Config, m: Machine, a: P.Action) returns (moves: seq<Move>)
    requires !Busy(cfg, m, a) && Begun(cfg, m.sys, a).Some? && !a.Book?
    ensures Drive(cfg, m, moves) == m.(sys := P.Step(cfg, m.sys, a))
  {
    var m1 := Advance(cfg, m, Act(a));
    var m2 := Advance(cfg, m1, ResolveNext);
    DriveOne(cfg, m, Act(a));
    DriveNext(cfg, m, [Act(a)], ResolveNext, m1);
    moves := [Act(a)] + [ResolveNext];
    var m3 := Advance(cfg, m2, ResolveNext);
    DriveNext(cfg, m, moves, ResolveNext, m2);
    moves := moves + [ResolveNext];
    if a.SettleNext? {
      DriveNext(cfg, m, moves, ResolveNext, m3);
      moves := moves + [ResolveNext];
    }
  }

  lemma ActInFull(cfg: P.Config, m: Machine, a: P.Action) returns (moves: seq<Move>)
    requires !Busy(cfg, m, a)
    ensures Drive(cfg, m, moves) == m.(sys := P.Step(cfg, m.sys, a))
  {
    if Begun(cfg, m.sys, a).None? {
      moves := [Act(a)];
      DriveOne(cfg, m, Act(a));
    } else if a.Book? {
      moves := [Act(a)] + [PlaceNext(a.p)] + [PlaceNext(a.p)];
      BookInFull(cfg, m, a.p);
    } else {
      moves := ResolverInFull(cfg, m, a);
    }
  }

  /** Every run of the protocol, with its calls taken whole, is a run of statements. */
  lemma {:induction false} RunIsDriven(cfg: P.Config, s: P.Sys, actions: seq<P.Action>) returns (moves: seq<Move>)
    ensures Drive(cfg, Machine(s, map[], None), moves) == Machine(P.Run(cfg, s, actions), map[], None)
    decreases |actions|
  {
    var m := Machine(s, map[], None);
    if |actions| == 0 {
      moves := [];
    } else if P.ByBot(actions[0]) && actions[0].p !in cfg.bots {
      moves := RunIsDriven(cfg, s, actions[1..]);
    } else {
      var first := ActInFull(cfg, m, actions[0]);
      var rest := RunIsDriven(cfg, P.Step(cfg, s, actions[0]), actions[1..]);
      moves := first + rest;
      DriveConcat(cfg, m, first, rest);
    }
  }

  // ---- from a seeded system ----

  function Seeded(cfg: P.Config, accounts: set<Pair>, initial: real, clock: real): Machine {
    Machine(P.Init(cfg, accounts, initial, clock), map[], None)
  }

  /**
   However the statements of a seeded system interleave: every account stays above minus one gas
   price and at most at its peak, and at least at the balance its bot is counting on; peaks do not
   fall; a closed trade keeps its outcome and profit.
   */
  lemma AfloatForever(
    cfg: P.Config, accounts: set<Pair>, initial: real, clock: real, moves: seq<Move>, later: seq<Move>, p: Pair)
    requires P.Proper(cfg) && cfg.bots.Keys <= accounts && initial > -cfg.gas && clock >= 0.0 && p in accounts
    ensures var now := Drive(cfg, Seeded(cfg, accounts, initial, clock), moves);
      var end := Drive(cfg, now, later);
      && p in now.sys.db.bank && p in end.sys.db.bank
      && -cfg.gas < now.sys.db.bank[p].current <= now.sys.db.bank[p].peak <= end.sys.db.bank[p].peak
      && (P.StageOf(now.sys, p).Ready? && p !in now.placing ==> Begun(cfg, now.sys, P.Book(p)).Some?)
      && forall i | 0 <= i < |now.sys.db.trades| && !now.sys.db.trades[i].Open() ::
           i < |end.sys.db.trades| && end.sys.db.trades[i] == now.sys.db.trades[i]
  {
    var start := Seeded(cfg, accounts, initial, clock);
    var now := Drive(cfg, start, moves);
    Guarantees.HealthyAtStart(cfg, accounts, initial, clock);
    SoundForever(cfg, start, moves);
    SoundForever(cfg, now, later);
    if P.StageOf(now.sys, p).Ready? && p !in now.placing {
      NotRefused(cfg, now, p);
    }
  }
}
