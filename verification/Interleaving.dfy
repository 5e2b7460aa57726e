/**
 Each storage call is several awaited statements, so calls made by different coroutines
 interleave statement by statement.  A schedule that never lets two calls on the same pair
 overlap ends as if the calls had been made one after another; a schedule that does can
 lose a write, and this module says exactly when.
 */
module Interleaving {
  import opened Common
  import opened Ledger

  /** One storage call. */
  datatype Op =
    | Place(t: Trade)
    | Fee(p: Pair, amount: real)
    | Settle(id: nat, outcome: Outcome, pnl: real)
    | Discard(id: nat)

  /** The call made in one go. */
  function Whole(db: Db, op: Op): Db {
    match op
    case Place(t) => Reserve(db, t).0
    case Fee(p, amount) => Deduct(db, p, amount)
    case Settle(id, outcome, pnl) => Resolve(db, id, outcome, pnl)
    case Discard(id) => MoveToDeadLetter(db, id)
  }

  function Serial(db: Db, ops: seq<Op>): Db {
    if |ops| == 0 then db else Whole(Serial(db, ops[..|ops| - 1]), ops[|ops| - 1])
  }

  lemma SerialAppend(db: Db, ops: seq<Op>, op: Op)
    ensures Serial(db, ops + [op]) == Whole(Serial(db, ops), op)
  {
  }

  /** A call between two of its statements, with the local variables it has filled so far. */
  datatype Flight =
    | BalanceRead(t: Trade, read: real)
    | StakeTaken(t: Trade)
    | RowRead(id: nat, outcome: Outcome, pnl: real, row: Trade)
    | RowMarked(id: nat, outcome: Outcome, pnl: real, row: Trade)
    | AccountRead(id: nat, outcome: Outcome, pnl: real, row: Trade, account: Option<Account>)
    | DoomedRead(id: nat, row: Trade)
    | Copied(id: nat, row: Trade)
  {
    function Target(): Pair {
      match this
      case BalanceRead(t, _) => t.pair
      case StakeTaken(t) => t.pair
      case RowRead(_, _, _, row) => row.pair
      case RowMarked(_, _, _, row) => row.pair
      case AccountRead(_, _, _, row, _) => row.pair
      case DoomedRead(_, row) => row.pair
      case Copied(_, row) => row.pair
    }

    function Call(): Op {
      match this
      case BalanceRead(t, _) => Place(t)
      case StakeTaken(t) => Place(t)
      case RowRead(id, o, pnl, _) => Settle(id, o, pnl)
      case RowMarked(id, o, pnl, _) => Settle(id, o, pnl)
      case AccountRead(id, o, pnl, _, _) => Settle(id, o, pnl)
      case DoomedRead(id, _) => Discard(id)
      case Copied(id, _) => Discard(id)
    }
  }

  /** The first statement of a call: what it leaves, and what remains to be done. */
  function First(db: Db, op: Op): (Db, Option<Flight>) {
    match op
    case Place(t) =>
      if t.pair !in db.bank || db.bank[t.pair].current < t.Cost() then (db, None)
      else (db, Some(BalanceRead(t, db.bank[t.pair].current)))
    case Fee(p, amount) => (Deduct(db, p, amount), None)
    case Settle(id, outcome, pnl) =>
      if id >= |db.trades| then (db, None) else (db, Some(RowRead(id, outcome, pnl, db.trades[id])))
    case Discard(id) =>
      if id >= |db.trades| then (db, None) else (db, Some(DoomedRead(id, db.trades[id])))
  }

  /** The next statement of a call under way.  Balances are written as absolute values. */
  function Next(db: Db, f: Flight): (Db, Option<Flight>) {
    match f
    case BalanceRead(t, read) =>
      (SetCurrent(db, t.pair, read - t.Cost()), Some(StakeTaken(t)))
    case StakeTaken(t) =>
      (db.(trades := db.trades + [t]), None)
    case RowRead(id, outcome, pnl, row) =>
      (SetResult(db, id, outcome, pnl), Some(RowMarked(id, outcome, pnl, row)))
    case RowMarked(id, outcome, pnl, row) =>
      (db, Some(AccountRead(id, outcome, pnl, row,
                            if row.pair in db.bank then Some(db.bank[row.pair]) else None)))
    case AccountRead(id, outcome, pnl, row, account) =>
      var before := if account.Some? then account.value else Account(0.0, 0.0);
      (SetAccount(db, row.pair, Credited(before, row.Cost() + pnl)), None)
    case DoomedRead(id, row) =>
      (db.(dead := db.dead + [DeadLetter(id, row)]), Some(Copied(id, row)))
    case Copied(id, row) =>
      (SetResult(db, id, Void, 0.0), None)
  }

  function SetCurrent(db: Db, p: Pair, x: real): Db {
    if p in db.bank then db.(bank := db.bank[p := db.bank[p].(current := x)]) else db
  }

  function SetAccount(db: Db, p: Pair, a: Account): Db {
    if p in db.bank then db.(bank := db.bank[p := a]) else db
  }

  function SetResult(db: Db, id: nat, outcome: Outcome, pnl: real): Db {
    if id < |db.trades| then Mark(db, id, outcome, pnl) else db
  }

  // ---- schedules ----

  /** A task starts one call, or runs the next statement of the call it started. */
  datatype Event = Start(task: nat, op: Op) | Go(task: nat)

  /**
   `order` and `ops` list the calls that have taken effect, `begun` every call ever started.
   A void takes effect when its dead letter is written, every other call at its last statement.
   */
  datatype World = World(
    db: Db, flights: map<nat, Flight>, begun: map<nat, Op>, order: seq<nat>, ops: seq<Op>)
  {
    function Took(k: nat, op: Op): World {
      this.(order := order + [k], ops := ops + [op])
    }
  }

  function Step(w: World, e: Event): World {
    match e
    case Start(k, op) =>
      if k in w.begun then w
      else
        var (db, f) := First(w.db, op);
        var w' := w.(db := db, begun := w.begun[k := op]);
        if f.None? then w'.Took(k, op) else w'.(flights := w.flights[k := f.value])
    case Go(k) =>
      if k !in w.flights then w
      else
        var f := w.flights[k];
        var (db, f') := Next(w.db, f);
        var w' := w.(db := db, flights := if f'.None? then w.flights - {k} else w.flights[k := f'.value]);
        if f.DoomedRead? || (f'.None? && !f.Copied?) then w'.Took(k, f.Call()) else w'
  }

  function Exec(w: World, events: seq<Event>): World
    decreases |events|
  {
    if |events| == 0 then w else Exec(Step(w, events[0]), events[1..])
  }

  function Fresh(db: Db): World {
    World(db, map[], map[], [], [])
  }

  /** No call is started on a pair that another call is still working on. */
  ghost predicate Apart(w: World, e: Event) {
    e.Start? ==>
      var f := First(w.db, e.op).1;
      && (f.Some? ==> Quiet(w, f.value.Target()))
      && (e.op.Fee? ==> Quiet(w, e.op.p))
      && (e.op.Place? ==> Quiet(w, e.op.t.pair))
  }

  ghost predicate Quiet(w: World, p: Pair) {
    forall k | k in w.flights :: w.flights[k].Target() != p
  }

  ghost predicate NoOverlap(w: World, events: seq<Event>)
    decreases |events|
  {
    |events| == 0 || (Apart(w, events[0]) && NoOverlap(Step(w, events[0]), events[1..]))
  }

  // ---- the invariant: the real tables against the tables of the serial run ----

  ghost predicate SameRow(db: Db, s: Db, i: nat)
    requires i < |db.trades| && i < |s.trades|
  {
    db.trades[i] == s.trades[i]
  }

  ghost predicate SameAccount(db: Db, s: Db, p: Pair) {
    (p in db.bank <==> p in s.bank) && (p in db.bank ==> db.bank[p] == s.bank[p])
  }

  /** Rows of p other than `except` are the same in both. */
  ghost predicate SameRows(db: Db, s: Db, p: Pair, except: int) {
    && |db.trades| == |s.trades|
    && forall i: nat | i < |s.trades| && s.trades[i].pair == p && i != except :: SameRow(db, s, i)
  }

  ghost predicate Agree(db: Db, s: Db, p: Pair) {
    SameAccount(db, s, p) && SameRows(db, s, p, -1)
  }

  /** How far ahead of (or, for a copied void, behind) the serial tables a flight has run. */
  ghost predicate Ahead(f: Flight, db: Db, s: Db) {
    var p := f.Target();
    && |db.trades| == |s.trades|
    && match f
      case BalanceRead(t, read) =>
        Agree(db, s, p) && p in s.bank && s.bank[p].current == read && read >= t.Cost()
      case StakeTaken(t) =>
        && SameRows(db, s, p, -1) && p in db.bank && p in s.bank && s.bank[p].current >= t.Cost()
        && db.bank[p] == s.bank[p].(current := s.bank[p].current - t.Cost())
      case RowRead(id, _, _, row) =>
        Agree(db, s, p) && id < |s.trades| && row == s.trades[id]
      case RowMarked(id, o, pnl, row) =>
        && SameAccount(db, s, p) && SameRows(db, s, p, id) && id < |s.trades| && row == s.trades[id]
        && db.trades[id] == row.(outcome := Some(o), pnl := Some(pnl))
      case AccountRead(id, o, pnl, row, account) =>
        && SameAccount(db, s, p) && SameRows(db, s, p, id) && id < |s.trades| && row == s.trades[id]
        && db.trades[id] == row.(outcome := Some(o), pnl := Some(pnl))
        && account == (if p in s.bank then Some(s.bank[p]) else None)
      case DoomedRead(id, row) =>
        Agree(db, s, p) && id < |s.trades| && row == s.trades[id]
      case Copied(id, row) =>
        && SameAccount(db, s, p) && SameRows(db, s, p, id) && id < |s.trades|
        && db.trades[id] == row && s.trades[id] == row.(outcome := Some(Void), pnl := Some(0.0))
  }

  ghost predicate SamePairs(db: Db, s: Db) {
    && |db.trades| == |s.trades|
    && forall i: nat | i < |s.trades| :: db.trades[i].pair == s.trades[i].pair
  }

  ghost predicate Tracks(w: World, s: Db) {
    && SamePairs(w.db, s)
    && w.db.dead == s.dead
    && (forall p | Quiet(w, p) :: Agree(w.db, s, p))
    && (forall k | k in w.flights :: Ahead(w.flights[k], w.db, s))
    && (forall k, l | k in w.flights && l in w.flights && k != l ::
          w.flights[k].Target() != w.flights[l].Target())
  }

  /** Which tasks have taken effect, and that each did so once and with its own call. */
  ghost predicate Accounted(w: World) {
    Listed(w.order, w.ops, w.begun) && Pending(w.flights, w.begun, w.order)
  }

  ghost predicate Listed(order: seq<nat>, ops: seq<Op>, begun: map<nat, Op>) {
    && |order| == |ops|
    && (forall i | 0 <= i < |order| :: order[i] in begun && ops[i] == begun[order[i]])
    && (forall i, j | 0 <= i < j < |order| :: order[i] != order[j])
  }

  /** A call begun has taken effect or is under way, and not both, but for a void between its two writes. */
  ghost predicate Pending(flights: map<nat, Flight>, begun: map<nat, Op>, order: seq<nat>) {
    && (forall k | k in flights :: k in begun && flights[k].Call() == begun[k])
    && (forall k | k in begun :: k in order || (k in flights && !flights[k].Copied?))
    && (forall k | k in flights && !flights[k].Copied? :: k !in order)
  }

  /** Everything about pairs other than p is as it was; only rows of p may have been added. */
  ghost predicate Only(p: Pair, a: Db, b: Db) {
    && |a.trades| <= |b.trades|
    && (forall q | q != p :: SameAccount(a, b, q))
    && (forall i: nat | i < |a.trades| :: b.trades[i].pair == a.trades[i].pair)
    && (forall i: nat | i < |a.trades| && a.trades[i].pair != p :: b.trades[i] == a.trades[i])
    && (forall i: nat | |a.trades| <= i < |b.trades| :: b.trades[i].pair == p)
  }

  lemma AgreeFrame(p: Pair, q: Pair, db: Db, s: Db, db': Db, s': Db)
    requires q != p && SamePairs(db, s) && Agree(db, s, q)
    requires Only(p, db, db') && Only(p, s, s') && |db'.trades| == |s'.trades|
    ensures Agree(db', s', q)
  {
    assert SameAccount(db, db', q) && SameAccount(s, s', q);
    forall i: nat | i < |s'.trades| && s'.trades[i].pair == q
      ensures SameRow(db', s', i)
    {
      assert i < |s.trades| && SameRow(db, s, i);
    }
  }

  lemma AheadFrame(p: Pair, f: Flight, db: Db, s: Db, db': Db, s': Db)
    requires f.Target() != p && SamePairs(db, s) && Ahead(f, db, s)
    requires Only(p, db, db') && Only(p, s, s') && |db'.trades| == |s'.trades|
    ensures Ahead(f, db', s')
  {
    var q := f.Target();
    var except: int := if f.RowMarked? || f.AccountRead? || f.Copied? then f.id else -1;
    assert SameRows(db, s, q, except);
    forall i: nat | i < |s'.trades| && s'.trades[i].pair == q && i != except
      ensures SameRow(db', s', i)
    {
      assert i < |s.trades| && SameRow(db, s, i);
    }
    assert SameRows(db', s', q, except);
    assert SameAccount(db, db', q) && SameAccount(s, s', q);
  }

  /** What a call that takes effect at once does to both sets of tables. */
  lemma FirstAgrees(db: Db, s: Db, op: Op, p: Pair)
    requires SamePairs(db, s) && db.dead == s.dead && Agree(db, s, p)
    requires match op
      case Place(t) => p == t.pair
      case Fee(q, _) => p == q
      case Settle(id, _, _) => id < |db.trades| ==> p == db.trades[id].pair
      case Discard(id) => id < |db.trades| ==> p == db.trades[id].pair
    ensures var (db', f) := First(db, op);
      var s' := if f.None? then Whole(s, op) else s;
      && Only(p, db, db') && Only(p, s, s') && SamePairs(db', s') && db'.dead == s'.dead
      && (f.None? ==> Agree(db', s', p))
      && (f.Some? ==> f.value.Target() == p && f.value.Call() == op && Ahead(f.value, db', s'))
  {
    match op
    case Place(t) =>
    case Fee(q, amount) =>
      forall i: nat | i < |s.trades| && s.trades[i].pair == p
        ensures SameRow(Deduct(db, q, amount), Deduct(s, q, amount), i)
      {
        assert SameRow(db, s, i);
      }
    case Settle(id, _, _) => if id < |db.trades| { assert SameRow(db, s, id); }
    case Discard(id) => if id < |db.trades| { assert SameRow(db, s, id); }
  }

  predicate Takes(f: Flight) {
    f.StakeTaken? || f.AccountRead? || f.DoomedRead?
  }

  lemma NextAhead(db: Db, s: Db, f: Flight)
    requires SamePairs(db, s) && db.dead == s.dead && Ahead(f, db, s)
    ensures var (db', f') := Next(db, f);
      var s' := if Takes(f) then Whole(s, f.Call()) else s;
      var p := f.Target();
      && Only(p, db, db') && Only(p, s, s') && SamePairs(db', s') && db'.dead == s'.dead
      && (f'.None? ==> Agree(db', s', p))
      && (f'.Some? ==> f'.value.Target() == p && f'.value.Call() == f.Call() && Ahead(f'.value, db', s'))
  {
    var (db', f') := Next(db, f);
    var s' := if Takes(f) then Whole(s, f.Call()) else s;
    var p := f.Target();
    var except: int := if f.RowMarked? || f.AccountRead? || f.Copied? then f.id else -1;
    assert SameRows(db, s, p, except);
    var except': int :=
      if f'.Some? && (f'.value.RowMarked? || f'.value.AccountRead? || f'.value.Copied?) then f'.value.id else -1;
    forall i: nat | i < |s'.trades| && s'.trades[i].pair == p && i != except'
      ensures SameRow(db', s', i)
    {
      if i < |s.trades| && i != except {
        assert SameRow(db, s, i);
      }
    }
    assert SameRows(db', s', p, except');
  }

  /** w' is w after some statement of a call on p; only the flight on p, if any, differs. */
  ghost predicate Elsewhere(w: World, w': World, p: Pair) {
    && (forall l | l in w.flights && w.flights[l].Target() != p ::
          l in w'.flights && w'.flights[l] == w.flights[l])
    && (forall l | l in w'.flights && w'.flights[l].Target() != p ::
          l in w.flights && w'.flights[l] == w.flights[l])
    && (forall k, l | k in w'.flights && l in w'.flights && k != l ::
          w'.flights[k].Target() != p || w'.flights[l].Target() != p)
  }

  lemma KeepTracks(w: World, w': World, s: Db, s': Db, p: Pair)
    requires Tracks(w, s) && Elsewhere(w, w', p)
    requires Only(p, w.db, w'.db) && Only(p, s, s') && SamePairs(w'.db, s') && w'.db.dead == s'.dead
    requires Quiet(w', p) ==> Agree(w'.db, s', p)
    requires forall k | k in w'.flights && w'.flights[k].Target() == p :: Ahead(w'.flights[k], w'.db, s')
    ensures Tracks(w', s')
  {
    forall q | Quiet(w', q) && q != p ensures Agree(w'.db, s', q) {
      assert Quiet(w, q) by {
        forall l | l in w.flights ensures w.flights[l].Target() != q {
          assert w.flights[l].Target() != p ==> w'.flights[l] == w.flights[l];
        }
      }
      AgreeFrame(p, q, w.db, s, w'.db, s');
    }
    forall l | l in w'.flights && w'.flights[l].Target() != p ensures Ahead(w'.flights[l], w'.db, s') {
      AheadFrame(p, w.flights[l], w.db, s, w'.db, s');
    }
    forall k, l | k in w'.flights && l in w'.flights && k != l
      ensures w'.flights[k].Target() != w'.flights[l].Target()
    {
      if w'.flights[k].Target() != p && w'.flights[l].Target() != p {
        assert w.flights[k].Target() != w.flights[l].Target();
      }
    }
  }

  /** One event keeps the invariant, running at most one whole call serially. */
  lemma StartTracks(w: World, k: nat, op: Op, s: Db)
    requires Tracks(w, s) && Apart(w, Start(k, op)) && k !in w.begun && k !in w.flights
    ensures Tracks(Step(w, Start(k, op)), if First(w.db, op).1.None? then Whole(s, op) else s)
  {
    var (db, f) := First(w.db, op);
    var w' := Step(w, Start(k, op));
    if (op.Settle? || op.Discard?) && op.id >= |w.db.trades| {
      assert w'.flights == w.flights && Whole(s, op) == s && w'.db == w.db;
      assert forall p | Quiet(w', p) :: Quiet(w, p);
    } else {
      var p := match op
        case Place(t) => t.pair
        case Fee(q, _) => q
        case Settle(id, _, _) => w.db.trades[id].pair
        case Discard(id) => w.db.trades[id].pair;
      assert Quiet(w, p);
      FirstAgrees(w.db, s, op, p);
      KeepTracks(w, w', s, if f.None? then Whole(s, op) else s, p);
    }
  }

  lemma GoTracks(w: World, k: nat, s: Db)
    requires Tracks(w, s) && k in w.flights
    ensures Tracks(Step(w, Go(k)), if Takes(w.flights[k]) then Whole(s, w.flights[k].Call()) else s)
  {
    var f := w.flights[k];
    NextAhead(w.db, s, f);
    var w' := Step(w, Go(k));
    assert Elsewhere(w, w', f.Target());
    KeepTracks(w, w', s, if Takes(f) then Whole(s, f.Call()) else s, f.Target());
  }

  lemma FirstCall(db: Db, op: Op)
    ensures var f := First(db, op).1;
      f.Some? ==> f.value.Call() == op && !f.value.Copied?
  {
  }

  lemma NextCall(db: Db, f: Flight)
    ensures var f' := Next(db, f).1;
      && (f'.None? <==> f.StakeTaken? || f.AccountRead? || f.Copied?)
      && (f'.Some? ==> f'.value.Call() == f.Call() && (f'.value.Copied? <==> f.DoomedRead?))
  {
  }

  function Land(flights: map<nat, Flight>, k: nat, f: Option<Flight>): map<nat, Flight> {
    if f.None? then flights - {k} else flights[k := f.value]
  }

  lemma ListedTook(order: seq<nat>, ops: seq<Op>, begun: map<nat, Op>, k: nat, op: Op)
    requires Listed(order, ops, begun) && k !in order
    ensures Listed(order + [k], ops + [op], begun[k := op])
  {
  }

  lemma PendingTook(flights: map<nat, Flight>, begun: map<nat, Op>, order: seq<nat>, k: nat, op: Op, f: Option<Flight>)
    requires Pending(flights, begun, order) && (f.Some? ==> f.value.Copied? && f.value.Call() == op)
    ensures Pending(Land(flights, k, f), begun[k := op], order + [k])
  {
  }

  lemma PendingMoved(flights: map<nat, Flight>, begun: map<nat, Op>, order: seq<nat>, k: nat, f: Flight)
    requires Pending(flights, begun, order) && k !in order && !f.Copied?
    ensures Pending(flights[k := f], begun[k := f.Call()], order)
  {
  }

  lemma StartAccounted(w: World, k: nat, op: Op)
    requires Accounted(w) && k !in w.begun
    ensures k !in w.flights
    ensures var w' := Step(w, Start(k, op));
      Accounted(w') && w'.ops == if First(w.db, op).1.None? then w.ops + [op] else w.ops
  {
    var f := First(w.db, op).1;
    FirstCall(w.db, op);
    assert k !in w.order && k !in w.flights;
    if f.None? {
      ListedTook(w.order, w.ops, w.begun, k, op);
      PendingTook(w.flights, w.begun, w.order, k, op, f);
      assert Land(w.flights, k, f) == w.flights;
    } else {
      PendingMoved(w.flights, w.begun, w.order, k, f.value);
    }
  }

  lemma GoAccounted(w: World, k: nat)
    requires Accounted(w) && k in w.flights
    ensures var w' := Step(w, Go(k));
      Accounted(w') && w'.ops == if Takes(w.flights[k]) then w.ops + [w.flights[k].Call()] else w.ops
  {
    var f := w.flights[k];
    var f' := Next(w.db, f).1;
    NextCall(w.db, f);
    assert w.begun[k := f.Call()] == w.begun;
    if Takes(f) {
      ListedTook(w.order, w.ops, w.begun, k, f.Call());
      PendingTook(w.flights, w.begun, w.order, k, f.Call(), f');
    } else if f'.Some? {
      PendingMoved(w.flights, w.begun, w.order, k, f'.value);
    }
  }

  lemma {:induction false} RunTracks(db: Db, w: World, events: seq<Event>)
    requires Tracks(w, Serial(db, w.ops)) && Accounted(w) && NoOverlap(w, events)
    ensures var end := Exec(w, events); Tracks(end, Serial(db, end.ops)) && Accounted(end)
    decreases |events|
  {
    if |events| > 0 {
      var e := events[0];
      var w' := Step(w, e);
      match e {
        case Start(k, op) =>
          if k !in w.begun {
            StartAccounted(w, k, op);
            StartTracks(w, k, op, Serial(db, w.ops));
            SerialAppend(db, w.ops, op);
          }
        case Go(k) =>
          if k in w.flights {
            GoAccounted(w, k);
            GoTracks(w, k, Serial(db, w.ops));
            SerialAppend(db, w.ops, w.flights[k].Call());
          }
      }
      RunTracks(db, w', events[1..]);
    }
  }

  /**
   Serial equivalence.  Take any schedule of statements in which calls on the same pair never
   overlap, stopped at a moment when no call is half done: the tables are those left by running
   the calls one after another, every call begun being run exactly once.
   */
  lemma SerialEquivalence(db: Db, events: seq<Event>)
    requires NoOverlap(Fresh(db), events) && Exec(Fresh(db), events).flights == map[]
    ensures var end := Exec(Fresh(db), events);
      && end.db == Serial(db, end.ops)
      && |end.order| == |end.ops|
      && (forall k :: k in end.begun <==> k in end.order)
      && (forall i | 0 <= i < |end.ops| :: end.ops[i] == end.begun[end.order[i]])
      && (forall i, j | 0 <= i < j < |end.order| :: end.order[i] != end.order[j])
  {
    var end := Exec(Fresh(db), events);
    RunTracks(db, Fresh(db), events);
    var s := Serial(db, end.ops);
    forall i: nat | i < |s.trades| ensures end.db.trades[i] == s.trades[i] {
      assert Quiet(end, s.trades[i].pair) && SameRow(end.db, s, i);
    }
    forall p ensures SameAccount(end.db, s, p) {
      assert Quiet(end, p) && Agree(end.db, s, p);
    }
    assert end.db.bank.Keys == s.bank.Keys by {
      forall p ensures p in end.db.bank.Keys <==> p in s.bank.Keys {
        assert SameAccount(end.db, s, p);
      }
    }
    forall p | p in s.bank ensures end.db.bank[p] == s.bank[p] {
      assert SameAccount(end.db, s, p);
    }
    assert end.db.bank == s.bank;
    assert end.db.trades == s.trades;
  }

  // ---- what overlapping calls on one pair can lose ----

  lemma Pairwise(db: Db, a: Op, b: Op)
    ensures Serial(db, [a, b]) == Whole(Whole(db, a), b)
  {
    SerialAppend(db, [a], b);
    SerialAppend(db, [], a);
    assert [a] + [b] == [a, b] && [] + [a] == [a];
  }

  /** Some order of running the two calls one after the other ends in these tables. */
  ghost predicate Explained(end: Db, db: Db, a: Op, b: Op) {
    end == Serial(db, [a, b]) || end == Serial(db, [b, a])
  }

  lemma {:induction false} ExecConcat(w: World, a: seq<Event>, b: seq<Event>)
    ensures Exec(w, a + b) == Exec(Exec(w, a), b)
    decreases |a|
  {
    if |a| == 0 {
      assert a + b == b;
    } else {
      assert (a + b)[1..] == a[1..] + b;
      ExecConcat(Step(w, a[0]), a[1..], b);
    }
  }

  /** All statements of one call in a row; those left over once it has ended do nothing. */
  function Script(k: nat, op: Op): seq<Event> {
    [Start(k, op), Go(k), Go(k), Go(k)]
  }

  lemma FourSteps(w: World, k: nat, op: Op)
    ensures Exec(w, Script(k, op)) == Step(Step(Step(Step(w, Start(k, op)), Go(k)), Go(k)), Go(k))
  {
    var w1 := Step(w, Start(k, op));
    assert Script(k, op)[1..] == [Go(k), Go(k), Go(k)];
    assert [Go(k), Go(k), Go(k)][1..] == [Go(k), Go(k)];
    assert [Go(k), Go(k)][1..] == [Go(k)];
    assert Exec(w1, [Go(k), Go(k), Go(k)]) == Exec(Step(w1, Go(k)), [Go(k), Go(k)]);
    assert Exec(Step(Step(w1, Go(k)), Go(k)), [Go(k)]) == Step(Step(Step(w1, Go(k)), Go(k)), Go(k));
  }

  /** One more statement of call k. */
  lemma GoStep(w: World, k: nat, f: Flight, rest: map<nat, Flight>)
    requires w.flights == rest[k := f] && k !in rest
    ensures var w' := Step(w, Go(k));
      && w'.db == Next(w.db, f).0 && w'.begun == w.begun
      && w'.flights == if Next(w.db, f).1.None? then rest else rest[k := Next(w.db, f).1.value]
  {
  }

  /** The statements of a call, run without interruption, are the call. */
  lemma Uninterrupted(w: World, k: nat, op: Op)
    requires k !in w.begun && k !in w.flights
    ensures var end := Exec(w, Script(k, op));
      end.db == Whole(w.db, op) && end.flights == w.flights && end.begun == w.begun[k := op]
  {
    FourSteps(w, k, op);
    var w1 := Step(w, Start(k, op));
    var f := First(w.db, op).1;
    if f.Some? {
      var w2, rest := Step(w1, Go(k)), w.flights;
      GoStep(w1, k, f.value, rest);
      match op
      case Place(t) =>
        GoStep(w2, k, StakeTaken(t), rest);
      case Settle(id, o, pnl) =>
        SettleGoes(w2, k, id, o, pnl, w.db.trades[id], rest);
      case Discard(id) =>
        GoStep(w2, k, Copied(id, w.db.trades[id]), rest);
    }
  }

  lemma SettleGoes(w: World, k: nat, id: nat, o: Outcome, pnl: real, row: Trade, rest: map<nat, Flight>)
    requires w.flights == rest[k := RowMarked(id, o, pnl, row)] && k !in rest
    ensures var end := Step(Step(w, Go(k)), Go(k));
      end.db == Credit(w.db, row.pair, row.Cost() + pnl) && end.flights == rest && end.begun == w.begun
  {
    GoStep(w, k, RowMarked(id, o, pnl, row), rest);
    var w' := Step(w, Go(k));
    GoStep(w', k, w'.flights[k], rest);
  }

  /** A placement reads the balance; another call on the pair runs; the placement writes and inserts. */
  function InsidePlacement(t: Trade, op: Op): seq<Event> {
    [Start(0, Place(t))] + Script(1, op) + [Go(0), Go(0)]
  }

  lemma InsidePlacementEnd(db: Db, t: Trade, op: Op)
    requires t.pair in db.bank && db.bank[t.pair].current >= t.Cost()
    ensures var other := Whole(db, op);
      Exec(Fresh(db), InsidePlacement(t, op)).db
      == SetCurrent(other, t.pair, db.bank[t.pair].current - t.Cost()).(trades := other.trades + [t])
  {
    var a, b, c := [Start(0, Place(t))], Script(1, op), [Go(0), Go(0)];
    var w1 := Step(Fresh(db), a[0]);
    assert w1.flights == map[0 := BalanceRead(t, db.bank[t.pair].current)];
    assert w1.begun == map[0 := Place(t)];
    ExecConcat(Fresh(db), a + b, c);
    ExecConcat(Fresh(db), a, b);
    assert Exec(Fresh(db), a) == w1;
    Uninterrupted(w1, 1, op);
    var w2 := Exec(w1, b);
    var w3 := Step(w2, Go(0));
    assert w3.flights == map[0 := StakeTaken(t)];
    assert c[1..] == [Go(0)];
    assert Exec(w2, c) == Step(w3, Go(0));
  }

  /** A fee charged inside a placement disappears, unless it was zero. */
  lemma FeeInsideLost(db: Db, t: Trade, amount: real)
    requires t.pair in db.bank && db.bank[t.pair].current >= t.Cost()
    ensures Explained(Exec(Fresh(db), InsidePlacement(t, Fee(t.pair, amount))).db, db, Place(t), Fee(t.pair, amount))
       <==> amount == 0.0
  {
    InsidePlacementEnd(db, t, Fee(t.pair, amount));
    Pairwise(db, Place(t), Fee(t.pair, amount));
    Pairwise(db, Fee(t.pair, amount), Place(t));
    var end := Exec(Fresh(db), InsidePlacement(t, Fee(t.pair, amount))).db;
    assert end.bank[t.pair].current == db.bank[t.pair].current - t.Cost();
    assert end.bank == Reserve(db, t).0.bank;
    if amount == 0.0 {
      assert Deduct(db, t.pair, amount).bank == db.bank;
    }
  }

  /** What a settlement inside a placement pays back is lost, unless it pays nothing. */
  lemma SettleInsideLost(db: Db, t: Trade, id: nat, outcome: Outcome, pnl: real)
    requires t.pair in db.bank && db.bank[t.pair].current >= t.Cost()
    requires id < |db.trades| && db.trades[id].pair == t.pair
    ensures Explained(Exec(Fresh(db), InsidePlacement(t, Settle(id, outcome, pnl))).db, db,
                      Place(t), Settle(id, outcome, pnl))
       <==> db.trades[id].Cost() + pnl == 0.0
  {
    var settle := Settle(id, outcome, pnl);
    InsidePlacementEnd(db, t, settle);
    var end := Exec(Fresh(db), InsidePlacement(t, settle)).db;
    Pairwise(db, Place(t), settle);
    Pairwise(db, settle, Place(t));
    PlaceFirst(db, t, id, outcome, pnl);
    SettleFirst(db, t, id, outcome, pnl);
    assert end.bank[t.pair].current == db.bank[t.pair].current - t.Cost();
    assert end.trades == Mark(db, id, outcome, pnl).trades + [t];
    if db.trades[id].Cost() + pnl == 0.0 {
      assert end.bank == Serial(db, [settle, Place(t)]).bank;
    }
  }

  /** A settlement reads the account; a placement runs; the settlement writes the account. */
  function InsideSettlement(t: Trade, id: nat, outcome: Outcome, pnl: real): seq<Event> {
    [Start(1, Settle(id, outcome, pnl)), Go(1), Go(1)] + Script(0, Place(t)) + [Go(1)]
  }

  /** A settlement stopped just before its last statement. */
  lemma HalfSettled(db: Db, id: nat, outcome: Outcome, pnl: real)
    requires id < |db.trades| && db.trades[id].pair in db.bank
    ensures var row := db.trades[id];
      var w := Exec(Fresh(db), [Start(1, Settle(id, outcome, pnl)), Go(1), Go(1)]);
      && w.db == Mark(db, id, outcome, pnl) && w.begun == map[1 := Settle(id, outcome, pnl)]
      && w.flights == map[1 := AccountRead(id, outcome, pnl, row, Some(db.bank[row.pair]))]
  {
    var op, row := Settle(id, outcome, pnl), db.trades[id];
    var w1 := Step(Fresh(db), Start(1, op));
    assert w1.db == db && w1.flights == map[1 := RowRead(id, outcome, pnl, row)];
    var w2 := Step(w1, Go(1));
    assert w2.db == Mark(db, id, outcome, pnl) && w2.flights == map[1 := RowMarked(id, outcome, pnl, row)];
    var a := [Start(1, op), Go(1), Go(1)];
    assert a[1..] == [Go(1), Go(1)] && a[1..][1..] == [Go(1)] && [Go(1)][1..] == [];
    assert Exec(Fresh(db), a) == Exec(w1, [Go(1), Go(1)]) == Exec(w2, [Go(1)]) == Step(w2, Go(1));
  }

  lemma InsideSettlementEnd(db: Db, t: Trade, id: nat, outcome: Outcome, pnl: real)
    requires t.pair in db.bank && db.bank[t.pair].current >= t.Cost()
    requires id < |db.trades| && db.trades[id].pair == t.pair
    ensures var end := Exec(Fresh(db), InsideSettlement(t, id, outcome, pnl)).db;
      && end.trades == Mark(db, id, outcome, pnl).trades + [t] && end.dead == db.dead
      && end.bank == db.bank[t.pair := Credited(db.bank[t.pair], db.trades[id].Cost() + pnl)]
  {
    var a, b, c := [Start(1, Settle(id, outcome, pnl)), Go(1), Go(1)], Script(0, Place(t)), [Go(1)];
    HalfSettled(db, id, outcome, pnl);
    var w := Exec(Fresh(db), a);
    ExecConcat(Fresh(db), a + b, c);
    ExecConcat(Fresh(db), a, b);
    Uninterrupted(w, 0, Place(t));
    assert Exec(Exec(w, b), c) == Step(Exec(w, b), Go(1));
  }

  /** The trade is then held without having been paid for, unless it was free. */
  lemma PlaceInsideLost(db: Db, t: Trade, id: nat, outcome: Outcome, pnl: real)
    requires t.pair in db.bank && db.bank[t.pair].current >= t.Cost()
    requires id < |db.trades| && db.trades[id].pair == t.pair
    ensures Explained(Exec(Fresh(db), InsideSettlement(t, id, outcome, pnl)).db, db,
                      Place(t), Settle(id, outcome, pnl))
       <==> t.Cost() == 0.0
  {
    var settle := Settle(id, outcome, pnl);
    InsideSettlementEnd(db, t, id, outcome, pnl);
    var end := Exec(Fresh(db), InsideSettlement(t, id, outcome, pnl)).db;
    Pairwise(db, Place(t), settle);
    Pairwise(db, settle, Place(t));
    PlaceFirst(db, t, id, outcome, pnl);
    SettleFirst(db, t, id, outcome, pnl);
    assert end.bank[t.pair].current == db.bank[t.pair].current + (db.trades[id].Cost() + pnl);
    if t.Cost() == 0.0 {
      assert end.bank == Serial(db, [Place(t), settle]).bank;
    }
  }

  /** A settlement reads the account; the bot's fee is charged; the settlement writes the account. */
  function FeeInside(id: nat, outcome: Outcome, pnl: real, p: Pair, amount: real): seq<Event> {
    [Start(1, Settle(id, outcome, pnl)), Go(1), Go(1)] + Script(0, Fee(p, amount)) + [Go(1)]
  }

  lemma FeeInsideEnd(db: Db, id: nat, outcome: Outcome, pnl: real, amount: real)
    requires id < |db.trades| && db.trades[id].pair in db.bank
    ensures var t := db.trades[id];
      Exec(Fresh(db), FeeInside(id, outcome, pnl, t.pair, amount)).db
      == Mark(db, id, outcome, pnl).(bank := db.bank[t.pair := Credited(db.bank[t.pair], t.Cost() + pnl)])
  {
    var p := db.trades[id].pair;
    var a, b, c := [Start(1, Settle(id, outcome, pnl)), Go(1), Go(1)], Script(0, Fee(p, amount)), [Go(1)];
    HalfSettled(db, id, outcome, pnl);
    var w := Exec(Fresh(db), a);
    ExecConcat(Fresh(db), a + b, c);
    ExecConcat(Fresh(db), a, b);
    Uninterrupted(w, 0, Fee(p, amount));
    assert Exec(Exec(w, b), c) == Step(Exec(w, b), Go(1));
  }

  /**
   The overlap a bot and the resolver can really run into: gas charged between the resolver's read
   and its write is paid back by that write, unless it was zero.
   */
  lemma FeeInsideSettlementLost(db: Db, id: nat, outcome: Outcome, pnl: real, amount: real)
    requires id < |db.trades| && db.trades[id].pair in db.bank
    ensures var p := db.trades[id].pair;
      Explained(Exec(Fresh(db), FeeInside(id, outcome, pnl, p, amount)).db, db,
                Settle(id, outcome, pnl), Fee(p, amount))
      <==> amount == 0.0
  {
    var t := db.trades[id];
    var settle, fee := Settle(id, outcome, pnl), Fee(t.pair, amount);
    FeeInsideEnd(db, id, outcome, pnl, amount);
    Pairwise(db, settle, fee);
    Pairwise(db, fee, settle);
    var end := Exec(Fresh(db), FeeInside(id, outcome, pnl, t.pair, amount)).db;
    assert end.bank[t.pair].current == db.bank[t.pair].current + (t.Cost() + pnl);
    if amount == 0.0 {
      assert end.bank == Serial(db, [settle, fee]).bank;
    }
  }

  lemma PlaceFirst(db: Db, t: Trade, id: nat, outcome: Outcome, pnl: real)
    requires t.pair in db.bank && db.bank[t.pair].current >= t.Cost()
    requires id < |db.trades| && db.trades[id].pair == t.pair
    ensures var a, paid := db.bank[t.pair], db.trades[id].Cost() + pnl;
      var end := Whole(Whole(db, Place(t)), Settle(id, outcome, pnl));
      && end.trades == Mark(db, id, outcome, pnl).trades + [t] && end.dead == db.dead
      && end.bank == db.bank[t.pair := Account(a.current - t.Cost() + paid, Max(a.peak, a.current - t.Cost() + paid))]
  {
  }

  lemma SettleFirst(db: Db, t: Trade, id: nat, outcome: Outcome, pnl: real)
    requires t.pair in db.bank && id < |db.trades| && db.trades[id].pair == t.pair
    ensures var a, paid := db.bank[t.pair], db.trades[id].Cost() + pnl;
      var end := Whole(Whole(db, Settle(id, outcome, pnl)), Place(t));
      && end.dead == db.dead
      && (if a.current + paid < t.Cost() then end.trades == Mark(db, id, outcome, pnl).trades
          else && end.trades == Mark(db, id, outcome, pnl).trades + [t]
               && end.bank == db.bank[t.pair := Account(a.current + paid - t.Cost(), Max(a.peak, a.current + paid))])
  {
  }
}
