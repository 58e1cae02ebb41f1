/** The studio advisory locks that keep materialised inventory and physical layout in step, with
    every SQL statement of a transaction as a step of its own. Committed tables are visible to
    all; a transaction's writes take effect at commit; an abort is possible at any point. Lock
    keys of different studios are taken not to collide. */
module LayoutLocks {
  import opened Common

  type Id = nat

  datatype Kind =
    | InsertSeat(seat: Id, studio: Id)
    | UpdateSeat(seat: Id, studio: Id, fieldsDiffer: bool)
    | DeleteSeat(seat: Id)
    | CreateShowtime(showtime: Id, studio: Id)
    | UpdateShowtime(showtime: Id, studio: Id)
    | DeleteShowtime(showtime: Id)

  datatype Row = SeatRow(seat: Id) | ShowtimeRow(showtime: Id)

  /** How far the statements of a transaction have got. */
  datatype Phase =
    | Begun
    | Locking(todo: seq<Id>)          // inside lock_studio_layout
    | Checked                         // no showtime exists in the seat's studios
    | Cleared(stamp: nat)             // DELETE FROM showtime_seats saw this inventory
    | Written                         // the seat or showtime row is written
    | Materialised(rows: set<Id>)     // INSERT INTO showtime_seats ... SELECT FROM seats

  /** `prior` is OLD.studio_id once the row is locked. */
  datatype Tx = Tx(kind: Kind, phase: Phase, prior: Id, held: set<Id>, owns: Option<Row>)

  datatype Inventory = Inventory(stamp: nat, seats: set<Id>)

  datatype Db = Db(seats: map<Id, Id>, showtimes: map<Id, Id>, inventory: map<Id, Inventory>, txs: map<Id, Tx>,
                   clock: nat)

  const EMPTY := Db(map[], map[], map[], map[], 0)

  datatype Action =
    | Begin(t: Id, kind: Kind)
    | LockRow(t: Id)
    | TakeLock(t: Id)
    | Check(t: Id)
    | Clear(t: Id)
    | Write(t: Id)
    | Materialise(t: Id)
    | Commit(t: Id)
    | Abort(t: Id)

  /** lock_studio_layout: one lock, or two in ascending order. */
  function LockOrder(a: Id, b: Id): seq<Id> {
    if a == b then [a] else if a < b then [a, b] else [b, a]
  }

  function RowOf(kind: Kind): Row {
    match kind
    case InsertSeat(seat, _) => SeatRow(seat)
    case UpdateSeat(seat, _, _) => SeatRow(seat)
    case DeleteSeat(seat) => SeatRow(seat)
    case CreateShowtime(showtime, _) => ShowtimeRow(showtime)
    case UpdateShowtime(showtime, _) => ShowtimeRow(showtime)
    case DeleteShowtime(showtime) => ShowtimeRow(showtime)
  }

  predicate IsSeatOp(kind: Kind) {
    kind.InsertSeat? || kind.UpdateSeat? || kind.DeleteSeat?
  }

  /** The trigger returns early for an update that changes no layout field. */
  predicate Immaterial(tx: Tx) {
    tx.kind.UpdateSeat? && tx.kind.studio == tx.prior && !tx.kind.fieldsDiffer
  }

  /** The studios whose locks the trigger takes. */
  function Needs(tx: Tx): set<Id> {
    match tx.kind
    case InsertSeat(_, studio) => {studio}
    case UpdateSeat(_, studio, _) => {tx.prior, studio}
    case DeleteSeat(_) => {tx.prior}
    case CreateShowtime(_, studio) => {studio}
    case UpdateShowtime(_, studio) => {tx.prior, studio}
    case DeleteShowtime(_) => {}
  }

  function Todo(kind: Kind, prior: Id): seq<Id> {
    match kind
    case InsertSeat(_, studio) => [studio]
    case UpdateSeat(_, studio, _) => LockOrder(prior, studio)
    case DeleteSeat(_) => [prior]
    case CreateShowtime(_, studio) => [studio]
    case UpdateShowtime(_, studio) => LockOrder(prior, studio)
    case DeleteShowtime(_) => []
  }

  predicate Exists(db: Db, row: Row) {
    match row
    case SeatRow(seat) => seat in db.seats
    case ShowtimeRow(showtime) => showtime in db.showtimes
  }

  function StudioOf(db: Db, row: Row): Id
    requires Exists(db, row)
  {
    match row
    case SeatRow(seat) => db.seats[seat]
    case ShowtimeRow(showtime) => db.showtimes[showtime]
  }

  predicate RowFree(db: Db, row: Row) {
    forall t | t in db.txs :: db.txs[t].owns != Some(row)
  }

  predicate LockFree(db: Db, studio: Id) {
    forall t | t in db.txs :: studio !in db.txs[t].held
  }

  predicate ShowtimeIn(db: Db, studios: set<Id>) {
    exists p :: p in db.showtimes && db.showtimes[p] in studios
  }

  function SeatsOf(seats: map<Id, Id>, studio: Id): set<Id> {
    set x | x in seats && seats[x] == studio
  }

  /** The row statement itself: unique keys, row locks, and for a deleted showtime the foreign
      key from inventory rows that appeared after its own were deleted. */
  predicate CanWrite(db: Db, tx: Tx) {
    match tx.kind
    case InsertSeat(_, _) => tx.phase == Checked && !Exists(db, RowOf(tx.kind)) && RowFree(db, RowOf(tx.kind))
    case UpdateSeat(_, _, _) => tx.phase == Checked
    case DeleteSeat(_) => tx.phase == Checked
    case CreateShowtime(_, _) => tx.phase == Locking([]) && !Exists(db, RowOf(tx.kind)) && RowFree(db, RowOf(tx.kind))
    case UpdateShowtime(_, _) => tx.phase == Locking([])
    case DeleteShowtime(showtime) =>
      && tx.phase.Cleared? && Exists(db, RowOf(tx.kind)) && RowFree(db, RowOf(tx.kind))
      && showtime in db.inventory
      && (db.inventory[showtime].stamp == tx.phase.stamp || db.inventory[showtime].seats == {})
  }

  /** A statement may run now: it is the transaction's next one and nothing blocks or fails it. */
  predicate Enabled(db: Db, a: Action) {
    match a
    case Begin(t, _) => t !in db.txs
    case LockRow(t) =>
      && t in db.txs && db.txs[t].phase == Begun && !db.txs[t].kind.DeleteShowtime?
      && (db.txs[t].kind.InsertSeat? || db.txs[t].kind.CreateShowtime?
          || (Exists(db, RowOf(db.txs[t].kind)) && RowFree(db, RowOf(db.txs[t].kind))))
    case TakeLock(t) =>
      t in db.txs && db.txs[t].phase.Locking? && db.txs[t].phase.todo != [] && LockFree(db, db.txs[t].phase.todo[0])
    case Check(t) =>
      && t in db.txs && IsSeatOp(db.txs[t].kind) && db.txs[t].phase == Locking([])
      && !ShowtimeIn(db, Needs(db.txs[t]))
    case Clear(t) => t in db.txs && db.txs[t].kind.DeleteShowtime? && db.txs[t].phase == Begun
    case Write(t) =>
      && t in db.txs
      && CanWrite(db, db.txs[t])
    case Materialise(t) =>
      t in db.txs && (db.txs[t].kind.CreateShowtime? || db.txs[t].kind.UpdateShowtime?) && db.txs[t].phase == Written
    case Commit(t) =>
      && t in db.txs
      && (if db.txs[t].kind.CreateShowtime? || db.txs[t].kind.UpdateShowtime?
          then db.txs[t].phase.Materialised? else db.txs[t].phase == Written)
    case Abort(t) => t in db.txs
  }

  function AfterRowLock(db: Db, tx: Tx): Tx
    requires tx.kind.InsertSeat? || tx.kind.CreateShowtime? || Exists(db, RowOf(tx.kind))
  {
    if tx.kind.InsertSeat? || tx.kind.CreateShowtime? then tx.(phase := Locking(Todo(tx.kind, tx.prior)))
    else
      var locked := tx.(prior := StudioOf(db, RowOf(tx.kind)), owns := Some(RowOf(tx.kind)));
      if Immaterial(locked) then locked.(phase := Written) else locked.(phase := Locking(Todo(tx.kind, locked.prior)))
  }

  /** What a commit makes visible. */
  function Publish(db: Db, tx: Tx): Db {
    match tx.kind
    case InsertSeat(seat, studio) => db.(seats := db.seats[seat := studio])
    case UpdateSeat(seat, studio, _) => db.(seats := db.seats[seat := studio])
    case DeleteSeat(seat) => db.(seats := db.seats - {seat})
    case CreateShowtime(showtime, studio) => PublishShowtime(db, showtime, studio, tx.phase)
    case UpdateShowtime(showtime, studio) => PublishShowtime(db, showtime, studio, tx.phase)
    case DeleteShowtime(showtime) => db.(showtimes := db.showtimes - {showtime}, inventory := db.inventory - {showtime})
  }

  function PublishShowtime(db: Db, showtime: Id, studio: Id, phase: Phase): Db {
    if phase.Materialised?
    then db.(showtimes := db.showtimes[showtime := studio],
             inventory := db.inventory[showtime := Inventory(db.clock, phase.rows)], clock := db.clock + 1)
    else db
  }

  function SetTx(db: Db, t: Id, tx: Tx): Db {
    db.(txs := db.txs[t := tx])
  }

  function Step(db: Db, a: Action): Db
    requires Enabled(db, a)
  {
    match a
    case Begin(t, kind) => SetTx(db, t, Tx(kind, Begun, 0, {}, None))
    case LockRow(t) => SetTx(db, t, AfterRowLock(db, db.txs[t]))
    case TakeLock(t) =>
      var tx := db.txs[t];
      SetTx(db, t, tx.(held := tx.held + {tx.phase.todo[0]}, phase := Locking(tx.phase.todo[1..])))
    case Check(t) => SetTx(db, t, db.txs[t].(phase := Checked))
    case Clear(t) =>
      var p := db.txs[t].kind.showtime;
      SetTx(db, t, db.txs[t].(phase := Cleared(if p in db.inventory then db.inventory[p].stamp else 0)))
    case Write(t) => SetTx(db, t, db.txs[t].(phase := Written, owns := Some(RowOf(db.txs[t].kind))))
    case Materialise(t) => SetTx(db, t, db.txs[t].(phase := Materialised(SeatsOf(db.seats, db.txs[t].kind.studio))))
    case Commit(t) => Publish(db, db.txs[t]).(txs := db.txs - {t})
    case Abort(t) => db.(txs := db.txs - {t})
  }

  // ----- the invariant

  /** Every committed showtime's inventory is exactly the current seats of its studio. */
  predicate InventoryMatches(db: Db) {
    && db.inventory.Keys == db.showtimes.Keys
    && forall p | p in db.showtimes :: db.inventory[p].seats == SeatsOf(db.seats, db.showtimes[p])
  }

  predicate LocksExclusive(db: Db) {
    forall t, u | t in db.txs && u in db.txs && t != u :: db.txs[t].held !! db.txs[u].held
  }

  predicate RowsExclusive(db: Db) {
    forall t, u | t in db.txs && u in db.txs && t != u && db.txs[t].owns.Some? :: db.txs[t].owns != db.txs[u].owns
  }

  /** What a single transaction knows. */
  ghost predicate TxOk(db: Db, tx: Tx) {
    && (tx.owns.Some? ==> tx.owns.value == RowOf(tx.kind))
    && (tx.phase == Begun || tx.phase.Cleared? ==> tx.held == {} && tx.owns == None)
    && (tx.kind.DeleteShowtime? ==> tx.held == {})
    && (tx.kind.UpdateShowtime? && tx.phase != Begun ==> tx.owns == Some(RowOf(tx.kind)))
    && (tx.phase.Locking? ==>
          && StrictlyAscending(tx.phase.todo) && tx.held + Elements(tx.phase.todo) == Needs(tx)
          && forall l, i | l in tx.held && 0 <= i < |tx.phase.todo| :: l < tx.phase.todo[i])
    && (tx.phase in {Checked, Written} || tx.phase.Materialised? ==> tx.held == Needs(tx) || Immaterial(tx))
    && ((tx.kind.UpdateSeat? || tx.kind.DeleteSeat?) && tx.phase != Begun ==>
          tx.owns == Some(RowOf(tx.kind)) && Exists(db, RowOf(tx.kind)) && StudioOf(db, RowOf(tx.kind)) == tx.prior)
    && (tx.phase == Written || tx.phase.Materialised? ==> tx.owns == Some(RowOf(tx.kind)))
    && (IsSeatOp(tx.kind) && tx.phase in {Checked, Written} && !Immaterial(tx) ==> !ShowtimeIn(db, Needs(tx)))
    && (tx.kind.InsertSeat? && tx.phase == Written ==> tx.kind.seat !in db.seats)
    && (tx.phase.Materialised? ==>
          && (tx.kind.CreateShowtime? || tx.kind.UpdateShowtime?)
          && tx.phase.rows == SeatsOf(db.seats, tx.kind.studio))
  }

  ghost predicate Inv(db: Db) {
    && InventoryMatches(db) && LocksExclusive(db) && RowsExclusive(db)
    && forall t | t in db.txs :: TxOk(db, db.txs[t])
  }

  // ----- every statement keeps it

  lemma SetTxKeeps(db: Db, t: Id, tx: Tx)
    requires Inv(db) && TxOk(db, tx)
    requires forall u | u in db.txs && u != t ::
      tx.held !! db.txs[u].held && (tx.owns.Some? ==> tx.owns != db.txs[u].owns)
    ensures Inv(SetTx(db, t, tx))
  {
    var next := SetTx(db, t, tx);
    forall u | u in next.txs ensures TxOk(next, next.txs[u]) {
      if u != t { assert TxOk(db, db.txs[u]); }
      SameTables(db, next, next.txs[u]);
    }
    hide TxOk;
  }

  /** A transaction's knowledge depends on the committed tables only. */
  lemma SameTables(a: Db, b: Db, tx: Tx)
    requires a.seats == b.seats && a.showtimes == b.showtimes && a.inventory == b.inventory
    ensures TxOk(a, tx) <==> TxOk(b, tx)
  {
    assert forall row :: Exists(a, row) == Exists(b, row);
    assert ShowtimeIn(a, Needs(tx)) == ShowtimeIn(b, Needs(tx));
  }

  lemma LockRowKeeps(db: Db, t: Id)
    requires Inv(db) && Enabled(db, LockRow(t))
    ensures Inv(Step(db, LockRow(t)))
  {
    var tx := db.txs[t];
    assert TxOk(db, tx);
    hide Inv;
    SetTxKeeps(db, t, AfterRowLock(db, tx));
  }

  lemma TakeLockKeeps(db: Db, t: Id)
    requires Inv(db) && Enabled(db, TakeLock(t))
    ensures Inv(Step(db, TakeLock(t)))
  {
    var tx := db.txs[t];
    var todo := tx.phase.todo;
    var next := tx.(held := tx.held + {todo[0]}, phase := Locking(todo[1..]));
    assert TxOk(db, tx) && LocksExclusive(db) && RowsExclusive(db);
    TailElements(todo);
    assert todo[0] in Elements(todo);
    assert next.held + Elements(todo[1..]) == tx.held + Elements(todo);
    hide Inv;
    SetTxKeeps(db, t, next);
  }

  lemma OwnStepKeeps(db: Db, a: Action)
    requires Inv(db) && Enabled(db, a) && (a.Begin? || a.Check? || a.Clear? || a.Materialise?)
    ensures Inv(Step(db, a))
  {
    assert LocksExclusive(db) && RowsExclusive(db);
    if !a.Begin? { assert TxOk(db, db.txs[a.t]); }
    SetTxKeeps(db, a.t, Step(db, a).txs[a.t]);
    hide TxOk, Inv;
  }

  lemma WriteKeeps(db: Db, t: Id)
    requires Inv(db) && Enabled(db, Write(t))
    ensures Inv(Step(db, Write(t)))
  {
    var tx := db.txs[t];
    assert TxOk(db, tx) && LocksExclusive(db) && RowsExclusive(db);
    hide Inv;
    SetTxKeeps(db, t, tx.(phase := Written, owns := Some(RowOf(tx.kind))));
  }

  lemma AbortKeeps(db: Db, t: Id)
    requires Inv(db) && Enabled(db, Abort(t))
    ensures Inv(Step(db, Abort(t)))
  {
    var next := Step(db, Abort(t));
    forall u | u in next.txs ensures TxOk(next, next.txs[u]) {
      assert TxOk(db, db.txs[u]);
      SameTables(db, next, next.txs[u]);
    }
    hide TxOk;
  }

  /** Publishing a seat row: no showtime is in its studios and no other transaction holds their
      locks, so no inventory, committed or in the making, can disagree. */
  lemma SeatCommitKeepsOthers(db: Db, tx: Tx, other: Tx)
    requires TxOk(db, tx) && TxOk(db, other) && InventoryMatches(db)
    requires IsSeatOp(tx.kind) && tx.phase == Written
    requires tx.held !! other.held && tx.owns != other.owns
    ensures TxOk(Publish(db, tx), other)
  {
    var next := Publish(db, tx);
    if Immaterial(tx) {
      assert next.seats == db.seats;
      SameTables(db, next, other);
    } else {
      assert ShowtimeIn(db, Needs(other)) == ShowtimeIn(next, Needs(other));
      if other.phase.Materialised? {
        assert other.kind.studio in other.held;
        assert SeatsOf(next.seats, other.kind.studio) == SeatsOf(db.seats, other.kind.studio);
      }
    }
  }

  lemma SeatCommitKeepsInventory(db: Db, tx: Tx)
    requires TxOk(db, tx) && InventoryMatches(db) && IsSeatOp(tx.kind) && tx.phase == Written
    ensures InventoryMatches(Publish(db, tx))
  {
    var next := Publish(db, tx);
    if Immaterial(tx) {
      assert next.seats == db.seats;
    } else {
      forall p | p in db.showtimes ensures SeatsOf(next.seats, db.showtimes[p]) == SeatsOf(db.seats, db.showtimes[p]) {
        assert db.showtimes[p] !in Needs(tx);
      }
    }
  }

  /** Publishing a showtime: its studio's lock is held, so no seat transaction has passed its check. */
  lemma ShowtimeCommitKeepsOthers(db: Db, tx: Tx, other: Tx)
    requires TxOk(db, tx) && TxOk(db, other) && tx.phase.Materialised?
    requires tx.held !! other.held && tx.owns != other.owns
    ensures TxOk(Publish(db, tx), other)
  {
    var next := Publish(db, tx);
    if IsSeatOp(other.kind) && other.phase in {Checked, Written} && !Immaterial(other) {
      assert tx.kind.studio in tx.held;
      assert !ShowtimeIn(next, Needs(other)) by {
        forall p | p in next.showtimes ensures next.showtimes[p] !in Needs(other) {
          assert p in db.showtimes || p == tx.kind.showtime;
        }
      }
    }
  }

  lemma ShowtimeDeleteKeepsOthers(db: Db, tx: Tx, other: Tx)
    requires TxOk(db, tx) && TxOk(db, other) && tx.kind.DeleteShowtime?
    ensures TxOk(Publish(db, tx), other)
  {
    var next := Publish(db, tx);
    assert ShowtimeIn(next, Needs(other)) ==> ShowtimeIn(db, Needs(other));
  }

  lemma CommitKeeps(db: Db, t: Id)
    requires Inv(db) && Enabled(db, Commit(t))
    ensures Inv(Step(db, Commit(t)))
  {
    var tx := db.txs[t];
    var visible, next := Publish(db, tx), Step(db, Commit(t));
    assert TxOk(db, tx) && InventoryMatches(db);
    if IsSeatOp(tx.kind) { SeatCommitKeepsInventory(db, tx); }
    assert InventoryMatches(next);
    forall u | u in next.txs ensures TxOk(next, next.txs[u]) {
      var other := db.txs[u];
      assert TxOk(db, other) && u != t;
      assert tx.held !! other.held && tx.owns != other.owns;
      hide TxOk, Inv, Publish;
      if IsSeatOp(tx.kind) { SeatCommitKeepsOthers(db, tx, other); }
      else if tx.kind.DeleteShowtime? { ShowtimeDeleteKeepsOthers(db, tx, other); }
      else { ShowtimeCommitKeepsOthers(db, tx, other); }
      SameTables(visible, next, other);
    }
  }

  lemma StepKeeps(db: Db, a: Action)
    requires Inv(db) && Enabled(db, a)
    ensures Inv(Step(db, a))
  {
    hide *;
    match a
    case LockRow(t) => LockRowKeeps(db, t);
    case TakeLock(t) => TakeLockKeeps(db, t);
    case Write(t) => WriteKeeps(db, t);
    case Commit(t) => CommitKeeps(db, t);
    case Abort(t) => AbortKeeps(db, t);
    case _ => OwnStepKeeps(db, a);
  }

  // ----- whole interleavings

  ghost predicate Interleaving(db: Db, actions: seq<Action>)
    decreases |actions|
  {
    actions == [] || (Enabled(db, actions[0]) && Interleaving(Step(db, actions[0]), actions[1..]))
  }

  ghost function After(db: Db, actions: seq<Action>): Db
    requires Interleaving(db, actions)
    decreases |actions|
  {
    if actions == [] then db else After(Step(db, actions[0]), actions[1..])
  }

  /** Every statement-level interleaving of seat and showtime transactions leaves committed tables
      in which each showtime's inventory matches its studio's layout. */
  lemma {:induction false} InterleavingsMatch(db: Db, actions: seq<Action>)
    requires Inv(db) && Interleaving(db, actions)
    ensures Inv(After(db, actions)) && InventoryMatches(After(db, actions))
    decreases |actions|
  {
    if actions != [] {
      StepKeeps(db, actions[0]);
      InterleavingsMatch(Step(db, actions[0]), actions[1..]);
    }
  }

  // ----- no wait cycle among studio locks

  /** `t` waits for a studio lock that `u` holds. */
  predicate WaitsFor(db: Db, t: Id, u: Id) {
    && t in db.txs && u in db.txs
    && db.txs[t].phase.Locking? && db.txs[t].phase.todo != [] && db.txs[t].phase.todo[0] in db.txs[u].held
  }

  predicate WaitChain(db: Db, chain: seq<Id>) {
    forall i | 0 <= i < |chain| - 1 :: WaitsFor(db, chain[i], chain[i + 1])
  }

  /** The lock a transaction is about to take, where it is about to take one. */
  function Awaited(db: Db, t: Id): Id {
    if t in db.txs && db.txs[t].phase.Locking? && db.txs[t].phase.todo != [] then db.txs[t].phase.todo[0] else 0
  }

  /** Along a chain of waiting transactions the awaited locks strictly ascend. */
  lemma {:induction false} AwaitedLocksAscend(db: Db, chain: seq<Id>)
    requires Inv(db) && |chain| >= 3
    requires WaitChain(db, chain)
    ensures Awaited(db, chain[0]) < Awaited(db, chain[|chain| - 2])
    decreases |chain|
  {
    var u := chain[|chain| - 2];
    assert WaitsFor(db, chain[|chain| - 3], chain[|chain| - 3 + 1]) && WaitsFor(db, u, chain[|chain| - 2 + 1]);
    assert TxOk(db, db.txs[u]);
    if |chain| > 3 {
      var front := chain[..|chain| - 1];
      AwaitedLocksAscend(db, front);
    }
  }

  /** Transactions waiting for one another's studio locks never form a cycle. */
  lemma NoStudioLockCycle(db: Db, chain: seq<Id>)
    requires Inv(db) && |chain| >= 2
    requires WaitChain(db, chain)
    ensures chain[0] != chain[|chain| - 1]
  {
    if chain[0] == chain[|chain| - 1] {
      var closed := chain + [chain[1]];
      assert WaitsFor(db, chain[0], chain[0 + 1]);
      AwaitedLocksAscend(db, closed);
    }
  }

  /** From an empty database, whatever statements run in whatever order: the committed inventory
      matches the layout, and no transactions wait for one another's studio locks in a circle. */
  lemma StudioLocksProtectInventory(actions: seq<Action>, chain: seq<Id>)
    requires Interleaving(EMPTY, actions)
    ensures InventoryMatches(After(EMPTY, actions))
    ensures |chain| >= 2 && WaitChain(After(EMPTY, actions), chain)
      ==> chain[0] != chain[|chain| - 1]
  {
    assert Inv(EMPTY);
    InterleavingsMatch(EMPTY, actions);
    if |chain| >= 2 && WaitChain(After(EMPTY, actions), chain) {
      NoStudioLockCycle(After(EMPTY, actions), chain);
    }
  }
}
