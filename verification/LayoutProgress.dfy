/** That the studio locks let work through: what a committed transaction did, that a transaction with
    the database to itself commits whenever the layout rules allow it, and that the locks never stop
    everyone. */
module LayoutProgress {
  import opened Common
  import opened LayoutLocks

  // ----- what a commit did

  /** The studios whose layout the transaction changes are without showtimes. */
  predicate Unscheduled(db: Db, studios: set<Id>) {
    forall p | p in db.showtimes :: db.showtimes[p] !in studios
  }

  /** A commit of a seat statement changed that seat's row alone, and the seat's studios, before and
      after, have no showtimes unless its layout stayed as it was. */
  lemma SeatCommitTells(db: Db, t: Id)
    requires Inv(db) && Enabled(db, Commit(t)) && IsSeatOp(db.txs[t].kind)
    ensures var kind, next := db.txs[t].kind, Step(db, Commit(t));
      && next.showtimes == db.showtimes && next.inventory == db.inventory && next.txs == db.txs - {t}
      && match kind
         case InsertSeat(seat, studio) =>
           seat !in db.seats && Unscheduled(db, {studio}) && next.seats == db.seats[seat := studio]
         case UpdateSeat(seat, studio, differ) =>
           && seat in db.seats && next.seats == db.seats[seat := studio]
           && ((db.seats[seat] == studio && !differ) || Unscheduled(db, {db.seats[seat], studio}))
         case DeleteSeat(seat) =>
           seat in db.seats && Unscheduled(db, {db.seats[seat]}) && next.seats == db.seats - {seat}
         case _ => false
  {
    var tx := db.txs[t];
    assert TxOk(db, tx);
    hide Inv;
  }

  /** A commit of a showtime statement put the showtime in its studio with exactly the seats that the
      studio has, or took it away. */
  lemma ShowtimeCommitTells(db: Db, t: Id)
    requires Inv(db) && Enabled(db, Commit(t)) && !IsSeatOp(db.txs[t].kind)
    ensures var kind, next := db.txs[t].kind, Step(db, Commit(t));
      && next.seats == db.seats && next.txs == db.txs - {t}
      && match kind
         case CreateShowtime(showtime, studio) => Shown(db, next, showtime, studio)
         case UpdateShowtime(showtime, studio) => Shown(db, next, showtime, studio)
         case DeleteShowtime(showtime) =>
           next.showtimes == db.showtimes - {showtime} && next.inventory == db.inventory - {showtime}
         case _ => false
  {
    var tx := db.txs[t];
    assert TxOk(db, tx);
    hide Inv;
  }

  ghost predicate Shown(db: Db, next: Db, showtime: Id, studio: Id) {
    && next.showtimes == db.showtimes[showtime := studio] && showtime in next.inventory
    && next.inventory == db.inventory[showtime := next.inventory[showtime]]
    && forall x :: x in next.inventory[showtime].seats <==> x in db.seats && db.seats[x] == studio
  }

  // ----- a transaction alone

  /** The layout rules let the transaction through. */
  predicate Allowed(db: Db, kind: Kind) {
    match kind
    case InsertSeat(seat, studio) => seat !in db.seats && Unscheduled(db, {studio})
    case UpdateSeat(seat, studio, differ) =>
      && seat in db.seats
      && ((db.seats[seat] == studio && !differ) || Unscheduled(db, {db.seats[seat], studio}))
    case DeleteSeat(seat) => seat in db.seats && Unscheduled(db, {db.seats[seat]})
    case CreateShowtime(showtime, _) => showtime !in db.showtimes
    case UpdateShowtime(showtime, _) => showtime in db.showtimes
    case DeleteShowtime(showtime) => showtime in db.showtimes
  }

  /** The transaction gets from one database to another by its own statements, without aborting. */
  ghost predicate GetsTo(db: Db, t: Id, end: Db) {
    exists actions :: Interleaving(db, actions) && After(db, actions) == end && OwnStatements(actions, t)
  }

  predicate OwnStatements(actions: seq<Action>, t: Id) {
    forall i | 0 <= i < |actions| :: actions[i].t == t && !actions[i].Abort?
  }

  lemma Stays(db: Db, t: Id)
    ensures GetsTo(db, t, db)
  {
    assert Interleaving(db, []) && After(db, []) == db && OwnStatements([], t);
  }

  lemma GetsOn(db: Db, a: Action, t: Id, end: Db)
    requires Enabled(db, a) && a.t == t && !a.Abort? && GetsTo(Step(db, a), t, end)
    ensures GetsTo(db, t, end)
  {
    var actions :|
      Interleaving(Step(db, a), actions) && After(Step(db, a), actions) == end && OwnStatements(actions, t);
    var longer := [a] + actions;
    assert longer[1..] == actions;
    hide Enabled, Step;
    assert Interleaving(db, longer) && After(db, longer) == end;
    assert OwnStatements(longer, t);
  }

  /** One transaction at work in an otherwise idle database. */
  predicate Alone(db: Db, t: Id) {
    db.txs.Keys == {t}
  }

  /** With its locks still to be taken, it takes them all. */
  lemma {:induction false} TakesLocks(db: Db, t: Id, end: Db)
    requires Alone(db, t) && db.txs[t].phase.Locking? && StrictlyAscending(db.txs[t].phase.todo)
    requires db.txs[t].held !! Elements(db.txs[t].phase.todo)
    requires GetsTo(SetTx(db, t, Locked(db.txs[t])), t, end)
    ensures GetsTo(db, t, end)
    decreases |db.txs[t].phase.todo|
  {
    var tx := db.txs[t];
    var todo := tx.phase.todo;
    if todo == [] {
      assert Locked(tx) == tx && SetTx(db, t, tx) == db;
    } else {
      var next := Step(db, TakeLock(t));
      assert todo[0] in Elements(todo);
      TailElements(todo);
      assert Locked(next.txs[t]) == Locked(tx);
      assert SetTx(next, t, Locked(tx)) == SetTx(db, t, Locked(tx));
      TakesLocks(next, t, end);
      GetsOn(db, TakeLock(t), t, end);
    }
  }

  function Locked(tx: Tx): Tx
    requires tx.phase.Locking?
  {
    tx.(held := tx.held + Elements(tx.phase.todo), phase := Locking([]))
  }

  ghost predicate Commits(db: Db, t: Id, kind: Kind) {
    exists end :: GetsTo(db, t, end) && Enabled(end, Commit(t)) && end.txs[t].kind == kind
                  && end.seats == db.seats && end.showtimes == db.showtimes && end.inventory == db.inventory
  }

  lemma CommitsLater(db: Db, a: Action, t: Id, kind: Kind)
    requires Enabled(db, a) && a.t == t && !a.Abort? && !a.Commit? && Commits(Step(db, a), t, kind)
    ensures Commits(db, t, kind)
  {
    var next := Step(db, a);
    assert next.seats == db.seats && next.showtimes == db.showtimes && next.inventory == db.inventory;
    var end :| GetsTo(next, t, end) && Enabled(end, Commit(t)) && end.txs[t].kind == kind
      && end.seats == next.seats && end.showtimes == next.showtimes && end.inventory == next.inventory;
    hide Enabled, Step, GetsTo;
    GetsOn(db, a, t, end);
  }

  lemma CommitsNow(db: Db, t: Id)
    requires Enabled(db, Commit(t))
    ensures Commits(db, t, db.txs[t].kind)
  {
    Stays(db, t);
    hide GetsTo, Enabled;
  }

  lemma SeatCommitsOnceLocked(db: Db, t: Id)
    requires Alone(db, t) && IsSeatOp(db.txs[t].kind) && db.txs[t].phase == Locking([])
    requires !ShowtimeIn(db, Needs(db.txs[t]))
    requires db.txs[t].kind.InsertSeat? ==> db.txs[t].kind.seat !in db.seats && db.txs[t].owns == None
    ensures Commits(db, t, db.txs[t].kind)
  {
    var checked := Step(db, Check(t));
    var written := Step(checked, Write(t));
    CommitsNow(written, t);
    CommitsLater(checked, Write(t), t, db.txs[t].kind);
    CommitsLater(db, Check(t), t, db.txs[t].kind);
  }

  lemma ShowtimeCommitsOnceLocked(db: Db, t: Id)
    requires Alone(db, t) && db.txs[t].phase == Locking([])
    requires db.txs[t].kind.UpdateShowtime?
      || (db.txs[t].kind.CreateShowtime? && db.txs[t].kind.showtime !in db.showtimes && db.txs[t].owns == None)
    ensures Commits(db, t, db.txs[t].kind)
  {
    var written := Step(db, Write(t));
    var full := Step(written, Materialise(t));
    CommitsNow(full, t);
    CommitsLater(written, Materialise(t), t, db.txs[t].kind);
    CommitsLater(db, Write(t), t, db.txs[t].kind);
  }

  lemma CommitsOnceLocked(db: Db, t: Id)
    requires Alone(db, t) && db.txs[t].phase.Locking? && StrictlyAscending(db.txs[t].phase.todo)
    requires db.txs[t].held == {} && Commits(SetTx(db, t, Locked(db.txs[t])), t, db.txs[t].kind)
    ensures Commits(db, t, db.txs[t].kind)
  {
    var locked, kind := SetTx(db, t, Locked(db.txs[t])), db.txs[t].kind;
    var end :| GetsTo(locked, t, end) && Enabled(end, Commit(t)) && end.txs[t].kind == kind
      && end.seats == locked.seats && end.showtimes == locked.showtimes && end.inventory == locked.inventory;
    hide Enabled, GetsTo;
    TakesLocks(db, t, end);
  }

  lemma LockOrderAscends(a: Id, b: Id)
    ensures StrictlyAscending(LockOrder(a, b))
  {
  }

  lemma SeatCommitsAlone(db: Db, t: Id, kind: Kind)
    requires Alone(db, t) && db.txs[t] == Tx(kind, Begun, 0, {}, None) && IsSeatOp(kind) && Allowed(db, kind)
    ensures Commits(db, t, kind)
  {
    assert RowFree(db, RowOf(kind));
    var rowed := Step(db, LockRow(t));
    var tx := rowed.txs[t];
    if tx.phase == Written {
      CommitsNow(rowed, t);
    } else {
      if kind.UpdateSeat? { LockOrderAscends(tx.prior, kind.studio); }
      var locked := SetTx(rowed, t, Locked(tx));
      assert !ShowtimeIn(locked, Needs(locked.txs[t]));
      SeatCommitsOnceLocked(locked, t);
      hide Commits;
      CommitsOnceLocked(rowed, t);
    }
    hide Commits;
    CommitsLater(db, LockRow(t), t, kind);
  }

  lemma ShowtimeCommitsAlone(db: Db, t: Id, kind: Kind)
    requires Alone(db, t) && db.txs[t] == Tx(kind, Begun, 0, {}, None) && !IsSeatOp(kind) && Allowed(db, kind)
    requires InventoryMatches(db)
    ensures Commits(db, t, kind)
  {
    assert RowFree(db, RowOf(kind));
    if kind.DeleteShowtime? {
      var cleared := Step(db, Clear(t));
      var written := Step(cleared, Write(t));
      CommitsNow(written, t);
      CommitsLater(cleared, Write(t), t, kind);
      CommitsLater(db, Clear(t), t, kind);
    } else {
      var rowed := Step(db, LockRow(t));
      var tx := rowed.txs[t];
      if kind.UpdateShowtime? { LockOrderAscends(tx.prior, kind.studio); }
      var locked := SetTx(rowed, t, Locked(tx));
      ShowtimeCommitsOnceLocked(locked, t);
      hide Commits;
      CommitsOnceLocked(rowed, t);
      CommitsLater(db, LockRow(t), t, kind);
    }
  }

  /** In an idle database whose inventory matches, every transaction that the layout rules allow can run
      to its commit. */
  lemma AllowedCommit(db: Db, t: Id, kind: Kind)
    requires Inv(db) && db.txs == map[] && Allowed(db, kind)
    ensures Commits(db, t, kind)
  {
    var begun := Step(db, Begin(t, kind));
    assert Alone(begun, t) && Allowed(begun, kind);
    hide Commits, Allowed;
    if IsSeatOp(kind) { SeatCommitsAlone(begun, t, kind); } else { ShowtimeCommitsAlone(begun, t, kind); }
    CommitsLater(db, Begin(t, kind), t, kind);
  }

  // ----- waiting

  /** The transaction's next statement waits for a studio lock that another holds. */
  predicate Waits(db: Db, t: Id) {
    && t in db.txs && db.txs[t].phase.Locking? && db.txs[t].phase.todo != []
    && exists u :: u in db.txs && u != t && db.txs[t].phase.todo[0] in db.txs[u].held
  }

  lemma {:induction false} HighestAwaited(db: Db, waiting: set<Id>) returns (t: Id)
    requires waiting != {}
    ensures t in waiting && forall u | u in waiting :: Awaited(db, u) <= Awaited(db, t)
    decreases |waiting|
  {
    hide Awaited;
    var one :| one in waiting;
    var rest := waiting - {one};
    t := one;
    if rest != {} {
      var other := HighestAwaited(db, rest);
      if Awaited(db, one) < Awaited(db, other) { t := other; }
      forall u | u in waiting ensures Awaited(db, u) <= Awaited(db, t) {
        if u != one { assert u in rest; }
      }
    } else {
      assert waiting == {one};
    }
  }

  lemma HolderAwaitsMore(db: Db, t: Id, u: Id)
    requires Inv(db) && Waits(db, t) && Waits(db, u) && db.txs[t].phase.todo[0] in db.txs[u].held
    ensures Awaited(db, t) < Awaited(db, u)
  {
    assert TxOk(db, db.txs[u]);
  }

  /** Studio locks never make every transaction wait: someone holds a lock that is waited for and waits
      for none. */
  lemma SomeoneProceeds(db: Db, t: Id)
    requires Inv(db) && Waits(db, t)
    ensures exists u :: u in db.txs && !Waits(db, u) && db.txs[u].held != {}
  {
    var waiting := set u | u in db.txs && Waits(db, u);
    assert t in waiting;
    var w := HighestAwaited(db, waiting);
    var u :| u in db.txs && u != w && db.txs[w].phase.todo[0] in db.txs[u].held;
    assert Waits(db, u) ==> u in waiting;
    if Waits(db, u) { HolderAwaitsMore(db, w, u); }
  }
}
