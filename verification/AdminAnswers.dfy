/** What the administration repository accepts and writes: a mutation is taken exactly when all it
    names exists and carrying it out breaks nothing, and it writes one entry. */
module AdminAnswers {
  import opened AdminMemory
  import opened AdminSafety
  import opened Common

  // ----- one entry

  datatype Entry =
    | CinemaEntry(cinema: Cinema)
    | StudioEntry(studio: Studio)
    | SeatEntry(seat: Seat)
    | MovieEntry(movie: Movie)
    | ShowtimeEntry(showtime: Showtime)

  function Lookup(s: State, entity: Entity, id: Id): Option<Entry> {
    match entity
    case CinemaEntity => if id in s.cinemas then Some(CinemaEntry(s.cinemas[id])) else None
    case StudioEntity => if id in s.studios then Some(StudioEntry(s.studios[id])) else None
    case SeatEntity => if id in s.seats then Some(SeatEntry(s.seats[id])) else None
    case MovieEntity => if id in s.movies then Some(MovieEntry(s.movies[id])) else None
    case ShowtimeEntity => if id in s.showtimes then Some(ShowtimeEntry(s.showtimes[id])) else None
  }

  /** What the mutation wants to find under its identifier afterwards. */
  function Wanted(m: Mutation): Option<Entry> {
    match m
    case PutCinema(_, _, cinema) => Some(CinemaEntry(cinema))
    case PutStudio(_, _, studio) => Some(StudioEntry(studio))
    case PutSeat(_, _, seat) => Some(SeatEntry(seat))
    case PutMovie(_, _, movie) => Some(MovieEntry(movie))
    case PutShowtime(_, _, showtime) => Some(ShowtimeEntry(showtime))
    case Remove(_, _) => None
  }

  lemma RemovedEntry(s: State, gone: Entity, id: Id, entity: Entity, x: Id)
    ensures Lookup(Applied(s, Remove(gone, id)), entity, x) ==
      if entity == gone && x == id then None else Lookup(s, entity, x)
  {
    match gone
    case CinemaEntity =>
    case StudioEntity =>
    case SeatEntity =>
    case MovieEntity =>
    case ShowtimeEntity =>
  }

  lemma PutEntry(s: State, m: Mutation, entity: Entity, x: Id)
    requires !m.Remove?
    ensures Lookup(Applied(s, m), entity, x) ==
      if entity == EntityOf(m) && x == m.id then Wanted(m) else Lookup(s, entity, x)
  {
    hide Materialised;
    match m
    case PutCinema(_, _, _) =>
    case PutStudio(_, _, _) =>
    case PutSeat(_, _, _) =>
    case PutMovie(_, _, _) =>
    case PutShowtime(_, _, _) =>
  }

  /** An accepted mutation puts the wanted entry, or none, under its own identifier, leaves every other
      entry of every kind and every other showtime's inventory alone, and adds its audit event; a
      refused one changes nothing. */
  lemma OneEntryWritten(s: State, m: Mutation, actor: string, entity: Entity, x: Id)
    ensures Refusal(s, m).Some? ==> After(s, m, actor) == s
    ensures Refusal(s, m).None? ==>
      var t := After(s, m, actor);
      && Lookup(t, entity, x) == (if entity == EntityOf(m) && x == m.id then Wanted(m) else Lookup(s, entity, x))
      && (x in s.inventory && (EntityOf(m) != ShowtimeEntity || x != m.id) ==>
            x in t.inventory && t.inventory[x] == s.inventory[x])
      && t.audits == s.audits + [AuditEvent(actor, EntityOf(m), m.id, VerbOf(m))]
  {
    if m.Remove? { RemovedEntry(s, m.entity, m.id, entity, x); } else { PutEntry(s, m, entity, x); }
    if EntityOf(m) != ShowtimeEntity || x != m.id { InventoryAlone(s, m, x); }
    hide Refusal, Materialised, Applied, Lookup;
  }

  lemma InventoryAlone(s: State, m: Mutation, x: Id)
    requires EntityOf(m) != ShowtimeEntity || x != m.id
    ensures x in s.inventory ==> x in Applied(s, m).inventory && Applied(s, m).inventory[x] == s.inventory[x]
  {
    hide Materialised;
    match m
    case Remove(e, _) => match e { case _ => }
    case _ =>
  }

  // ----- what is accepted

  /** Everything the mutation names exists: its own entry unless it creates one, and what it refers to. */
  predicate Known(s: State, m: Mutation) {
    && ((m.Remove? || !m.isNew) ==> Lookup(s, EntityOf(m), m.id).Some?)
    && (m.PutStudio? ==> m.studio.cinema in s.cinemas)
    && (m.PutSeat? ==> m.seat.studio in s.studios)
    && (m.PutShowtime? ==> m.showtime.movie in s.movies && m.showtime.studio in s.studios)
  }

  function Layout(seats: map<Id, Seat>, studio: Id): map<Id, Seat> {
    map x | x in seats && seats[x].studio == studio :: seats[x]
  }

  /** No studio with showtimes has its seats touched. */
  ghost predicate LayoutsStay(s: State, t: State) {
    forall p | p in s.showtimes :: Layout(t.seats, s.showtimes[p].studio) == Layout(s.seats, s.showtimes[p].studio)
  }

  lemma OthersKeepAll(s: State, m: Mutation)
    requires NoClashes(s) && PositionsUnique(s)
    ensures !OnShowtimes(m) ==> NoClashes(Applied(s, m))
    ensures !OnSeats(m) ==> PositionsUnique(Applied(s, m)) && LayoutsStay(s, Applied(s, m))
  {
    hide Applied;
    if !OnShowtimes(m) { ShowtimesStay(s, m); }
    if !OnSeats(m) { SeatsStay(s, m); }
  }

  lemma SeatKeepsPositionsIff(s: State, id: Id, seat: Seat)
    requires PositionsUnique(s)
    ensures PositionsUnique(s.(seats := s.seats[id := seat])) <==> !PositionTaken(s, id, seat)
  {
    var t := s.(seats := s.seats[id := seat]);
    if PositionTaken(s, id, seat) {
      var other :| other in s.seats && other != id && SamePosition(s.seats[other], seat);
      assert SamePosition(t.seats[other], t.seats[id]);
    }
  }

  lemma PutKeepsLayoutsIff(s: State, id: Id, seat: Seat)
    ensures LayoutsStay(s, s.(seats := s.seats[id := seat])) <==>
      || (id in s.seats && s.seats[id] == seat)
      || (!HasShowtime(s, seat.studio) && (id in s.seats ==> !HasShowtime(s, s.seats[id].studio)))
  {
    var t := s.(seats := s.seats[id := seat]);
    if id in s.seats && s.seats[id] == seat {
      assert t.seats == s.seats;
    } else {
      if HasShowtime(s, seat.studio) {
        var p :| p in s.showtimes && s.showtimes[p].studio == seat.studio;
        LayoutEntry(t.seats, seat.studio, id);
        LayoutEntry(s.seats, seat.studio, id);
      }
      if id in s.seats && HasShowtime(s, s.seats[id].studio) {
        var p :| p in s.showtimes && s.showtimes[p].studio == s.seats[id].studio;
        LayoutEntry(t.seats, s.seats[id].studio, id);
        LayoutEntry(s.seats, s.seats[id].studio, id);
      }
    }
  }

  lemma LayoutEntry(seats: map<Id, Seat>, studio: Id, x: Id)
    ensures x in Layout(seats, studio) <==> x in seats && seats[x].studio == studio
    ensures x in Layout(seats, studio) ==> Layout(seats, studio)[x] == seats[x]
  {
  }

  lemma RemovalKeepsLayoutsIff(s: State, id: Id)
    requires id in s.seats
    ensures LayoutsStay(s, s.(seats := s.seats - {id})) <==> !HasShowtime(s, s.seats[id].studio)
    ensures PositionsUnique(s) ==> PositionsUnique(s.(seats := s.seats - {id}))
  {
    if HasShowtime(s, s.seats[id].studio) {
      var p :| p in s.showtimes && s.showtimes[p].studio == s.seats[id].studio;
      LayoutEntry(s.seats - {id}, s.seats[id].studio, id);
      LayoutEntry(s.seats, s.seats[id].studio, id);
    }
  }

  lemma ShowtimeKeepsScheduleIff(s: State, t: State, id: Id, showtime: Showtime)
    requires NoClashes(s) && t.showtimes == s.showtimes[id := showtime]
    ensures NoClashes(t) <==> !Overlaps(s, id, showtime)
  {
    if Overlaps(s, id, showtime) {
      var other :| other in s.showtimes && other != id && Clash(showtime, s.showtimes[other]);
      assert Clash(t.showtimes[id], t.showtimes[other]);
    }
  }

  /** A mutation is accepted exactly when all it names exists and carrying it out leaves no two showtimes
      of a studio at one instant, no two seats in one position, and the seats of every studio with
      showtimes untouched. (A new seat's identifier is not in use.) */
  lemma AcceptedIff(s: State, m: Mutation)
    requires NoClashes(s) && PositionsUnique(s) && (m.PutSeat? && m.isNew ==> m.id !in s.seats)
    ensures Refusal(s, m).None? <==>
      && Known(s, m) && NoClashes(Applied(s, m)) && PositionsUnique(Applied(s, m)) && LayoutsStay(s, Applied(s, m))
  {
    hide NoClashes, PositionsUnique, LayoutsStay, Materialised, PositionTaken, Overlaps, HasShowtime;
    OthersKeepAll(s, m);
    match m
    case PutSeat(_, id, seat) =>
      SeatKeepsPositionsIff(s, id, seat);
      PutKeepsLayoutsIff(s, id, seat);
    case PutShowtime(_, id, showtime) => ShowtimeKeepsScheduleIff(s, Applied(s, m), id, showtime);
    case Remove(entity, id) =>
      if entity == SeatEntity {
        if id in s.seats { RemovalKeepsLayoutsIff(s, id); }
      } else if entity == ShowtimeEntity {
        FewerKeepSchedule(s, Applied(s, m), id);
      }
    case _ =>
  }

  lemma FewerKeepSchedule(s: State, t: State, id: Id)
    requires NoClashes(s) && t.showtimes == s.showtimes - {id}
    ensures NoClashes(t)
  {
  }

  predicate OwnMissing(s: State, m: Mutation, entity: Entity) {
    EntityOf(m) == entity && (m.Remove? || !m.isNew) && Lookup(s, entity, m.id).None?
  }

  /** A refusal names what is wrong. */
  lemma RefusalsAreTrue(s: State, m: Mutation)
    requires NoClashes(s) && PositionsUnique(s) && (m.PutSeat? && m.isNew ==> m.id !in s.seats)
    ensures Refusal(s, m).Some? ==>
      match Refusal(s, m).value
      case CinemaNotFound => OwnMissing(s, m, CinemaEntity) || (m.PutStudio? && m.studio.cinema !in s.cinemas)
      case StudioNotFound => OwnMissing(s, m, StudioEntity) || (m.PutSeat? && m.seat.studio !in s.studios)
        || (m.PutShowtime? && m.showtime.studio !in s.studios)
      case MovieNotFound => OwnMissing(s, m, MovieEntity) || (m.PutShowtime? && m.showtime.movie !in s.movies)
      case SeatNotFound => OwnMissing(s, m, SeatEntity)
      case ShowtimeNotFound => OwnMissing(s, m, ShowtimeEntity)
      case SeatLayoutInUse => !LayoutsStay(s, Applied(s, m))
      case SeatAlreadyExists => !PositionsUnique(Applied(s, m))
      case ShowtimeOverlap => !NoClashes(Applied(s, m))
      case InvalidInput => false
  {
    hide NoClashes, PositionsUnique, LayoutsStay, Materialised, PositionTaken, Overlaps, HasShowtime;
    match m
    case PutSeat(_, id, seat) =>
      SeatKeepsPositionsIff(s, id, seat);
      PutKeepsLayoutsIff(s, id, seat);
    case PutShowtime(_, id, showtime) => ShowtimeKeepsScheduleIff(s, Applied(s, m), id, showtime);
    case Remove(entity, id) => if entity == SeatEntity && id in s.seats { RemovalKeepsLayoutsIff(s, id); }
    case _ =>
  }

  // ----- the stored inventory

  lemma RowsOf(ids: set<Id>, showtime: Showtime)
    ensures var q, rows := Ascending(ids), Priced(Ascending(ids), showtime);
      && (forall i, j | 0 <= i < j < |rows| :: rows[i].seat < rows[j].seat)
      && (forall i | 0 <= i < |rows| :: rows[i] == ShowtimeSeat(rows[i].seat, showtime.basePrice, showtime.currency))
      && (forall x :: x in ids <==> exists i :: 0 <= i < |rows| && rows[i].seat == x)
  {
    var q, rows := Ascending(ids), Priced(Ascending(ids), showtime);
    AscendingLists(ids);
    hide Ascending;
    forall x ensures x in ids <==> exists i :: 0 <= i < |rows| && rows[i].seat == x {
      assert x in ids <==> x in Elements(q);
      if x in q {
        var i :| 0 <= i < |q| && q[i] == x;
        assert rows[i].seat == x;
      }
    }
  }

  /** A showtime's inventory holds one row for each seat of its studio and no other, at the showtime's
      price, in order of identifier. */
  lemma InventoryIsLayout(s: State, p: Id)
    requires InventoryMatches(s) && p in s.showtimes
    ensures p in s.inventory
    ensures var rows, showtime := s.inventory[p], s.showtimes[p];
      && (forall i, j | 0 <= i < j < |rows| :: rows[i].seat < rows[j].seat)
      && (forall i | 0 <= i < |rows| :: rows[i] == ShowtimeSeat(rows[i].seat, showtime.basePrice, showtime.currency))
      && (forall x :: x in s.seats && s.seats[x].studio == showtime.studio <==>
            exists i :: 0 <= i < |rows| && rows[i].seat == x)
  {
    var ids := SeatsIn(s.seats, s.showtimes[p].studio);
    RowsOf(ids, s.showtimes[p]);
    assert s.inventory[p] == Priced(Ascending(ids), s.showtimes[p]);
    hide Ascending, Priced;
    forall x ensures x in ids <==> x in s.seats && s.seats[x].studio == s.showtimes[p].studio {}
  }
}
