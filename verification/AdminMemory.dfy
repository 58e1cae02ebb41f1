/** The in-memory administration repository: schedule, physical layout, the seat inventory
    materialised for each showtime, and the audit trail. */
module AdminMemory {
  import opened Common
  import opened Sorting

  type Id = nat

  datatype Cinema = Cinema(name: string, address: string, city: string)

  datatype Studio = Studio(cinema: Id, name: string)

  datatype Seat = Seat(studio: Id, row: string, number: string, kind: string)

  datatype Movie = Movie(title: string, minutes: int)

  datatype Showtime = Showtime(movie: Id, studio: Id, startsAt: int, endsAt: int, basePrice: string, currency: string)

  datatype ShowtimeSeat = ShowtimeSeat(seat: Id, price: string, currency: string)

  datatype Entity = CinemaEntity | StudioEntity | SeatEntity | MovieEntity | ShowtimeEntity

  datatype Verb = Create | Update | Delete

  datatype AuditEvent = AuditEvent(actor: string, entity: Entity, id: Id, verb: Verb)

  datatype State = State(cinemas: map<Id, Cinema>, studios: map<Id, Studio>, seats: map<Id, Seat>,
                         movies: map<Id, Movie>,
                         showtimes: map<Id, Showtime>, inventory: map<Id, seq<ShowtimeSeat>>, audits: seq<AuditEvent>)

  const EMPTY := State(map[], map[], map[], map[], map[], map[], [])

  datatype Error =
    | CinemaNotFound | StudioNotFound | SeatNotFound | MovieNotFound | ShowtimeNotFound
    | SeatLayoutInUse | SeatAlreadyExists | ShowtimeOverlap | InvalidInput

  /** One call of a mutating repository method; `isNew` tells the Create from the Update methods. */
  datatype Mutation =
    | PutCinema(isNew: bool, id: Id, cinema: Cinema)
    | PutStudio(isNew: bool, id: Id, studio: Studio)
    | PutSeat(isNew: bool, id: Id, seat: Seat)
    | PutMovie(isNew: bool, id: Id, movie: Movie)
    | PutShowtime(isNew: bool, id: Id, showtime: Showtime)
    | Remove(entity: Entity, id: Id)

  // ----- specification

  predicate SamePosition(a: Seat, b: Seat) {
    a.studio == b.studio && a.row == b.row && a.number == b.number
  }

  predicate PositionTaken(s: State, id: Id, seat: Seat) {
    exists other :: other in s.seats && other != id && SamePosition(s.seats[other], seat)
  }

  predicate HasShowtime(s: State, studio: Id) {
    exists p :: p in s.showtimes && s.showtimes[p].studio == studio
  }

  /** Same studio, and the half-open intervals meet. */
  predicate Clash(a: Showtime, b: Showtime) {
    a.studio == b.studio && a.startsAt < b.endsAt && b.startsAt < a.endsAt
  }

  predicate Overlaps(s: State, id: Id, showtime: Showtime) {
    exists other :: other in s.showtimes && other != id && Clash(showtime, s.showtimes[other])
  }

  function SeatRefusal(s: State, isNew: bool, id: Id, seat: Seat): Option<Error> {
    if !isNew && id !in s.seats then Some(SeatNotFound)
    else if seat.studio !in s.studios then Some(StudioNotFound)
    else if isNew && HasShowtime(s, seat.studio) then Some(SeatLayoutInUse)
    else if !isNew && s.seats[id] != seat && (HasShowtime(s, s.seats[id].studio) || HasShowtime(s, seat.studio)) then
      Some(SeatLayoutInUse)
    else if PositionTaken(s, id, seat) then Some(SeatAlreadyExists)
    else None
  }

  function ShowtimeRefusal(s: State, isNew: bool, id: Id, showtime: Showtime): Option<Error> {
    if !isNew && id !in s.showtimes then Some(ShowtimeNotFound)
    else if showtime.movie !in s.movies then Some(MovieNotFound)
    else if showtime.studio !in s.studios then Some(StudioNotFound)
    else if Overlaps(s, id, showtime) then Some(ShowtimeOverlap)
    else None
  }

  function RemoveRefusal(s: State, entity: Entity, id: Id): Option<Error> {
    match entity
    case CinemaEntity => if id !in s.cinemas then Some(CinemaNotFound) else None
    case StudioEntity => if id !in s.studios then Some(StudioNotFound) else None
    case MovieEntity => if id !in s.movies then Some(MovieNotFound) else None
    case ShowtimeEntity => if id !in s.showtimes then Some(ShowtimeNotFound) else None
    case SeatEntity =>
      if id !in s.seats then Some(SeatNotFound)
      else if HasShowtime(s, s.seats[id].studio) then Some(SeatLayoutInUse)
      else None
  }

  function Refusal(s: State, m: Mutation): Option<Error> {
    match m
    case PutCinema(isNew, id, _) => if !isNew && id !in s.cinemas then Some(CinemaNotFound) else None
    case PutStudio(isNew, id, studio) =>
      if !isNew && id !in s.studios then Some(StudioNotFound)
      else if studio.cinema !in s.cinemas then Some(CinemaNotFound)
      else None
    case PutMovie(isNew, id, _) => if !isNew && id !in s.movies then Some(MovieNotFound) else None
    case PutSeat(isNew, id, seat) => SeatRefusal(s, isNew, id, seat)
    case PutShowtime(isNew, id, showtime) => ShowtimeRefusal(s, isNew, id, showtime)
    case Remove(entity, id) => RemoveRefusal(s, entity, id)
  }

  function SeatsIn(seats: map<Id, Seat>, studio: Id): set<Id> {
    set x | x in seats && seats[x].studio == studio
  }

  function Priced(ids: seq<Id>, showtime: Showtime): (rows: seq<ShowtimeSeat>)
    ensures |rows| == |ids|
  {
    seq(|ids|, i requires 0 <= i < |ids| => ShowtimeSeat(ids[i], showtime.basePrice, showtime.currency))
  }

  /** The studio's current seats in order of identifier, at the showtime's base price. */
  ghost function Materialised(seats: map<Id, Seat>, showtime: Showtime): seq<ShowtimeSeat> {
    Priced(Ascending(SeatsIn(seats, showtime.studio)), showtime)
  }

  ghost function Applied(s: State, m: Mutation): State {
    match m
    case PutCinema(_, id, cinema) => s.(cinemas := s.cinemas[id := cinema])
    case PutStudio(_, id, studio) => s.(studios := s.studios[id := studio])
    case PutSeat(_, id, seat) => s.(seats := s.seats[id := seat])
    case PutMovie(_, id, movie) => s.(movies := s.movies[id := movie])
    case PutShowtime(_, id, showtime) =>
      s.(showtimes := s.showtimes[id := showtime], inventory := s.inventory[id := Materialised(s.seats, showtime)])
    case Remove(entity, id) =>
      match entity
      case CinemaEntity => s.(cinemas := s.cinemas - {id})
      case StudioEntity => s.(studios := s.studios - {id})
      case SeatEntity => s.(seats := s.seats - {id})
      case MovieEntity => s.(movies := s.movies - {id})
      case ShowtimeEntity => s.(showtimes := s.showtimes - {id}, inventory := s.inventory - {id})
  }

  /** A refused mutation changes nothing; an accepted one appends its audit event. */
  ghost function Step(s: State, m: Mutation, audit: AuditEvent): State {
    if Refusal(s, m).Some? then s else Applied(s, m).(audits := s.audits + [audit])
  }

  // ----- the code

  predicate BySeat(a: ShowtimeSeat, b: ShowtimeSeat) {
    a.seat < b.seat
  }

  /** One row for each of the seats, at the showtime's price. */
  ghost predicate RowsFor(rows: seq<ShowtimeSeat>, ids: set<Id>, showtime: Showtime) {
    && |rows| == |ids|
    && (forall r | r in rows :: r.seat in ids && r == ShowtimeSeat(r.seat, showtime.basePrice, showtime.currency))
    && forall x | x in ids :: ShowtimeSeat(x, showtime.basePrice, showtime.currency) in rows
  }

  lemma RowsRearranged(rows: seq<ShowtimeSeat>, sorted: seq<ShowtimeSeat>, ids: set<Id>, showtime: Showtime)
    requires RowsFor(rows, ids, showtime) && multiset(sorted) == multiset(rows)
    ensures RowsFor(sorted, ids, showtime)
  {
    assert |sorted| == |multiset(sorted)| == |rows|;
    assert forall r :: r in sorted <==> r in multiset(sorted);
    assert forall r :: r in rows <==> r in multiset(rows);
  }

  function SeatIds(rows: seq<ShowtimeSeat>): (ids: seq<Id>)
    ensures |ids| == |rows| && forall i | 0 <= i < |ids| :: ids[i] == rows[i].seat
  {
    seq(|rows|, i requires 0 <= i < |rows| => rows[i].seat)
  }

  lemma SortedSeatIds(sorted: seq<ShowtimeSeat>, ids: set<Id>, showtime: Showtime)
    requires RowsFor(sorted, ids, showtime) && Ordered(sorted, BySeat)
    ensures Elements(SeatIds(sorted)) == ids && StrictlyAscending(SeatIds(sorted))
  {
    var listed := SeatIds(sorted);
    forall x | x in ids ensures x in listed {
      var i :| 0 <= i < |sorted| && sorted[i] == ShowtimeSeat(x, showtime.basePrice, showtime.currency);
      assert listed[i] == x;
    }
    forall x | x in listed ensures x in ids {
      var i :| 0 <= i < |listed| && listed[i] == x;
      assert sorted[i] in sorted;
    }
    assert Elements(listed) == ids;
    DistinctIffFullCount(listed);
    forall i, j | 0 <= i < j < |listed| ensures listed[i] < listed[j] {
      assert !BySeat(sorted[j], sorted[i]) && listed[i] != listed[j];
    }
  }

  lemma SortedRowsAreMaterialised(rows: seq<ShowtimeSeat>, sorted: seq<ShowtimeSeat>, seats: map<Id, Seat>,
                                  showtime: Showtime)
    requires RowsFor(rows, SeatsIn(seats, showtime.studio), showtime)
    requires multiset(sorted) == multiset(rows) && Ordered(sorted, BySeat)
    ensures sorted == Materialised(seats, showtime)
  {
    var ids := SeatsIn(seats, showtime.studio);
    RowsRearranged(rows, sorted, ids, showtime);
    SortedSeatIds(sorted, ids, showtime);
    AscendingLists(ids);
    AscendingIsUnique(SeatIds(sorted), Ascending(ids));
    hide Ascending, StrictlyAscending, Elements, SeatsIn, Ordered;
    forall i | 0 <= i < |sorted|
      ensures sorted[i] == Priced(SeatIds(sorted), showtime)[i]
    {
      assert sorted[i] in sorted;
    }
  }

  datatype Listed = Listed(id: Id, showtime: Showtime)

  /** Start time, then identifier. */
  predicate StartsBefore(a: Listed, b: Listed) {
    if a.showtime.startsAt == b.showtime.startsAt then a.id < b.id else a.showtime.startsAt < b.showtime.startsAt
  }

  class MemoryRepository {
    var audits: seq<AuditEvent>
    var cinemas: map<Id, Cinema>
    var studios: map<Id, Studio>
    var seats: map<Id, Seat>
    var movies: map<Id, Movie>
    var showtimes: map<Id, Showtime>
    var showtimeSeats: map<Id, seq<ShowtimeSeat>>

    ghost function View(): State
      reads this
    {
      State(cinemas, studios, seats, movies, showtimes, showtimeSeats, audits)
    }

    constructor ()
      ensures View() == EMPTY
    {
      audits, cinemas, studios, seats, movies, showtimes, showtimeSeats := [], map[], map[], map[], map[], map[], map[];
    }

    method SaveShowtime(isNew: bool, id: Id, showtime: Showtime, audit: AuditEvent) returns (r: Option<Error>)
      modifies this
      ensures r == Refusal(old(View()), PutShowtime(isNew, id, showtime))
      ensures View() == Step(old(View()), PutShowtime(isNew, id, showtime), audit)
    {
      if !isNew && id !in showtimes { return Some(ShowtimeNotFound); }
      if showtime.movie !in movies { return Some(MovieNotFound); }
      if showtime.studio !in studios { return Some(StudioNotFound); }
      var overlaps := HasOverlappingShowtime(id, showtime);
      if overlaps { return Some(ShowtimeOverlap); }
      showtimes := showtimes[id := showtime];
      var rows := MaterializeShowtimeSeats(showtime);
      showtimeSeats := showtimeSeats[id := rows];
      audits := audits + [audit];
      return None;
    }

    method DeleteShowtime(id: Id, audit: AuditEvent) returns (r: Option<Error>)
      modifies this
      ensures r == Refusal(old(View()), Remove(ShowtimeEntity, id))
      ensures View() == Step(old(View()), Remove(ShowtimeEntity, id), audit)
    {
      if id !in showtimes { return Some(ShowtimeNotFound); }
      showtimes := showtimes - {id};
      showtimeSeats := showtimeSeats - {id};
      audits := audits + [audit];
      return None;
    }

    method ListShowtimes() returns (list: seq<Listed>)
      ensures Ordered(list, StartsBefore) && |list| == |showtimes|
      ensures forall l :: l in list <==> l.id in showtimes && showtimes[l.id] == l.showtime
    {
      var rows: seq<Listed> := [];
      var todo := showtimes.Keys;
      while todo != {}
        invariant todo <= showtimes.Keys && |rows| + |todo| == |showtimes|
        invariant forall l :: l in rows <==> l.id in showtimes && l.id !in todo && showtimes[l.id] == l.showtime
        decreases |todo|
      {
        var id :| id in todo;
        rows := rows + [Listed(id, showtimes[id])];
        todo := todo - {id};
      }
      list := Sorted(rows, StartsBefore);
      assert |list| == |multiset(list)| == |rows|;
      assert forall l :: l in list <==> l in multiset(list);
      assert forall l :: l in rows <==> l in multiset(rows);
    }

    method MaterializeShowtimeSeats(showtime: Showtime) returns (rows: seq<ShowtimeSeat>)
      ensures rows == Materialised(seats, showtime)
    {
      var found: seq<ShowtimeSeat> := [];
      var todo := seats.Keys;
      ghost var done: set<Id> := {};
      while todo != {}
        invariant todo <= seats.Keys && RowsFor(found, done, showtime)
        invariant forall x :: x in done <==> x in seats && x !in todo && seats[x].studio == showtime.studio
        decreases |todo|
      {
        var id :| id in todo;
        if seats[id].studio == showtime.studio {
          found := found + [ShowtimeSeat(id, showtime.basePrice, showtime.currency)];
          done := done + {id};
        }
        todo := todo - {id};
      }
      assert done == SeatsIn(seats, showtime.studio);
      rows := Sorted(found, BySeat);
      SortedRowsAreMaterialised(found, rows, seats, showtime);
    }

    method HasOverlappingShowtime(id: Id, candidate: Showtime) returns (found: bool)
      ensures found <==> Overlaps(View(), id, candidate)
    {
      var todo := showtimes.Keys;
      while todo != {}
        invariant todo <= showtimes.Keys
        invariant forall p | p in showtimes && p !in todo && p != id :: !Clash(candidate, showtimes[p])
        decreases |todo|
      {
        var p :| p in todo;
        var existing := showtimes[p];
        todo := todo - {p};
        if p == id || existing.studio != candidate.studio { continue; }
        if candidate.startsAt < existing.endsAt && existing.startsAt < candidate.endsAt { return true; }
      }
      return false;
    }

    method HasSeatLayoutPosition(id: Id, candidate: Seat) returns (found: bool)
      ensures found <==> PositionTaken(View(), id, candidate)
    {
      var todo := seats.Keys;
      while todo != {}
        invariant todo <= seats.Keys
        invariant forall x | x in seats && x !in todo && x != id :: !SamePosition(seats[x], candidate)
        decreases |todo|
      {
        var x :| x in todo;
        var seat := seats[x];
        if x != id && seat.studio == candidate.studio && seat.row == candidate.row
           && seat.number == candidate.number {
          return true;
        }
        todo := todo - {x};
      }
      return false;
    }

    method HasShowtimeInStudio(studio: Id) returns (found: bool)
      ensures found <==> HasShowtime(View(), studio)
    {
      var todo := showtimes.Keys;
      while todo != {}
        invariant todo <= showtimes.Keys
        invariant forall p | p in showtimes && p !in todo :: showtimes[p].studio != studio
        decreases |todo|
      {
        var p :| p in todo;
        if showtimes[p].studio == studio { return true; }
        todo := todo - {p};
      }
      return false;
    }

    method CreateSeat(id: Id, seat: Seat, audit: AuditEvent) returns (r: Option<Error>)
      modifies this
      ensures r == Refusal(old(View()), PutSeat(true, id, seat))
      ensures View() == Step(old(View()), PutSeat(true, id, seat), audit)
    {
      if seat.studio !in studios { return Some(StudioNotFound); }
      var inUse := HasShowtimeInStudio(seat.studio);
      if inUse { return Some(SeatLayoutInUse); }
      var taken := HasSeatLayoutPosition(id, seat);
      if taken { return Some(SeatAlreadyExists); }
      seats := seats[id := seat];
      audits := audits + [audit];
      return None;
    }

    method UpdateSeat(id: Id, seat: Seat, audit: AuditEvent) returns (r: Option<Error>)
      modifies this
      ensures r == Refusal(old(View()), PutSeat(false, id, seat))
      ensures View() == Step(old(View()), PutSeat(false, id, seat), audit)
    {
      if id !in seats { return Some(SeatNotFound); }
      var existing := seats[id];
      if seat.studio !in studios { return Some(StudioNotFound); }
      if existing != seat {
        var inUse := HasShowtimeInStudio(existing.studio);
        if !inUse { inUse := HasShowtimeInStudio(seat.studio); }
        if inUse { return Some(SeatLayoutInUse); }
      }
      var taken := HasSeatLayoutPosition(id, seat);
      if taken { return Some(SeatAlreadyExists); }
      seats := seats[id := seat];
      audits := audits + [audit];
      return None;
    }

    method DeleteSeat(id: Id, audit: AuditEvent) returns (r: Option<Error>)
      modifies this
      ensures r == Refusal(old(View()), Remove(SeatEntity, id))
      ensures View() == Step(old(View()), Remove(SeatEntity, id), audit)
    {
      if id !in seats { return Some(SeatNotFound); }
      var inUse := HasShowtimeInStudio(seats[id].studio);
      if inUse { return Some(SeatLayoutInUse); }
      seats := seats - {id};
      audits := audits + [audit];
      return None;
    }

    method SaveStudio(isNew: bool, id: Id, studio: Studio, audit: AuditEvent) returns (r: Option<Error>)
      modifies this
      ensures r == Refusal(old(View()), PutStudio(isNew, id, studio))
      ensures View() == Step(old(View()), PutStudio(isNew, id, studio), audit)
    {
      if !isNew && id !in studios { return Some(StudioNotFound); }
      if studio.cinema !in cinemas { return Some(CinemaNotFound); }
      studios := studios[id := studio];
      audits := audits + [audit];
      return None;
    }

    method DeleteStudio(id: Id, audit: AuditEvent) returns (r: Option<Error>)
      modifies this
      ensures r == Refusal(old(View()), Remove(StudioEntity, id))
      ensures View() == Step(old(View()), Remove(StudioEntity, id), audit)
    {
      if id !in studios { return Some(StudioNotFound); }
      studios := studios - {id};
      audits := audits + [audit];
      return None;
    }

    method SaveMovie(isNew: bool, id: Id, movie: Movie, audit: AuditEvent) returns (r: Option<Error>)
      modifies this
      ensures r == Refusal(old(View()), PutMovie(isNew, id, movie))
      ensures View() == Step(old(View()), PutMovie(isNew, id, movie), audit)
    {
      if !isNew && id !in movies { return Some(MovieNotFound); }
      movies := movies[id := movie];
      audits := audits + [audit];
      return None;
    }

    method DeleteMovie(id: Id, audit: AuditEvent) returns (r: Option<Error>)
      modifies this
      ensures r == Refusal(old(View()), Remove(MovieEntity, id))
      ensures View() == Step(old(View()), Remove(MovieEntity, id), audit)
    {
      if id !in movies { return Some(MovieNotFound); }
      movies := movies - {id};
      audits := audits + [audit];
      return None;
    }

    method SaveCinema(isNew: bool, id: Id, cinema: Cinema, audit: AuditEvent) returns (r: Option<Error>)
      modifies this
      ensures r == Refusal(old(View()), PutCinema(isNew, id, cinema))
      ensures View() == Step(old(View()), PutCinema(isNew, id, cinema), audit)
    {
      if !isNew && id !in cinemas { return Some(CinemaNotFound); }
      cinemas := cinemas[id := cinema];
      audits := audits + [audit];
      return None;
    }

    method DeleteCinema(id: Id, audit: AuditEvent) returns (r: Option<Error>)
      modifies this
      ensures r == Refusal(old(View()), Remove(CinemaEntity, id))
      ensures View() == Step(old(View()), Remove(CinemaEntity, id), audit)
    {
      if id !in cinemas { return Some(CinemaNotFound); }
      cinemas := cinemas - {id};
      audits := audits + [audit];
      return None;
    }
  }
}
