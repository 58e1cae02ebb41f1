/** What every sequence of administration mutations keeps. */
module AdminSafety {
  import opened AdminMemory
  import opened Common
  import opened Sorting

  // ----- invariants

  /** Each showtime's stored seats are a fresh materialisation of the current layout. */
  ghost predicate InventoryMatches(s: State) {
    && s.inventory.Keys == s.showtimes.Keys
    && forall p | p in s.showtimes :: s.inventory[p] == Materialised(s.seats, s.showtimes[p])
  }

  ghost predicate NoClashes(s: State) {
    forall p, q | p in s.showtimes && q in s.showtimes && p != q :: !Clash(s.showtimes[p], s.showtimes[q])
  }

  ghost predicate PositionsUnique(s: State) {
    forall a, b | a in s.seats && b in s.seats && a != b :: !SamePosition(s.seats[a], s.seats[b])
  }

  ghost predicate ShowtimesLast(s: State) {
    forall p | p in s.showtimes :: s.showtimes[p].startsAt < s.showtimes[p].endsAt
  }

  /** The identifiers that creations and deletions in the trail leave alive. */
  function Replay(audits: seq<AuditEvent>, entity: Entity): set<Id> {
    if audits == [] then {} else
      var before, last := Replay(audits[..|audits| - 1], entity), audits[|audits| - 1];
      if last.entity != entity then before
      else match last.verb
        case Create => before + {last.id}
        case Update => before
        case Delete => before - {last.id}
  }

  function Live(s: State, entity: Entity): set<Id> {
    match entity
    case CinemaEntity => s.cinemas.Keys
    case StudioEntity => s.studios.Keys
    case SeatEntity => s.seats.Keys
    case MovieEntity => s.movies.Keys
    case ShowtimeEntity => s.showtimes.Keys
  }

  ghost predicate AuditsReplay(s: State) {
    forall entity :: Replay(s.audits, entity) == Live(s, entity)
  }

  ghost predicate Inv(s: State) {
    InventoryMatches(s) && NoClashes(s) && PositionsUnique(s) && ShowtimesLast(s) && AuditsReplay(s)
  }

  // ----- mutations

  function EntityOf(m: Mutation): Entity {
    match m
    case PutCinema(_, _, _) => CinemaEntity
    case PutStudio(_, _, _) => StudioEntity
    case PutSeat(_, _, _) => SeatEntity
    case PutMovie(_, _, _) => MovieEntity
    case PutShowtime(_, _, _) => ShowtimeEntity
    case Remove(entity, _) => entity
  }

  function VerbOf(m: Mutation): Verb {
    if m.Remove? then Delete else if m.isNew then Create else Update
  }

  /** The audit event the service pairs with a mutation. */
  function AuditOf(actor: string, m: Mutation): AuditEvent {
    AuditEvent(actor, EntityOf(m), m.id, VerbOf(m))
  }

  /** What the service guarantees of a mutation: showtimes take time, and a new seat's identifier
      is not in use. */
  ghost predicate Issued(s: State, m: Mutation) {
    && (m.PutShowtime? ==> m.showtime.startsAt < m.showtime.endsAt)
    && (m.PutSeat? && m.isNew ==> m.id !in s.seats)
  }

  ghost function After(s: State, m: Mutation, actor: string): State {
    Step(s, m, AuditOf(actor, m))
  }

  // ----- each mutation keeps each invariant

  predicate OnSeats(m: Mutation) {
    m.PutSeat? || (m.Remove? && m.entity.SeatEntity?)
  }

  predicate OnShowtimes(m: Mutation) {
    m.PutShowtime? || (m.Remove? && m.entity.ShowtimeEntity?)
  }

  lemma SeatsStay(s: State, m: Mutation)
    requires !OnSeats(m)
    ensures Applied(s, m).seats == s.seats
  {
    hide Materialised;
    match m
    case Remove(entity, _) => match entity { case _ => }
    case _ =>
  }

  lemma ShowtimesStay(s: State, m: Mutation)
    requires !OnShowtimes(m)
    ensures Applied(s, m).showtimes == s.showtimes && Applied(s, m).inventory == s.inventory
  {
    hide Materialised;
    match m
    case Remove(entity, _) => match entity { case _ => }
    case _ =>
  }

  lemma OtherTablesStay(s: State, m: Mutation, actor: string)
    ensures !OnSeats(m) ==> After(s, m, actor).seats == s.seats
    ensures !OnShowtimes(m) ==>
      After(s, m, actor).showtimes == s.showtimes && After(s, m, actor).inventory == s.inventory
  {
    hide Refusal, Materialised, Applied;
    if !OnSeats(m) { SeatsStay(s, m); }
    if !OnShowtimes(m) { ShowtimesStay(s, m); }
  }

  /** The mutation creates a seat under the identifier of one whose studio has showtimes. */
  predicate TakesScheduledSeat(s: State, m: Mutation) {
    && m.PutSeat? && m.isNew && Refusal(s, m).None?
    && m.id in s.seats && HasShowtime(s, s.seats[m.id].studio)
  }

  lemma UntouchedStudio(s: State, m: Mutation, p: Id)
    requires Refusal(s, m).None? && !TakesScheduledSeat(s, m) && p in s.showtimes && OnSeats(m)
    ensures SeatsIn(Applied(s, m).seats, s.showtimes[p].studio) == SeatsIn(s.seats, s.showtimes[p].studio)
  {
    assert HasShowtime(s, s.showtimes[p].studio);
  }

  lemma InventoryKeptBySeats(s: State, m: Mutation, actor: string)
    requires InventoryMatches(s) && !TakesScheduledSeat(s, m) && OnSeats(m)
    ensures InventoryMatches(After(s, m, actor))
  {
    var t := After(s, m, actor);
    OtherTablesStay(s, m, actor);
    if Refusal(s, m).None? {
      assert t.seats == Applied(s, m).seats;
      forall p | p in s.showtimes
        ensures Materialised(t.seats, s.showtimes[p]) == Materialised(s.seats, s.showtimes[p])
      {
        UntouchedStudio(s, m, p);
        hide Refusal, Applied, After, Step;
      }
      hide Refusal, Applied, After, Step, Materialised;
    }
  }

  /** Such a seat disappears from under the showtimes of its studio. */
  lemma ReusedSeatIdBreaksInventory(s: State, m: Mutation, actor: string)
    requires InventoryMatches(s) && TakesScheduledSeat(s, m)
    ensures !InventoryMatches(After(s, m, actor))
  {
    var t, studio := After(s, m, actor), s.seats[m.id].studio;
    var p :| p in s.showtimes && s.showtimes[p].studio == studio;
    assert !HasShowtime(s, m.seat.studio) && m.seat.studio != studio;
    var was, now := SeatsIn(s.seats, studio), SeatsIn(t.seats, studio);
    assert m.id in was && m.id !in now && now == was - {m.id};
    AscendingLists(was);
    AscendingLists(now);
    assert |Materialised(s.seats, s.showtimes[p])| == |was| && |Materialised(t.seats, t.showtimes[p])| == |now|;
  }

  lemma InventoryKeptByShowtimes(s: State, m: Mutation, actor: string)
    requires InventoryMatches(s) && OnShowtimes(m)
    ensures InventoryMatches(After(s, m, actor))
  {
    hide Refusal, Materialised;
  }

  /** Any mutation at all keeps stored inventory equal to recomputation, unless it reuses the
      identifier of a seat whose studio has showtimes. */
  lemma InventoryKeptIff(s: State, m: Mutation, actor: string)
    requires InventoryMatches(s)
    ensures InventoryMatches(After(s, m, actor)) <==> !TakesScheduledSeat(s, m)
  {
    hide After, TakesScheduledSeat, Materialised;
    if TakesScheduledSeat(s, m) {
      ReusedSeatIdBreaksInventory(s, m, actor);
    } else if OnSeats(m) {
      InventoryKeptBySeats(s, m, actor);
    } else if OnShowtimes(m) {
      InventoryKeptByShowtimes(s, m, actor);
    } else {
      OtherTablesStay(s, m, actor);
    }
  }

  lemma ScheduleKeptByShowtimes(s: State, m: Mutation, actor: string)
    requires NoClashes(s) && ShowtimesLast(s) && Issued(s, m) && OnShowtimes(m)
    ensures NoClashes(After(s, m, actor)) && ShowtimesLast(After(s, m, actor))
  {
    var t := After(s, m, actor);
    assert Refusal(s, m).None? && m.PutShowtime? ==> !Overlaps(s, m.id, m.showtime);
    assert t.showtimes == (if Refusal(s, m).Some? then s.showtimes
                           else if m.PutShowtime? then s.showtimes[m.id := m.showtime] else s.showtimes - {m.id});
    hide Refusal, After, Step, Applied, Materialised;
  }

  lemma ScheduleKept(s: State, m: Mutation, actor: string)
    requires NoClashes(s) && ShowtimesLast(s) && Issued(s, m)
    ensures NoClashes(After(s, m, actor)) && ShowtimesLast(After(s, m, actor))
  {
    hide After, Issued;
    if OnShowtimes(m) { ScheduleKeptByShowtimes(s, m, actor); }
    else { OtherTablesStay(s, m, actor); }
  }

  lemma PositionsKeptBySeats(s: State, m: Mutation, actor: string)
    requires PositionsUnique(s) && OnSeats(m)
    ensures PositionsUnique(After(s, m, actor))
  {
    var t := After(s, m, actor);
    assert Refusal(s, m).None? && m.PutSeat? ==> !PositionTaken(s, m.id, m.seat);
    assert t.seats ==
      (if Refusal(s, m).Some? then s.seats else if m.PutSeat? then s.seats[m.id := m.seat] else s.seats - {m.id});
    hide Refusal, After, Step, Applied, Materialised;
  }

  lemma PositionsKept(s: State, m: Mutation, actor: string)
    requires PositionsUnique(s)
    ensures PositionsUnique(After(s, m, actor))
  {
    hide After;
    if OnSeats(m) { PositionsKeptBySeats(s, m, actor); }
    else { OtherTablesStay(s, m, actor); }
  }

  lemma LiveInOther(s: State, m: Mutation, entity: Entity)
    requires entity != EntityOf(m)
    ensures Live(Applied(s, m), entity) == Live(s, entity)
  {
    hide Materialised;
    match m
    case Remove(_, _) =>
    case _ =>
  }

  lemma LiveInOwn(s: State, m: Mutation)
    ensures Live(Applied(s, m), EntityOf(m)) ==
      if m.Remove? then Live(s, EntityOf(m)) - {m.id} else Live(s, EntityOf(m)) + {m.id}
  {
    hide Materialised;
    match m
    case Remove(_, _) =>
    case _ =>
  }

  lemma UpdatesKnown(s: State, m: Mutation)
    requires Refusal(s, m).None? && !m.Remove? && !m.isNew
    ensures m.id in Live(s, EntityOf(m))
  {
  }

  lemma AuditAppended(s: State, m: Mutation, actor: string, entity: Entity)
    requires Refusal(s, m).None?
    ensures After(s, m, actor).audits == s.audits + [AuditOf(actor, m)]
    ensures Live(After(s, m, actor), entity) == Live(Applied(s, m), entity)
  {
    assert Applied(s, m).audits == s.audits by {
      hide Materialised;
      match m
      case Remove(_, _) =>
      case _ =>
    }
    hide Applied, Refusal;
  }

  lemma LiveAfter(s: State, m: Mutation, actor: string, entity: Entity)
    requires Refusal(s, m).None?
    ensures Live(After(s, m, actor), entity) ==
      if entity != EntityOf(m) then Live(s, entity)
      else if m.Remove? then Live(s, entity) - {m.id} else Live(s, entity) + {m.id}
    ensures !m.Remove? && !m.isNew ==> m.id in Live(s, EntityOf(m))
    ensures After(s, m, actor).audits == s.audits + [AuditOf(actor, m)]
  {
    hide *;
    AuditAppended(s, m, actor, entity);
    if entity != EntityOf(m) { LiveInOther(s, m, entity); } else { LiveInOwn(s, m); }
    if !m.Remove? && !m.isNew { UpdatesKnown(s, m); }
  }

  lemma AuditsKept(s: State, m: Mutation, actor: string)
    requires AuditsReplay(s)
    ensures AuditsReplay(After(s, m, actor))
  {
    var t := After(s, m, actor);
    if Refusal(s, m).None? {
      forall entity ensures Replay(t.audits, entity) == Live(t, entity) {
        assert Replay(s.audits, entity) == Live(s, entity);
        LiveAfter(s, m, actor, entity);
        assert t.audits[..|t.audits| - 1] == s.audits;
        hide After, Live, Refusal;
      }
      hide After, Live, Refusal, Replay;
    }
  }

  // ----- whole histories

  datatype Call = Call(m: Mutation, actor: string)

  ghost predicate History(s: State, calls: seq<Call>)
    decreases |calls|
  {
    calls == [] || (Issued(s, calls[0].m) && History(After(s, calls[0].m, calls[0].actor), calls[1..]))
  }

  ghost function Exec(s: State, calls: seq<Call>): State
    decreases |calls|
  {
    if calls == [] then s else Exec(After(s, calls[0].m, calls[0].actor), calls[1..])
  }

  lemma {:induction false} HistoriesKeep(s: State, calls: seq<Call>)
    requires Inv(s) && History(s, calls)
    ensures Inv(Exec(s, calls))
    decreases |calls|
  {
    if calls != [] {
      var m, actor := calls[0].m, calls[0].actor;
      InventoryKeptIff(s, m, actor);
      ScheduleKept(s, m, actor);
      PositionsKept(s, m, actor);
      AuditsKept(s, m, actor);
      hide InventoryMatches, NoClashes, PositionsUnique, ShowtimesLast, AuditsReplay, After, Issued;
      HistoriesKeep(After(s, m, actor), calls[1..]);
    }
  }

  /** From an empty repository, whatever is created, updated and deleted, accepted or refused: every
      showtime's inventory is the current layout of its studio at its price, same-studio showtimes
      never share an instant, seat positions are unique, and the trail's creations and deletions
      reproduce the live identifiers of every kind. */
  lemma EveryHistoryIsSound(calls: seq<Call>)
    requires History(EMPTY, calls)
    ensures Inv(Exec(EMPTY, calls))
  {
    HistoriesKeep(EMPTY, calls);
  }

  /** In list order, each showtime of a studio ends no later than the studio's next one starts. */
  lemma ListedShowtimesFollow(s: State, list: seq<Listed>, i: nat, j: nat)
    requires NoClashes(s) && ShowtimesLast(s) && Ordered(list, StartsBefore)
    requires forall l | l in list :: l.id in s.showtimes && s.showtimes[l.id] == l.showtime
    requires i < j < |list| && list[i].id != list[j].id && list[i].showtime.studio == list[j].showtime.studio
    ensures list[i].showtime.endsAt <= list[j].showtime.startsAt
  {
    assert list[i] in list && list[j] in list;
    assert !StartsBefore(list[j], list[i]);
    assert !Clash(s.showtimes[list[i].id], s.showtimes[list[j].id]);
  }

  // ----- histories in which new seats may reuse identifiers

  /** Stored inventory is the recomputed one before and after every call. */
  ghost predicate MatchesThroughout(s: State, calls: seq<Call>)
    decreases |calls|
  {
    InventoryMatches(s) && (calls != [] ==> MatchesThroughout(After(s, calls[0].m, calls[0].actor), calls[1..]))
  }

  ghost predicate NoSeatTaken(s: State, calls: seq<Call>)
    decreases |calls|
  {
    calls == [] ||
    (!TakesScheduledSeat(s, calls[0].m) && NoSeatTaken(After(s, calls[0].m, calls[0].actor), calls[1..]))
  }

  lemma MatchesAtStart(s: State, calls: seq<Call>)
    requires MatchesThroughout(s, calls)
    ensures InventoryMatches(s)
  {
  }

  lemma {:induction false} MatchesUnlessTaken(s: State, calls: seq<Call>)
    requires InventoryMatches(s)
    ensures MatchesThroughout(s, calls) <==> NoSeatTaken(s, calls)
    decreases |calls|
  {
    if calls != [] {
      var next := After(s, calls[0].m, calls[0].actor);
      InventoryKeptIff(s, calls[0].m, calls[0].actor);
      hide InventoryMatches, After, TakesScheduledSeat;
      if !TakesScheduledSeat(s, calls[0].m) { MatchesUnlessTaken(next, calls[1..]); }
      else if MatchesThroughout(s, calls) { MatchesAtStart(next, calls[1..]); }
    }
  }

  /** From an empty repository, whatever calls are made and whatever identifiers they carry, stored
      inventory is the recomputed one throughout exactly when no call takes a scheduled seat. */
  lemma InventoryMatchesIff(calls: seq<Call>)
    ensures MatchesThroughout(EMPTY, calls) <==> NoSeatTaken(EMPTY, calls)
  {
    assert InventoryMatches(EMPTY);
    MatchesUnlessTaken(EMPTY, calls);
  }

  const CINEMA := PutCinema(true, 1, Cinema("c", "a", "b"))
  const HERE := PutStudio(true, 1, Studio(1, "one"))
  const THERE := PutStudio(true, 2, Studio(1, "two"))
  const SEAT := PutSeat(true, 1, Seat(1, "A", "1", "REGULAR"))
  const MOVIE := PutMovie(true, 1, Movie("m", 90))
  const SCREENING := PutShowtime(true, 1, Showtime(1, 1, 0, 90, "1.00", "IDR"))
  const REUSE := PutSeat(true, 1, Seat(2, "A", "1", "REGULAR"))

  ghost predicate CanTake(s: State) {
    exists calls :: !NoSeatTaken(s, calls)
  }

  lemma TakenLater(s: State, m: Mutation)
    requires CanTake(After(s, m, "admin"))
    ensures CanTake(s)
  {
    var calls :| !NoSeatTaken(After(s, m, "admin"), calls);
    var longer := [Call(m, "admin")] + calls;
    assert longer[1..] == calls;
    hide After, TakesScheduledSeat;
    assert !NoSeatTaken(s, longer);
  }

  lemma ReuseTakes(s: State)
    requires 2 in s.studios && 1 in s.seats && s.seats[1].studio == 1 && HasShowtime(s, 1) && !HasShowtime(s, 2)
    requires !PositionTaken(s, 1, REUSE.seat)
    ensures CanTake(s)
  {
    assert TakesScheduledSeat(s, REUSE);
    hide TakesScheduledSeat;
    assert !NoSeatTaken(s, [Call(REUSE, "admin")]);
  }

  lemma Prepared()
    ensures var s := After(After(After(After(EMPTY, CINEMA, "admin"), HERE, "admin"), THERE, "admin"), SEAT, "admin");
      CanTake(After(After(s, MOVIE, "admin"), SCREENING, "admin"))
  {
    var s1 := After(EMPTY, CINEMA, "admin");
    var s2 := After(s1, HERE, "admin");
    var s3 := After(s2, THERE, "admin");
    var s4 := After(s3, SEAT, "admin");
    var s5 := After(s4, MOVIE, "admin");
    var s6 := After(s5, SCREENING, "admin");
    assert 1 in s6.showtimes && s6.showtimes[1].studio == 1;
    ReuseTakes(s6);
  }

  /** Without the promise that new identifiers are unused, a seat can be taken from its showtimes. */
  lemma SeatsCanBeTaken()
    ensures CanTake(EMPTY)
  {
    hide *;
    Prepared();
    var s1 := After(EMPTY, CINEMA, "admin");
    var s2 := After(s1, HERE, "admin");
    var s3 := After(s2, THERE, "admin");
    var s4 := After(s3, SEAT, "admin");
    TakenLater(After(s4, MOVIE, "admin"), SCREENING);
    TakenLater(s4, MOVIE);
    TakenLater(s3, SEAT);
    TakenLater(s2, THERE);
    TakenLater(s1, HERE);
    TakenLater(EMPTY, CINEMA);
  }
}
