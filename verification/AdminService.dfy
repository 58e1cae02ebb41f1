/** The administration service: validates and normalises input, then pairs each repository
    mutation with its audit event. A blank identifier is `None`. */
module AdminService {
  import opened AdminMemory
  import opened AdminSafety
  import opened Common
  import opened Text
  import Price

  const ZERO_TIME := 0

  datatype SeatInput = SeatInput(actor: string, studio: Option<Id>, row: string, number: string, kind: string)

  datatype StudioInput = StudioInput(actor: string, cinema: Option<Id>, name: string)

  datatype ShowtimeInput = ShowtimeInput(actor: string, movie: Option<Id>, studio: Option<Id>,
                                         startsAt: int, endsAt: int,
                                         basePrice: string, currency: string)

  // ----- currency codes

  /** unicode.ToUpper as far as it can yield A to Z: the dotless i and the long s do as well. */
  function Upper(c: char): char {
    if 'a' <= c <= 'z' then ((c as int) - 32) as char
    else if c == '\U{131}' then 'I'
    else if c == '\U{17F}' then 'S'
    else c
  }

  function ToUpper(s: string): (r: string)
    ensures |r| == |s| && forall i | 0 <= i < |s| :: r[i] == Upper(s[i])
  {
    seq(|s|, i requires 0 <= i < |s| => Upper(s[i]))
  }

  predicate IsCurrencyCode(s: string) {
    |s| == 3 && forall i | 0 <= i < |s| :: 'A' <= s[i] <= 'Z'
  }

  method NormalizeCurrency(value: string) returns (currency: Option<string>)
    ensures currency == CurrencyOf(value)
  {
    var code := ToUpper(TrimSpace(value));
    if |code| != 3 { return None; }
    for i := 0 to |code|
      invariant forall k | 0 <= k < i :: 'A' <= code[k] <= 'Z'
    {
      if code[i] < 'A' || code[i] > 'Z' { return None; }
    }
    return Some(code);
  }

  function CurrencyOf(value: string): Option<string> {
    var code := ToUpper(TrimSpace(value));
    if IsCurrencyCode(code) then Some(code) else None
  }

  lemma CurrencyCodesAreFixed(value: string)
    requires CurrencyOf(value).Some?
    ensures IsCurrencyCode(CurrencyOf(value).value) && CurrencyOf(CurrencyOf(value).value) == CurrencyOf(value)
  {
    var code := CurrencyOf(value).value;
    TrimmedIsFixed(code);
    assert ToUpper(code) == code;
  }

  // ----- what each request asks of the repository

  /** A created row gets a fresh identifier, and so does an update that names none. */
  function Target(isNew: bool, id: Option<Id>, newId: Id): Id {
    if isNew || id.None? then newId else id.value
  }

  predicate Blank(s: string) {
    TrimSpace(s) == []
  }

  function StudioMutation(input: StudioInput, isNew: bool, id: Option<Id>, newId: Id): Option<Mutation> {
    if Blank(input.actor) || input.cinema.None? || Blank(input.name) then None
    else Some(PutStudio(isNew, Target(isNew, id, newId), Studio(input.cinema.value, TrimSpace(input.name))))
  }

  function SeatMutation(input: SeatInput, isNew: bool, id: Option<Id>, newId: Id): Option<Mutation> {
    if Blank(input.actor) || input.studio.None? || Blank(input.row) || Blank(input.number) || Blank(input.kind)
    then None
    else Some(PutSeat(isNew, Target(isNew, id, newId),
                      Seat(input.studio.value, TrimSpace(input.row), TrimSpace(input.number), TrimSpace(input.kind))))
  }

  function ShowtimeMutation(input: ShowtimeInput, isNew: bool, id: Option<Id>, newId: Id): Option<Mutation> {
    var price, currency := Price.Normalize(input.basePrice), CurrencyOf(input.currency);
    if Blank(input.actor) || input.movie.None? || input.studio.None?
       || input.startsAt == ZERO_TIME || input.endsAt == ZERO_TIME || input.startsAt >= input.endsAt
       || (!isNew && id.None?) || price.None? || currency.None? then None
    else Some(PutShowtime(isNew, Target(isNew, id, newId),
                          Showtime(input.movie.value, input.studio.value, input.startsAt, input.endsAt,
                                   price.value, currency.value)))
  }

  // ----- the code

  method SaveStudio(repository: MemoryRepository, input: StudioInput, isNew: bool, id: Option<Id>, newId: Id)
    returns (r: Option<Error>)
    modifies repository
    ensures StudioMutation(input, isNew, id, newId).None? ==>
      r == Some(InvalidInput) && repository.View() == old(repository.View())
    ensures StudioMutation(input, isNew, id, newId).Some? ==>
      var m := StudioMutation(input, isNew, id, newId).value;
      r == Refusal(old(repository.View()), m) && repository.View() == After(old(repository.View()), m, input.actor)
  {
    if TrimSpace(input.actor) == [] || input.cinema.None? || TrimSpace(input.name) == [] { return Some(InvalidInput); }
    var target := if isNew || id.None? then newId else id.value;
    var studio := Studio(input.cinema.value, TrimSpace(input.name));
    var audit := AuditEvent(input.actor, StudioEntity, target, if isNew then Create else Update);
    r := repository.SaveStudio(isNew, target, studio, audit);
  }

  method SaveSeat(repository: MemoryRepository, input: SeatInput, isNew: bool, id: Option<Id>, newId: Id)
    returns (r: Option<Error>)
    modifies repository
    ensures SeatMutation(input, isNew, id, newId).None? ==>
      r == Some(InvalidInput) && repository.View() == old(repository.View())
    ensures SeatMutation(input, isNew, id, newId).Some? ==>
      var m := SeatMutation(input, isNew, id, newId).value;
      r == Refusal(old(repository.View()), m)
      && repository.View() == After(old(repository.View()), m, TrimSpace(input.actor))
  {
    var actor, row, number, kind :=
      TrimSpace(input.actor), TrimSpace(input.row), TrimSpace(input.number), TrimSpace(input.kind);
    if actor == [] || input.studio.None? || row == [] || number == [] || kind == [] { return Some(InvalidInput); }
    var target := if isNew || id.None? then newId else id.value;
    var seat := Seat(input.studio.value, row, number, kind);
    var audit := AuditEvent(actor, SeatEntity, target, if isNew then Create else Update);
    if isNew { r := repository.CreateSeat(target, seat, audit); }
    else { r := repository.UpdateSeat(target, seat, audit); }
  }

  method SaveShowtime(repository: MemoryRepository, input: ShowtimeInput, isNew: bool, id: Option<Id>, newId: Id)
    returns (r: Option<Error>)
    modifies repository
    ensures ShowtimeMutation(input, isNew, id, newId).None? ==>
      r == Some(InvalidInput) && repository.View() == old(repository.View())
    ensures ShowtimeMutation(input, isNew, id, newId).Some? ==>
      var m := ShowtimeMutation(input, isNew, id, newId).value;
      r == Refusal(old(repository.View()), m)
      && repository.View() == After(old(repository.View()), m, TrimSpace(input.actor))
  {
    var actor := TrimSpace(input.actor);
    var basePrice := Price.NormalizePrice(input.basePrice);
    if actor == [] || input.movie.None? || input.studio.None? || input.startsAt == ZERO_TIME
       || input.endsAt == ZERO_TIME
       || !(input.startsAt < input.endsAt) || (!isNew && id.None?) || basePrice.None? {
      return Some(InvalidInput);
    }
    var currency := NormalizeCurrency(input.currency);
    if currency.None? { return Some(InvalidInput); }
    var target := if isNew || id.None? then newId else id.value;
    var showtime :=
      Showtime(input.movie.value, input.studio.value, input.startsAt, input.endsAt, basePrice.value, currency.value);
    var audit := AuditEvent(actor, ShowtimeEntity, target, if isNew then Create else Update);
    r := repository.SaveShowtime(isNew, target, showtime, audit);
  }

  method Delete(repository: MemoryRepository, actor: string, entity: Entity, id: Option<Id>) returns (r: Option<Error>)
    requires entity != StudioEntity
    modifies repository
    ensures Blank(actor) || id.None? ==> r == Some(InvalidInput) && repository.View() == old(repository.View())
    ensures !Blank(actor) && id.Some? ==>
      r == Refusal(old(repository.View()), Remove(entity, id.value))
      && repository.View() == After(old(repository.View()), Remove(entity, id.value), TrimSpace(actor))
  {
    var actorUserID := TrimSpace(actor);
    if actorUserID == [] || id.None? { return Some(InvalidInput); }
    var audit := AuditEvent(actorUserID, entity, id.value, AdminMemory.Delete);
    match entity {
      case CinemaEntity => r := repository.DeleteCinema(id.value, audit);
      case SeatEntity => r := repository.DeleteSeat(id.value, audit);
      case MovieEntity => r := repository.DeleteMovie(id.value, audit);
      case ShowtimeEntity => r := repository.DeleteShowtime(id.value, audit);
    }
  }

  /** Like the other deletions, except that the actor's name is recorded as it came. */
  method DeleteStudio(repository: MemoryRepository, actor: string, id: Option<Id>) returns (r: Option<Error>)
    modifies repository
    ensures Blank(actor) || id.None? ==> r == Some(InvalidInput) && repository.View() == old(repository.View())
    ensures !Blank(actor) && id.Some? ==>
      r == Refusal(old(repository.View()), Remove(StudioEntity, id.value))
      && repository.View() == After(old(repository.View()), Remove(StudioEntity, id.value), actor)
  {
    if TrimSpace(actor) == [] || id.None? { return Some(InvalidInput); }
    r := repository.DeleteStudio(id.value, AuditEvent(actor, StudioEntity, id.value, AdminMemory.Delete));
  }

  // ----- what is asked for

  /** A seat is asked for exactly when the actor, the studio and the three texts are there; it is asked
      for with the texts trimmed, under a new identifier unless an update names one. */
  lemma SeatAskedIff(input: SeatInput, isNew: bool, id: Option<Id>, newId: Id)
    ensures var m := SeatMutation(input, isNew, id, newId);
      && (m.Some? <==> !AllSpace(input.actor) && input.studio.Some? && !AllSpace(input.row) && !AllSpace(input.number)
                       && !AllSpace(input.kind))
      && (m.Some? ==>
            && m.value.PutSeat? && m.value.isNew == isNew
            && m.value.id == (if isNew || id == None then newId else id.value)
            && m.value.seat.studio == input.studio.value && m.value.seat.row == TrimSpace(input.row)
            && m.value.seat.number == TrimSpace(input.number) && m.value.seat.kind == TrimSpace(input.kind))
  {
    TrimmedAwayIff(input.actor);
    TrimmedAwayIff(input.row);
    TrimmedAwayIff(input.number);
    TrimmedAwayIff(input.kind);
    hide TrimSpace, AllSpace;
  }

  lemma StudioAskedIff(input: StudioInput, isNew: bool, id: Option<Id>, newId: Id)
    ensures var m := StudioMutation(input, isNew, id, newId);
      && (m.Some? <==> !AllSpace(input.actor) && input.cinema.Some? && !AllSpace(input.name))
      && (m.Some? ==>
            && m.value.PutStudio? && m.value.isNew == isNew
            && m.value.id == (if isNew || id == None then newId else id.value)
            && m.value.studio.cinema == input.cinema.value && m.value.studio.name == TrimSpace(input.name))
  {
    TrimmedAwayIff(input.actor);
    TrimmedAwayIff(input.name);
    hide TrimSpace, AllSpace;
  }

  /** The letters whose upper case is one of A to Z. */
  predicate IsLetter(c: char) {
    'A' <= c <= 'Z' || 'a' <= c <= 'z' || c == '\U{131}' || c == '\U{17F}'
  }

  lemma CurrencyIff(value: string)
    ensures CurrencyOf(value).Some? <==>
      |TrimSpace(value)| == 3 && forall i | 0 <= i < |TrimSpace(value)| :: IsLetter(TrimSpace(value)[i])
    ensures CurrencyOf(value).Some? ==>
      forall i | 0 <= i < 3 :: CurrencyOf(value).value[i] == Upper(TrimSpace(value)[i])
  {
    hide TrimSpace;
    var code, text := ToUpper(TrimSpace(value)), TrimSpace(value);
    forall i | 0 <= i < |text| ensures 'A' <= code[i] <= 'Z' <==> IsLetter(text[i]) {}
    if |text| == 3 && IsCurrencyCode(code) {
      forall i | 0 <= i < |text| ensures IsLetter(text[i]) { assert 'A' <= code[i] <= 'Z'; }
    }
  }

  /** A showtime is asked for exactly when the actor, the movie, the studio, two instants in order, an
      acceptable price and three letters of a currency are there, and an update names its showtime. */
  lemma ShowtimeAskedIff(input: ShowtimeInput, isNew: bool, id: Option<Id>, newId: Id)
    ensures var m, price := ShowtimeMutation(input, isNew, id, newId), Price.Normalize(input.basePrice);
      && (m.Some? <==>
            && !AllSpace(input.actor) && input.movie.Some? && input.studio.Some? && (isNew || id.Some?)
            && input.startsAt != 0 && input.endsAt != 0 && input.startsAt < input.endsAt && price.Some?
            && |TrimSpace(input.currency)| == 3
            && forall i | 0 <= i < |TrimSpace(input.currency)| :: IsLetter(TrimSpace(input.currency)[i]))
      && (m.Some? ==>
            && m.value.PutShowtime? && m.value.isNew == isNew && m.value.id == (if isNew then newId else id.value)
            && m.value.showtime == Showtime(input.movie.value, input.studio.value, input.startsAt, input.endsAt,
                                            price.value, m.value.showtime.currency)
            && Some(m.value.showtime.currency) == CurrencyOf(input.currency))
  {
    TrimmedAwayIff(input.actor);
    CurrencyIff(input.currency);
    hide TrimSpace, AllSpace, IsLetter, CurrencyOf, Price.Normalize;
  }

  // ----- what the service guarantees

  /** A showtime the service asks for takes time, has a canonical price of the value that was sent
      and a three-letter currency, and sending its own price and currency back asks for the same
      showtime exactly when the price fits the column; otherwise it is refused. */
  lemma ShowtimeCanBeResent(s: State, input: ShowtimeInput, isNew: bool, id: Option<Id>, newId: Id)
    returns (left: string, whole: string, fraction: string, right: string, w: string, f: string)
    requires ShowtimeMutation(input, isNew, id, newId).Some?
    ensures Price.AllDigits(whole) && Price.AllDigits(fraction) && Price.AllDigits(w) && Price.AllDigits(f)
    ensures AllSpace(left) && AllSpace(right) && input.basePrice == left + Price.Numeral(whole, fraction) + right
    ensures var m := ShowtimeMutation(input, isNew, id, newId).value;
      && Issued(s, m)
      && m.showtime.basePrice == Price.Numeral(w, f) && Price.Value(w, f) == Price.Value(whole, fraction)
      && IsCurrencyCode(m.showtime.currency)
      && ShowtimeMutation(input.(basePrice := m.showtime.basePrice, currency := m.showtime.currency), isNew, id, newId)
        == if Price.FitsColumn(w, f) then Some(m) else None
  {
    left, whole, fraction, right, w, f := Price.NormalizedPrice(input.basePrice);
    CurrencyCodesAreFixed(input.currency);
    hide Price.Normalize, Price.FitsColumn, CurrencyOf, Price.Numeral, Price.Value;
  }

  /** Seats are issued under a fresh identifier, so the service only makes mutations that keep the
      invariants of the repository. */
  lemma ServiceKeepsInvariants(s: State, seat: SeatInput, showtime: ShowtimeInput, studio: StudioInput, isNew: bool,
                               id: Option<Id>, newId: Id,
                               m: Mutation, actor: string)
    requires Inv(s) && newId !in s.seats
    requires Some(m) in {SeatMutation(seat, isNew, id, newId), ShowtimeMutation(showtime, isNew, id, newId),
                         StudioMutation(studio, isNew, id, newId)}
    ensures Inv(After(s, m, actor))
  {
    InventoryKeptIff(s, m, actor);
    ScheduleKept(s, m, actor);
    PositionsKept(s, m, actor);
    AuditsKept(s, m, actor);
    hide InventoryMatches, NoClashes, PositionsUnique, ShowtimesLast, AuditsReplay, After;
  }
}
