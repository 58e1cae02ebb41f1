/** What requests for holds, and repetitions of them, are answered at any point of any run. */
module Holds {
  import opened Common
  import opened Store
  import opened Machine
  import opened SeatSafety
  import opened MoneySafety
  import opened Safety
  import opened Stability
  import BookingService
  import Sorting
  import Text
  import Uuid

  // ----- a new key

  lemma FullyLocked(seats: map<Id, SeatRow>, showtime: Id, seatIds: seq<Id>)
    ensures |LockedSeats(seats, showtime, seatIds)| == |seatIds| <==>
      (forall i, j | 0 <= i < j < |seatIds| :: seatIds[i] != seatIds[j])
      && (forall x | x in seatIds :: x in seats && seats[x].showtime == showtime)
    ensures |LockedSeats(seats, showtime, seatIds)| == |seatIds| ==>
      LockedSeats(seats, showtime, seatIds) == Elements(seatIds)
  {
    var locked, all := LockedSeats(seats, showtime, seatIds), Elements(seatIds);
    DistinctIffFullCount(seatIds);
    SubsetSizes(locked, all);
    if forall x | x in seatIds :: x in seats && seats[x].showtime == showtime {
      assert locked == all;
    }
    if locked == all {
      forall x | x in seatIds ensures x in seats && seats[x].showtime == showtime { assert x in all; }
    }
  }

  lemma FreeIffUnclaimed(s: State, t: Time, x: Id, now: Time)
    requires Inv(s, t) && t <= now && x in s.seats
    ensures FreeForHold(s.seats[x], now) <==> !SeatSafety.Claimed(s.orders, x, now)
  {
    assert SeatInv(s.seats, s.orders, t);
    SeatRowsIndexOrders(s.seats, s.orders, t, x, now);
    hide Inv, SeatInv, SeatSafety.Claimed;
  }

  /** The named seats are distinct rows of the showtime that no paid or live order lists. */
  ghost predicate SeatsFree(s: State, showtime: Id, seatIds: seq<Id>, now: Time) {
    && (forall i, j | 0 <= i < j < |seatIds| :: seatIds[i] != seatIds[j])
    && (forall x | x in seatIds :: x in s.seats && s.seats[x].showtime == showtime)
    && (forall x | x in seatIds :: !SeatSafety.Claimed(s.orders, x, now))
  }

  lemma SeatsFreeIffLockable(s: State, t: Time, showtime: Id, seatIds: seq<Id>, now: Time)
    requires Inv(s, t) && t <= now
    ensures var ids := LockedSeats(s.seats, showtime, seatIds);
      SeatsFree(s, showtime, seatIds, now) <==>
        |ids| == |seatIds| && forall x | x in ids :: FreeForHold(s.seats[x], now)
  {
    hide Inv, SeatSafety.Claimed, FreeForHold;
    FullyLocked(s.seats, showtime, seatIds);
    var ids := LockedSeats(s.seats, showtime, seatIds);
    forall x | x in ids ensures FreeForHold(s.seats[x], now) <==> !SeatSafety.Claimed(s.orders, x, now) {
      FreeIffUnclaimed(s, t, x, now);
    }
    if |ids| == |seatIds| {
      assert forall x :: x in seatIds <==> x in ids;
    }
  }

  lemma CodesAgreeIff(a: Id, b: Id)
    ensures BookingCode(a) == BookingCode(b) <==> Uuid.Hex(a, Uuid.DIGITS)[..8] == Uuid.Hex(b, Uuid.DIGITS)[..8]
  {
    hide Uuid.Render, Uuid.Hex;
    Uuid.RenderedHead(a);
    Uuid.RenderedHead(b);
    Uuid.HexIsLower(a, Uuid.DIGITS);
    Uuid.HexIsLower(b, Uuid.DIGITS);
    var p, q := Uuid.Render(a)[..8], Uuid.Render(b)[..8];
    assert Uuid.AllLower(p) && Uuid.AllLower(q);
    assert BookingCode(a)[4..] == Uuid.ToUpper(p) && BookingCode(b)[4..] == Uuid.ToUpper(q);
    if Uuid.ToUpper(p) == Uuid.ToUpper(q) { Uuid.UpperKeepsLowerDistinct(p, q); }
  }

  /** Booking codes collide exactly when the ids agree in their first eight digits. */
  lemma CodesCollideIff(a: Id, b: Id)
    requires Uuid.Fits(a) && Uuid.Fits(b)
    ensures BookingCode(a) == BookingCode(b) <==> Uuid.Leading(a, 24) == Uuid.Leading(b, 24)
  {
    hide *;
    CodesAgreeIff(a, b);
    Uuid.FirstGroupsAgreeIff(a, b);
    Uuid.RenderedHead(a);
    Uuid.RenderedHead(b);
  }

  /** The unique indexes refuse an id that is stored, or whose first eight digits are those of one. */
  lemma TakenIff(orders: map<Id, Order>, id: Id)
    ensures IdTaken(orders, id) <==>
      || id in orders
      || exists o :: o in orders && Uuid.Hex(o, Uuid.DIGITS)[..8] == Uuid.Hex(id, Uuid.DIGITS)[..8]
  {
    hide BookingCode, Uuid.Hex;
    forall o | o in orders
      ensures BookingCode(o) == BookingCode(id) <==>
        Uuid.Hex(o, Uuid.DIGITS)[..8] == Uuid.Hex(id, Uuid.DIGITS)[..8]
    {
      CodesAgreeIff(o, id);
    }
  }

  lemma HeadsAreLeads(orders: map<Id, Order>, id: Id)
    requires Uuid.Fits(id) && forall o | o in orders :: Uuid.Fits(o)
    ensures (exists o :: o in orders && Uuid.Hex(o, Uuid.DIGITS)[..8] == Uuid.Hex(id, Uuid.DIGITS)[..8]) <==>
      exists o :: o in orders && Uuid.Leading(o, 24) == Uuid.Leading(id, 24)
  {
    hide Uuid.Hex, Uuid.Leading, Uuid.Fits;
    forall o | o in orders
      ensures Uuid.Hex(o, Uuid.DIGITS)[..8] == Uuid.Hex(id, Uuid.DIGITS)[..8] <==>
        Uuid.Leading(o, 24) == Uuid.Leading(id, 24)
    {
      hide *;
      Uuid.FirstGroupsAgreeIff(o, id);
      Uuid.RenderedHead(o);
      Uuid.RenderedHead(id);
    }
  }

  /** A first request under a key is granted exactly when its texts are uuids, its seats are free, its
      id is new and no stored order's id begins with the same eight digits; otherwise the first of
      these that fails is the answer and nothing changes. */
  lemma FreshHoldSucceedsIff(s: State, t: Time, op: Op, now: Time)
    requires Reachable(s, t) && op.PlaceHold? && t <= now && (op.user, op.key) !in s.keys
    ensures var (s', reply) := PlaceHoldStep(s, op, now);
      if Uuid.Parse(op.showtime).None? || !AllParse(op.seatIds) then s' == s && reply == Refused(MalformedId)
      else if !SeatsFree(s, Uuid.Parse(op.showtime).value, Parsed(op.seatIds), now) then
        s' == s && reply == Refused(SeatUnavailable)
      else if op.id in s.orders
           || exists o :: o in s.orders && Uuid.Hex(o, Uuid.DIGITS)[..8] == Uuid.Hex(op.id, Uuid.DIGITS)[..8] then
        s' == s && reply == Refused(StorageConflict)
      else reply == Done(op.id)
  {
    hide Uuid.Hex, Reachable, Inv, SeatsFree, FreeForHold, HoldSeats, LockedSeats, ItemsFor, IdTaken, Parsed;
    ReachableIsSafe(s, t);
    if Uuid.Parse(op.showtime).Some? && AllParse(op.seatIds) {
      SeatsFreeIffLockable(s, t, Uuid.Parse(op.showtime).value, Parsed(op.seatIds), now);
      TakenIff(s.orders, op.id);
    }
  }

  /** Free seats are granted to every new id that fits the column, unless a stored one has the same
      leading eight digits, as numbers. */
  lemma FreeSeatsGrantedIff(s: State, t: Time, op: Op, now: Time)
    requires Reachable(s, t) && op.PlaceHold? && t <= now && (op.user, op.key) !in s.keys
    requires Uuid.Parse(op.showtime).Some? && AllParse(op.seatIds)
    requires SeatsFree(s, Uuid.Parse(op.showtime).value, Parsed(op.seatIds), now)
    requires Uuid.Fits(op.id) && forall o | o in s.orders :: Uuid.Fits(o)
    ensures PlaceHoldStep(s, op, now).1 ==
      if op.id in s.orders || exists o :: o in s.orders && Uuid.Leading(o, 24) == Uuid.Leading(op.id, 24)
      then Refused(StorageConflict) else Done(op.id)
  {
    hide *;
    FreshHoldSucceedsIff(s, t, op, now);
    HeadsAreLeads(s.orders, op.id);
  }

  /** A granted hold lists its seats at their current prices, holds them, and touches nothing else. */
  lemma FreshHoldEffect(s: State, op: Op, now: Time)
    requires op.PlaceHold? && Grants(s, op, now)
    ensures Uuid.Parse(op.showtime).Some? && AllParse(op.seatIds)
    ensures var s', wanted := PlaceHoldStep(s, op, now).0, Elements(Parsed(op.seatIds));
      && op.id !in s.orders && op.id in s'.orders
      && s' == s.(orders := s.orders[op.id := s'.orders[op.id]], keys := s.keys[(op.user, op.key) := op.id],
                  seats := s'.seats)
      && s'.orders[op.id] == Order(op.user, Uuid.Parse(op.showtime).value, op.key, PendingPayment, op.expiresAt,
                                   s'.orders[op.id].items)
      && s'.orders[op.id].items.Keys == wanted && s'.seats.Keys == s.seats.Keys
      && (forall x | x in wanted :: x in s.seats && s'.orders[op.id].items[x] == s.seats[x].price
            && s'.seats[x] == SeatRow(s.seats[x].showtime, s.seats[x].price, SeatHeld, Some(op.id), Some(op.expiresAt)))
      && (forall x | x in s.seats && x !in wanted :: s'.seats[x] == s.seats[x])
  {
    hide PlaceHoldStep, Grants, FreeForHold, LockedSeats, Parsed;
    GrantCases(s, op, now);
    FullyLocked(s.seats, Uuid.Parse(op.showtime).value, Parsed(op.seatIds));
    LockedItems(s.seats, Uuid.Parse(op.showtime).value, Parsed(op.seatIds));
    LockedRows(s.seats, Uuid.Parse(op.showtime).value, Parsed(op.seatIds));
  }

  // ----- cancelling undoes a hold

  lemma NewIdHoldsNothing(s: State, t: Time, id: Id, x: Id)
    requires Inv(s, t) && id !in s.orders && x in s.seats
    ensures !HeldBy(s.seats[x], id)
  {
    assert SeatInv(s.seats, s.orders, t);
    assert HoldsBacked(s.seats, s.orders);
  }

  lemma ReleaseUndoesHold(seats: map<Id, SeatRow>, ids: set<Id>, o: Id, expiresAt: Time, now: Time)
    requires forall x | x in ids :: x in seats && FreeForHold(seats[x], now)
    requires forall x | x in seats :: !HeldBy(seats[x], o)
    ensures var seats' := ReleaseSeats(HoldSeats(seats, ids, o, expiresAt), {o});
      && seats'.Keys == seats.Keys
      && (forall x | x in seats && x !in ids :: seats'[x] == seats[x])
      && (forall x, at | x in seats && now <= at :: ShownStatus(seats'[x], at) == ShownStatus(seats[x], at))
  {
  }

  /** Cancelling a granted hold in time undoes it: other orders and seats are as they were, and the
      public seat map shows at every later instant what it would have shown without the hold. */
  lemma CancelUndoesHold(s: State, t: Time, op: Op, now: Time, cancelledAt: Time)
    requires Reachable(s, t) && op.PlaceHold? && Grants(s, op, now) && cancelledAt < op.expiresAt
    ensures AllParse(op.seatIds)
    ensures var (s', reply) := CancelStep(PlaceHoldStep(s, op, now).0, op.id, op.user, cancelledAt);
      && reply == Done(op.id)
      && s'.orders.Keys == s.orders.Keys + {op.id} && s'.orders[op.id].status == Cancelled
      && (forall o | o in s.orders :: s'.orders[o] == s.orders[o])
      && s'.seats.Keys == s.seats.Keys
      && (forall x | x in s.seats && x !in Parsed(op.seatIds) :: s'.seats[x] == s.seats[x])
      && (forall x, at | x in s.seats && now <= at :: ShownStatus(s'.seats[x], at) == ShownStatus(s.seats[x], at))
  {
    hide Reachable, Inv, ItemsFor, Grants, PlaceHoldStep, HoldSeats, ReleaseSeats, FreeForHold, ShownStatus, HeldBy,
      LockedSeats, Parsed;
    ReachableIsSafe(s, t);
    GrantCases(s, op, now);
    var ids := LockedSeats(s.seats, Uuid.Parse(op.showtime).value, Parsed(op.seatIds));
    LockedRows(s.seats, Uuid.Parse(op.showtime).value, Parsed(op.seatIds));
    FullyLocked(s.seats, Uuid.Parse(op.showtime).value, Parsed(op.seatIds));
    forall x | x in s.seats ensures !HeldBy(s.seats[x], op.id) { NewIdHoldsNothing(s, t, op.id, x); }
    ReleaseUndoesHold(s.seats, ids, op.id, op.expiresAt, now);
  }

  // ----- the same key again

  /** The texts that a granted request's order is read back as. */
  ghost function StoredShowtime(op: Op): string
    requires op.PlaceHold? && Uuid.Parse(op.showtime).Some?
  {
    Uuid.Render(Uuid.Parse(op.showtime).value)
  }

  ghost function StoredSeats(op: Op): seq<string>
    requires op.PlaceHold? && AllParse(op.seatIds)
  {
    Rendered(Ascending(Elements(Parsed(op.seatIds))))
  }

  /** At any later point of any run, another request with the user and key of a granted one is
      answered with the stored order exactly when its texts are the canonical ones, the seats in
      their sorted order; otherwise it is refused. Either way nothing changes. */
  lemma RetryAnsweredIffCanonical(s: State, t: Time, first: Event, trace: seq<Event>, again: Event)
    requires Reachable(s, t) && first.op.PlaceHold? && again.op.PlaceHold?
    requires Grants(s, first.op, first.now)
    requires (first.op.user, first.op.key) == (again.op.user, again.op.key)
    requires Run(Step(s, first), HoldClock(s, t, first), trace)
    ensures Uuid.Parse(first.op.showtime).Some? && AllParse(first.op.seatIds)
    ensures var later := Exec(Step(s, first), trace);
      PlaceHoldStep(later, again.op, again.now) ==
        if again.op.showtime == StoredShowtime(first.op) && again.op.seatIds == StoredSeats(first.op)
        then (later, Done(first.op.id)) else (later, Refused(IdempotencyKeyReused))
  {
    hide Reachable, Inv, Run, Exec, Grants, SalesPersist, PaymentsPersist, TicketsPersist, DeliveriesPersist, HoldSeats,
      FreeForHold, LockedSeats, ItemsFor, Parsed, Rendered;
    var s1 := Step(s, first);
    ReachableIsSafe(s, t);
    StepKeeps(s, t, first);
    RunPersists(s1, HoldClock(s, t, first), trace);
    GrantCases(s, first.op, first.now);
    FreshHoldEffect(s, first.op, first.now);
  }

  /** The very same request sent again is answered with its order exactly when its own texts are
      canonical: that is the condition under which idempotency keys work. */
  lemma SameRequestAnsweredIff(s: State, t: Time, first: Event, trace: seq<Event>, again: Event)
    requires Reachable(s, t) && first.op.PlaceHold? && Grants(s, first.op, first.now)
    requires again.op.PlaceHold? && (again.op.user, again.op.key) == (first.op.user, first.op.key)
    requires again.op.showtime == first.op.showtime && again.op.seatIds == first.op.seatIds
    requires Run(Step(s, first), HoldClock(s, t, first), trace)
    ensures Uuid.Parse(first.op.showtime).Some? && AllParse(first.op.seatIds)
    ensures PlaceHoldStep(Exec(Step(s, first), trace), again.op, again.now).1 == Done(first.op.id) <==>
      first.op.showtime == StoredShowtime(first.op) && first.op.seatIds == StoredSeats(first.op)
  {
    hide *;
    RetryAnsweredIffCanonical(s, t, first, trace, again);
  }

  lemma StoredSeatsAreSorted(op: Op)
    requires op.PlaceHold? && AllParse(op.seatIds)
    ensures Sorting.Ordered(StoredSeats(op), Text.Less)
  {
    var rows := Elements(Parsed(op.seatIds));
    var ids := Ascending(rows);
    AscendingLists(rows);
    forall i, j | 0 <= i < j < |ids| ensures !Text.Less(Uuid.Render(ids[j]), Uuid.Render(ids[i])) {
      assert ids[j] in Elements(ids) && ids[i] < ids[j];
      var k :| 0 <= k < |op.seatIds| && Parsed(op.seatIds)[k] == ids[j];
      Uuid.ParsedFits(op.seatIds[k]);
      Uuid.RenderAscends(ids[i], ids[j]);
      Text.LessIsStrict(Uuid.Render(ids[i]), Uuid.Render(ids[j]));
    }
  }

  lemma SentSeatsMatchIff(sent: seq<string>, op: Op)
    requires op.PlaceHold? && AllParse(op.seatIds)
    ensures BookingService.Canonical(sent) == StoredSeats(op) <==>
      multiset(BookingService.Trimmed(sent)) == multiset(StoredSeats(op))
  {
    hide StoredSeats;
    StoredSeatsAreSorted(op);
    Text.LessSorts();
    Sorting.SortedBySorts(BookingService.Trimmed(sent), Text.Less);
    if multiset(BookingService.Trimmed(sent)) == multiset(StoredSeats(op)) {
      Sorting.OrderedIsUnique(BookingService.Canonical(sent), StoredSeats(op), Text.Less);
    }
  }

  /** Through the service, which trims and sorts the seats it is sent: a retry is answered with the
      stored order exactly when its showtime text is the canonical one and its seats are, in any
      order and padding, the canonical texts of the order's seats. */
  lemma ServiceRetryAnsweredIff(s: State, t: Time, first: Event, trace: seq<Event>, again: Event, sent: seq<string>)
    requires Reachable(s, t) && first.op.PlaceHold? && again.op.PlaceHold? && Grants(s, first.op, first.now)
    requires (first.op.user, first.op.key) == (again.op.user, again.op.key)
    requires again.op.seatIds == BookingService.Canonical(sent)
    requires Run(Step(s, first), HoldClock(s, t, first), trace)
    ensures Uuid.Parse(first.op.showtime).Some? && AllParse(first.op.seatIds)
    ensures PlaceHoldStep(Exec(Step(s, first), trace), again.op, again.now).1 == Done(first.op.id) <==>
      again.op.showtime == StoredShowtime(first.op)
      && multiset(BookingService.Trimmed(sent)) == multiset(StoredSeats(first.op))
  {
    hide *;
    RetryAnsweredIffCanonical(s, t, first, trace, again);
    SentSeatsMatchIff(sent, first.op);
  }

  // ----- an upper-case identifier

  function UpperCase(op: Op): Op
    requires op.PlaceHold?
  {
    op.(showtime := Uuid.ToUpper(op.showtime))
  }

  /** A request in upper case is granted like any other, and then refused when it is sent again. */
  lemma UpperCaseRetryRefused(s: State, t: Time, op: Op, now: Time)
    requires Reachable(s, t) && op.PlaceHold? && Grants(s, op, now)
    requires Uuid.ToUpper(op.showtime) != op.showtime == Uuid.Render(Uuid.Parse(op.showtime).value)
    ensures UpperCase(op).PlaceHold? && Grants(s, UpperCase(op), now)
    ensures PlaceHoldStep(Step(s, At(now, UpperCase(op))), UpperCase(op), now).1 == Refused(IdempotencyKeyReused)
  {
    hide Reachable, HoldSeats, FreeForHold, LockedSeats, ItemsFor, Parsed, Rendered, IdTaken;
    Uuid.ParseIgnoresCase(op.showtime);
    var e := At(now, UpperCase(op));
    assert Grants(s, e.op, now);
    RetryAnsweredIffCanonical(s, t, e, [], e);
  }

  const SHOWTIME: Id := 10
  const SEAT: Id := 11
  const STOCK := At(0, ReplaceInventory(SHOWTIME, map[SEAT := 100]))
  ghost const STOCKED: State := EMPTY.(seats := map[SEAT := SeatRow(SHOWTIME, 100, SeatAvailable, None, None)])
  const REQUEST := PlaceHold(1, 1, Uuid.Render(SHOWTIME), "key", 10, [Uuid.Render(SEAT)])

  lemma StockedIsReachable()
    ensures Reachable(STOCKED, 0)
  {
    assert ReplaceRows(EMPTY.seats, SHOWTIME, map[SEAT := 100]) == STOCKED.seats;
    assert Step(EMPTY, STOCK) == STOCKED;
    assert [STOCK][1..] == [];
    assert Run(STOCKED, 0, []) && Exec(STOCKED, []) == STOCKED && LastHoldClock(STOCKED, 0, []) == 0;
    assert Run(EMPTY, 0, [STOCK]) && Exec(EMPTY, [STOCK]) == STOCKED && LastHoldClock(EMPTY, 0, [STOCK]) == 0;
  }

  lemma SmallIdsFit()
    ensures Uuid.Fits(SHOWTIME) && Uuid.Fits(SEAT)
  {
    assert Uuid.Pow16(1) == 16 * Uuid.Pow16(0);
    Uuid.Pow16Grows(1, Uuid.DIGITS);
  }

  lemma RequestIsGranted()
    ensures REQUEST.PlaceHold? && REQUEST.showtime == Uuid.Render(SHOWTIME)
    ensures Grants(STOCKED, REQUEST, 0) && Uuid.Parse(REQUEST.showtime) == Some(SHOWTIME)
  {
    hide Uuid.Render, Uuid.Parse, BookingCode;
    SmallIdsFit();
    Uuid.ParseRender(SHOWTIME);
    Uuid.ParseRender(SEAT);
    assert AllParse(REQUEST.seatIds) && Parsed(REQUEST.seatIds) == [SEAT];
    assert LockedSeats(STOCKED.seats, SHOWTIME, [SEAT]) == {SEAT};
  }

  lemma RequestHasLetter()
    ensures Uuid.ToUpper(REQUEST.showtime) != REQUEST.showtime
  {
    hide Uuid.Render;
    Uuid.RenderedChars(SHOWTIME);
    LastDigit(SHOWTIME, Uuid.DIGITS);
    assert REQUEST.showtime[35] == 'a' && Uuid.ToUpper(REQUEST.showtime)[35] == 'A';
  }

  lemma LastDigit(id: Id, k: nat)
    requires k > 0
    ensures Uuid.Hex(id, k)[k - 1] == Uuid.HexChar(id % 16)
  {
  }

  ghost predicate GrantedThenRefused(s: State, op: Op) {
    && op.PlaceHold? && Grants(s, op, 0)
    && PlaceHoldStep(Step(s, At(0, op)), op, 0).1 == Refused(IdempotencyKeyReused)
  }

  lemma GrantedThenRefusedIs(s: State, op: Op)
    requires op.PlaceHold? && Grants(s, op, 0)
    requires PlaceHoldStep(Step(s, At(0, op)), op, 0).1 == Refused(IdempotencyKeyReused)
    ensures GrantedThenRefused(s, op)
  {
    hide Grants, PlaceHoldStep, Step;
  }

  /** Such a request exists: with the upper-case text of showtime 10 it is granted, and refused when
      sent again although nothing in it changed. */
  lemma IdempotencyFailsForUpperCase()
    ensures exists s: State, t: Time, op: Op :: Reachable(s, t) && GrantedThenRefused(s, op)
  {
    hide *;
    StockedIsReachable();
    RequestIsGranted();
    RequestHasLetter();
    UpperCaseRetryRefused(STOCKED, 0, REQUEST, 0);
    assert GrantedThenRefused(STOCKED, UpperCase(REQUEST)) by { GrantedThenRefusedIs(STOCKED, UpperCase(REQUEST)); }
  }
}
