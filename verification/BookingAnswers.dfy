/** The in-memory booking repository behind its service, row by row: why an order or a seat changes,
    and what each request is answered. */
module BookingAnswers {
  import opened BookingMemory
  import opened BookingService
  import opened Common
  import opened Sorting
  import opened Text

  // ----- orders and seats

  predicate Overdue(order: Order, now: int) {
    order.status == PendingPayment && order.expiresAt <= now
  }

  /** Its own user cancels it while it is pending and not overdue. */
  predicate Cancels(s: State, op: Op, id: string) {
    && op.Cancel? && op.orderID == id && id in s.orders && s.orders[id].user == op.user
    && s.orders[id].status == PendingPayment && op.now < s.orders[id].expiresAt
  }

  /** An expiry takes overdue orders, as many as its limit allows, and leaves none that expired before
      one it takes. */
  ghost predicate TakesEarliest(s: State, now: int, limit: int, batch: set<string>) {
    && (forall id | id in batch :: id in s.orders && Overdue(s.orders[id], now))
    && |batch| <= Max(limit, 0)
    && (forall id | id in s.orders && Overdue(s.orders[id], now) && id !in batch ::
          |batch| == Max(limit, 0) && forall b | b in batch :: s.orders[b].expiresAt <= s.orders[id].expiresAt)
  }

  lemma EarliestTakes(s: State, now: int, limit: int, batch: set<string>)
    ensures IsEarliest(batch, s, now, limit) <==> TakesEarliest(s, now, limit, batch)
  {
    if batch <= Due(s, now) {
      SubsetSizes(batch, Due(s, now));
      if |batch| < |Due(s, now)| {
        assert Due(s, now) - batch != {};
        var id :| id in Due(s, now) - batch;
      } else {
        assert batch == Due(s, now);
      }
    }
  }

  /** Whatever the step, a stored order becomes EXPIRED exactly when it is overdue and an expiry takes it
      or anyone asks for a cancellation, and CANCELLED exactly by its own user; nothing else about it
      changes, and an expiry takes the earliest. */
  lemma OrderTransitions(s: State, op: Op, id: string)
    requires Valid(s) && Enabled(s, op) && id in s.orders
    ensures op.Expire? ==> TakesEarliest(s, op.now, op.limit, op.batch)
    ensures id in Step(s, op).orders && Step(s, op).orders[id] == s.orders[id].(status :=
      if Cancels(s, op, id) then Cancelled
      else if Overdue(s.orders[id], op.now) && (op.Cancel? || (op.Expire? && id in op.batch)) then Expired
      else s.orders[id].status)
  {
    if op.Expire? { EarliestTakes(s, op.now, op.limit, op.batch); }
    assert s.orders[id].id == id;
    hide ValidInput, Canonical, CanHold, HoldSeats, IsEarliest;
  }

  /** Unless a hold is asked for, a seat changes exactly when the order it is held for ends in this
      step, and is then free. */
  lemma SeatTransitions(s: State, op: Op, x: string)
    requires Valid(s) && Enabled(s, op) && !op.Hold? && x in s.seats
    ensures var s', row := Step(s, op), s.seats[x];
      && x in s'.seats
      && s'.seats[x] ==
           if row.status == Held && row.holdOrder in s.orders && row.holdOrder in s'.orders
              && s'.orders[row.holdOrder].status != s.orders[row.holdOrder].status
           then Seat(row.showtime, Available, "", 0) else row
  {
    if s.seats[x].status == Held && s.seats[x].holdOrder in s.orders {
      OrderTransitions(s, op, s.seats[x].holdOrder);
      assert s.orders[s.seats[x].holdOrder].id == s.seats[x].holdOrder;
    }
    if op.Expire? { EarliestTakes(s, op.now, op.limit, op.batch); }
  }

  /** A cancellation is granted exactly to the order's own user, in time; to anyone else the order does
      not exist. */
  lemma CancelAnswersIff(s: State, op: Op)
    requires Valid(s) && op.Cancel?
    ensures var answer := CancelOutcome(s, op.orderID, op.user, op.now);
      if op.orderID !in s.orders || s.orders[op.orderID].user != op.user then answer == Refused(OrderNotFound)
      else if Cancels(s, op, op.orderID) then answer == Done(s.orders[op.orderID].(status := Cancelled))
      else answer == Refused(OrderNotCancellable)
  {
    if op.orderID in s.orders { assert s.orders[op.orderID].id == op.orderID; }
  }

  // ----- requests for holds

  /** What the service takes for a request: everything is named, and no seat twice. */
  predicate Named(input: HoldInput) {
    && !AllSpace(input.user) && !AllSpace(input.showtime) && !AllSpace(input.key) && input.seatIds != []
    && (forall i | 0 <= i < |input.seatIds| :: !AllSpace(input.seatIds[i]))
    && forall i, j | 0 <= i < j < |input.seatIds| :: TrimSpace(input.seatIds[i]) != TrimSpace(input.seatIds[j])
  }

  lemma NamedIffValid(input: HoldInput)
    ensures ValidInput(input) <==> Named(input)
  {
    TrimmedAwayIff(input.user);
    TrimmedAwayIff(input.showtime);
    TrimmedAwayIff(input.key);
    forall i | 0 <= i < |input.seatIds| ensures Blank(input.seatIds[i]) <==> AllSpace(input.seatIds[i]) {
      TrimmedAwayIff(input.seatIds[i]);
    }
    hide Blank, AllSpace, TrimSpace;
  }

  predicate IsFree(row: Seat, showtime: string, now: int) {
    row.showtime == showtime && (row.status == Available || (row.status == Held && row.holdExpires <= now))
  }

  /** A request under a new key is refused as invalid exactly when something is not named or a seat is
      named twice, then refused exactly when a seat is not free; otherwise one order is stored, under
      its id and its key, with the seats' trimmed names in order and the time it was given. */
  lemma NewKeyAnswersIff(s: State, input: HoldInput, id: string, now: int, holdDuration: int)
    requires Joined(input.user, input.key) !in s.byKey
    ensures
      var answer, s' := RequestOutcome(s, input, id, now, holdDuration), AfterRequest(s, input, id, now, holdDuration);
      var free := forall x | x in Trimmed(input.seatIds) :: x in s.seats && IsFree(s.seats[x], input.showtime, now);
      if !Named(input) then answer == Refused(InvalidHoldInput) && s' == s
      else if !free then answer == Refused(SeatUnavailable) && s' == s
      else
        && answer.Done? && Ordered(answer.order.seatIds, Less)
        && multiset(answer.order.seatIds) == multiset(Trimmed(input.seatIds))
        && answer.order == Order(id, input.user, input.showtime, input.key, PendingPayment, now + holdDuration, now,
                                 answer.order.seatIds)
        && s'.orders == s.orders[id := answer.order]
        && s'.byKey == s.byKey[Joined(input.user, input.key) := answer.order]
  {
    NamedIffValid(input);
    LessSorts();
    SortedBySorts(Trimmed(input.seatIds), Less);
    var order := NewOrder(input, id, now, holdDuration);
    assert MapKey(order) == Joined(input.user, input.key);
    if ValidInput(input) { NewKeyHoldsExactlyItsSeats(s, input, id, now, holdDuration); }
    hide Named, ValidInput, Trimmed, Joined, Ordered, CanHold, HoldSeats, Less;
  }
}
