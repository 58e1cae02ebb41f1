/** The in-memory seats as an index of the orders, although expired holds may be taken over while
    their orders are still pending. */
module BookingIndex {
  import opened BookingMemory
  import opened BookingService
  import opened Common
  import opened Sorting
  import opened Text

  predicate IsPending(orders: map<string, Order>, id: string) {
    id in orders && orders[id].status == PendingPayment
  }

  /** A held seat belongs to a pending order that lists it, until that order's expiry. */
  ghost predicate HoldsBacked(seats: map<string, Seat>, orders: map<string, Order>) {
    forall x | x in seats && seats[x].status == Held ::
      && IsPending(orders, seats[x].holdOrder) && x in orders[seats[x].holdOrder].seatIds
      && seats[x].holdExpires == orders[seats[x].holdOrder].expiresAt
  }

  /** A pending order whose expiry lies after the hold clock still holds all its seats. */
  ghost predicate LiveOrdersHold(seats: map<string, Seat>, orders: map<string, Order>, t: int) {
    forall id, x | IsPending(orders, id) && t < orders[id].expiresAt && x in orders[id].seatIds ::
      x in seats && seats[x].status == Held && seats[x].holdOrder == id
  }

  ghost predicate Indexed(s: State, t: int) {
    Valid(s) && HoldsBacked(s.seats, s.orders) && LiveOrdersHold(s.seats, s.orders, t)
  }

  /** The order was granted rather than refused or answered with a stored one. */
  ghost predicate Grants(s: State, op: Op)
    requires op.Hold?
  {
    && ValidInput(op.input) && Joined(op.input.user, op.input.key) !in s.byKey
    && CanHold(s.seats, NewOrder(op.input, op.id, op.now, op.holdDuration), op.now)
  }

  /** The latest clock value any hold was granted with. */
  ghost function HoldClock(s: State, t: int, op: Op): int {
    if op.Hold? && Grants(s, op) then Max(t, op.now) else t
  }

  lemma HoldKeeps(s: State, t: int, order: Order, now: int)
    requires Indexed(s, t) && order.id !in s.orders && order.status == PendingPayment
    requires MapKey(order) !in s.byKey && CanHold(s.seats, order, now)
    ensures Indexed(AfterHold(s, order, now), Max(t, now))
  {
    HoldKeepsAgreement(s, order, now);
    var s' := AfterHold(s, order, now);
    assert s'.seats == HoldSeats(s.seats, order, Elements(order.seatIds)) && s'.orders == s.orders[order.id := order];
    hide AfterHold, Valid, MapKey;
    HeldSeatsBacked(s.seats, s.orders, order, now);
    LiveOrdersKeep(s.seats, s.orders, t, order, now);
  }

  lemma HeldSeatsBacked(seats: map<string, Seat>, orders: map<string, Order>, order: Order, now: int)
    requires HoldsBacked(seats, orders) && order.id !in orders && order.status == PendingPayment
    ensures HoldsBacked(HoldSeats(seats, order, Elements(order.seatIds)), orders[order.id := order])
  {
  }

  lemma LiveOrdersKeep(seats: map<string, Seat>, orders: map<string, Order>, t: int, order: Order, now: int)
    requires HoldsBacked(seats, orders) && LiveOrdersHold(seats, orders, t) && order.id !in orders
      && CanHold(seats, order, now)
    ensures LiveOrdersHold(HoldSeats(seats, order, Elements(order.seatIds)), orders[order.id := order], Max(t, now))
  {
    var seats', orders' := HoldSeats(seats, order, Elements(order.seatIds)), orders[order.id := order];
    forall x | x in order.seatIds ensures CanHoldSeat(seats, order, x, now) {
      var i :| 0 <= i < |order.seatIds| && order.seatIds[i] == x;
    }
    forall id, x | IsPending(orders', id) && Max(t, now) < orders'[id].expiresAt && x in orders'[id].seatIds
      ensures x in seats' && seats'[x].status == Held && seats'[x].holdOrder == id
    {
      if id != order.id {
        assert IsPending(orders, id) && seats[x].status == Held && seats[x].holdOrder == id;
        assert x in order.seatIds ==> CanHoldSeat(seats, order, x, now);
      }
    }
  }

  lemma ClosedOrders(s: State, ids: set<string>, status: OrderStatus)
    requires Valid(s) && status != PendingPayment
    ensures var orders' := Close(s, ids, status).orders;
      && (forall id :: IsPending(orders', id) <==> IsPending(s.orders, id) && id !in ids)
      && (forall id | IsPending(orders', id) :: id in s.orders && orders'[id] == s.orders[id])
  {
    assert forall id | id in s.orders :: s.orders[id].id == id;
  }

  lemma ReleaseKeepsBacked(seats: map<string, Seat>, orders: map<string, Order>, orders': map<string, Order>,
                           ids: set<string>)
    requires HoldsBacked(seats, orders)
    requires forall id :: IsPending(orders', id) <==> IsPending(orders, id) && id !in ids
    requires forall id | IsPending(orders', id) :: id in orders && orders'[id] == orders[id]
    ensures HoldsBacked(Release(seats, ids), orders')
  {
  }

  lemma ReleaseKeepsLive(seats: map<string, Seat>, orders: map<string, Order>, orders': map<string, Order>, t: int,
                         ids: set<string>)
    requires LiveOrdersHold(seats, orders, t)
    requires forall id :: IsPending(orders', id) <==> IsPending(orders, id) && id !in ids
    requires forall id | IsPending(orders', id) :: id in orders && orders'[id] == orders[id]
    ensures LiveOrdersHold(Release(seats, ids), orders', t)
  {
  }

  lemma CloseKeeps(s: State, t: int, ids: set<string>, status: OrderStatus)
    requires Indexed(s, t) && status != PendingPayment
    ensures Indexed(Close(s, ids, status), t)
  {
    hide Valid, HoldsBacked, LiveOrdersHold, Release, Restatus, IsPending;
    var s' := Close(s, ids, status);
    CloseKeepsAgreement(s, ids, status);
    ClosedOrders(s, ids, status);
    ReleaseKeepsBacked(s.seats, s.orders, s'.orders, ids);
    ReleaseKeepsLive(s.seats, s.orders, s'.orders, t, ids);
  }

  lemma StepKeeps(s: State, t: int, op: Op)
    requires Indexed(s, t) && Enabled(s, op)
    ensures Indexed(Step(s, op), HoldClock(s, t, op))
  {
    match op
    case Hold(input, id, now, holdDuration) => {
      var order := NewOrder(input, id, now, holdDuration);
      assert MapKey(order) == Joined(input.user, input.key);
      hide Indexed, ValidInput, Canonical;
      if Grants(s, op) { HoldKeeps(s, t, order, now); }
    }
    case Cancel(orderID, user, now) => {
      CloseKeeps(s, t, Due(s, now), Expired);
      CloseKeeps(Close(s, Due(s, now), Expired), t, {orderID}, Cancelled);
      hide Indexed, Close;
    }
    case Expire(_, _, batch) => CloseKeeps(s, t, batch, Expired);
  }

  ghost function LastHoldClock(s: State, t: int, ops: seq<Op>): int
    decreases |ops|
  {
    if ops == [] then t else LastHoldClock(Step(s, ops[0]), HoldClock(s, t, ops[0]), ops[1..])
  }

  lemma {:induction false} RunKeeps(s: State, t: int, ops: seq<Op>)
    requires Indexed(s, t) && Run(s, ops)
    ensures Indexed(Exec(s, ops), LastHoldClock(s, t, ops))
    decreases |ops|
  {
    if ops != [] {
      StepKeeps(s, t, ops[0]);
      hide Indexed, Enabled, Step, HoldClock;
      RunKeeps(Step(s, ops[0]), HoldClock(s, t, ops[0]), ops[1..]);
    }
  }

  /** Some pending order lists the seat and has not expired. */
  ghost predicate Wanted(orders: map<string, Order>, x: string, at: int) {
    exists id :: IsPending(orders, id) && x in orders[id].seatIds && at < orders[id].expiresAt
  }

  /** From an inventory without holds, after any run, at any instant from the hold clock on: a seat is
      unavailable exactly when it is sold or a pending, unexpired order lists it. */
  lemma SeatsIndexOrders(inventory: map<string, Seat>, t: int, ops: seq<Op>, x: string, at: int)
    requires forall y | y in inventory :: inventory[y].status != Held
    requires Run(State(inventory, map[], map[]), ops)
    requires LastHoldClock(State(inventory, map[], map[]), t, ops) <= at
    requires x in Exec(State(inventory, map[], map[]), ops).seats
    ensures var s := Exec(State(inventory, map[], map[]), ops);
      !AvailableForHold(s.seats[x], at) <==> s.seats[x].status == Sold || Wanted(s.orders, x, at)
  {
    var start := State(inventory, map[], map[]);
    assert Indexed(start, t);
    RunKeeps(start, t, ops);
    hide Run, Exec, LastHoldClock, Valid;
    var s := Exec(start, ops);
    if s.seats[x].status == Held { assert IsPending(s.orders, s.seats[x].holdOrder); }
  }
}
