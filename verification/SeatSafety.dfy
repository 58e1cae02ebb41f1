/** The joint invariant of seats, orders and the clock, and why every way of writing the two
    tables keeps it. An expired hold may be taken over while its order is still pending, so
    a pending order owns its seats only as long as its expiry lies after the hold clock. */
module SeatSafety {
  import opened Common
  import opened Store

  /** An order's items are rows of its own showtime. */
  ghost predicate ItemsExist(seats: map<Id, SeatRow>, orders: map<Id, Order>) {
    forall o, x | o in orders && x in orders[o].items :: x in seats && seats[x].showtime == orders[o].showtime
  }

  /** A held row belongs to a pending order that lists it and carries that order's expiry. */
  ghost predicate HoldsBacked(seats: map<Id, SeatRow>, orders: map<Id, Order>) {
    forall x | x in seats && seats[x].status == SeatHeld ::
      && seats[x].holder.Some? && Pending(orders, seats[x].holder.value)
      && x in orders[seats[x].holder.value].items
      && seats[x].holdExpiry == Some(orders[seats[x].holder.value].expiresAt)
  }

  /** A pending order whose expiry lies after the hold clock still holds all its seats. */
  ghost predicate LiveOrdersHold(seats: map<Id, SeatRow>, orders: map<Id, Order>, t: Time) {
    forall o, x | Pending(orders, o) && t < orders[o].expiresAt && x in orders[o].items ::
      x in seats && HeldBy(seats[x], o)
  }

  ghost predicate PaidSeatsSold(seats: map<Id, SeatRow>, orders: map<Id, Order>) {
    forall o, x | IsPaid(orders, o) && x in orders[o].items :: x in seats && seats[x].status == SeatSold
  }

  ghost predicate Bought(orders: map<Id, Order>, x: Id) {
    exists o :: IsPaid(orders, o) && x in orders[o].items
  }

  ghost predicate SoldSeatsBought(seats: map<Id, SeatRow>, orders: map<Id, Order>) {
    forall x | x in seats && seats[x].status == SeatSold :: Bought(orders, x)
  }

  ghost predicate OneBuyer(orders: map<Id, Order>) {
    forall o, p, x | IsPaid(orders, o) && IsPaid(orders, p) && x in orders[o].items && x in orders[p].items :: o == p
  }

  ghost predicate SeatInv(seats: map<Id, SeatRow>, orders: map<Id, Order>, t: Time) {
    && ItemsExist(seats, orders)
    && HoldsBacked(seats, orders)
    && LiveOrdersHold(seats, orders, t)
    && PaidSeatsSold(seats, orders)
    && SoldSeatsBought(seats, orders)
    && OneBuyer(orders)
  }

  // ----- placing a hold, possibly over expired holds of orders that are still pending

  lemma HoldKeepsRows(seats: map<Id, SeatRow>, orders: map<Id, Order>, t: Time, ids: set<Id>, o: Id, order: Order,
                      now: Time)
    requires ItemsExist(seats, orders) && HoldsBacked(seats, orders) && LiveOrdersHold(seats, orders, t) && o !in orders
    requires forall x | x in ids :: x in seats && seats[x].showtime == order.showtime && FreeForHold(seats[x], now)
    requires order.status == PendingPayment && order.items.Keys == ids
    ensures var seats', orders' := HoldSeats(seats, ids, o, order.expiresAt), orders[o := order];
      ItemsExist(seats', orders') && HoldsBacked(seats', orders') && LiveOrdersHold(seats', orders', Max(t, now))
  {
  }

  lemma HoldKeepsBought(seats: map<Id, SeatRow>, orders: map<Id, Order>, ids: set<Id>, o: Id, order: Order, now: Time)
    requires SoldSeatsBought(seats, orders) && o !in orders
    requires forall x | x in ids :: x in seats && FreeForHold(seats[x], now)
    ensures SoldSeatsBought(HoldSeats(seats, ids, o, order.expiresAt), orders[o := order])
  {
    var seats', orders' := HoldSeats(seats, ids, o, order.expiresAt), orders[o := order];
    forall x | x in seats' && seats'[x].status == SeatSold ensures Bought(orders', x) {
      var p :| IsPaid(orders, p) && x in orders[p].items;
      assert IsPaid(orders', p) && x in orders'[p].items;
    }
  }

  lemma HoldKeepsBuyers(seats: map<Id, SeatRow>, orders: map<Id, Order>, ids: set<Id>, o: Id, order: Order, now: Time)
    requires PaidSeatsSold(seats, orders) && SoldSeatsBought(seats, orders) && OneBuyer(orders) && o !in orders
    requires forall x | x in ids :: x in seats && FreeForHold(seats[x], now)
    requires order.status == PendingPayment
    ensures var seats', orders' := HoldSeats(seats, ids, o, order.expiresAt), orders[o := order];
      PaidSeatsSold(seats', orders') && SoldSeatsBought(seats', orders') && OneBuyer(orders')
  {
    var orders' := orders[o := order];
    forall p: Id ensures IsPaid(orders', p) <==> IsPaid(orders, p) {}
    HoldKeepsBought(seats, orders, ids, o, order, now);
  }

  lemma HoldKeeps(seats: map<Id, SeatRow>, orders: map<Id, Order>, t: Time, ids: set<Id>, o: Id, order: Order,
                  now: Time)
    requires SeatInv(seats, orders, t) && o !in orders
    requires forall x | x in ids :: x in seats && seats[x].showtime == order.showtime && FreeForHold(seats[x], now)
    requires order.status == PendingPayment && order.items.Keys == ids
    ensures SeatInv(HoldSeats(seats, ids, o, order.expiresAt), orders[o := order], Max(t, now))
  {
    hide ItemsExist, HoldsBacked, LiveOrdersHold, PaidSeatsSold, SoldSeatsBought, OneBuyer;
    HoldKeepsRows(seats, orders, t, ids, o, order, now);
    HoldKeepsBuyers(seats, orders, ids, o, order, now);
  }

  // ----- ending or finalising pending orders

  lemma BoughtMonotone(orders: map<Id, Order>, batch: set<Id>, status: OrderStatus, x: Id)
    requires forall o | o in batch :: Pending(orders, o)
    requires Bought(orders, x)
    ensures Bought(SetOrders(orders, batch, status), x)
  {
    var p :| IsPaid(orders, p) && x in orders[p].items;
    var orders' := SetOrders(orders, batch, status);
    assert IsPaid(orders', p) && x in orders'[p].items;
  }

  lemma ReleaseKeepsRows(seats: map<Id, SeatRow>, orders: map<Id, Order>, t: Time, batch: set<Id>, status: OrderStatus)
    requires ItemsExist(seats, orders) && HoldsBacked(seats, orders) && LiveOrdersHold(seats, orders, t)
    requires status == Expired || status == Cancelled
    ensures var seats', orders' := ReleaseSeats(seats, batch), SetOrders(orders, batch, status);
      ItemsExist(seats', orders') && HoldsBacked(seats', orders') && LiveOrdersHold(seats', orders', t)
  {
    var seats', orders' := ReleaseSeats(seats, batch), SetOrders(orders, batch, status);
    forall o, x | Pending(orders', o) && t < orders'[o].expiresAt && x in orders'[o].items
      ensures x in seats' && HeldBy(seats'[x], o)
    {
      assert Pending(orders, o) && HeldBy(seats[x], o);
    }
  }

  lemma ReleaseKeepsBought(seats: map<Id, SeatRow>, orders: map<Id, Order>, batch: set<Id>, status: OrderStatus)
    requires SoldSeatsBought(seats, orders) && forall o | o in batch :: Pending(orders, o)
    ensures SoldSeatsBought(ReleaseSeats(seats, batch), SetOrders(orders, batch, status))
  {
    var seats', orders' := ReleaseSeats(seats, batch), SetOrders(orders, batch, status);
    forall x | x in seats' && seats'[x].status == SeatSold ensures Bought(orders', x) {
      BoughtMonotone(orders, batch, status, x);
    }
  }

  lemma ReleaseKeepsBuyers(seats: map<Id, SeatRow>, orders: map<Id, Order>, batch: set<Id>, status: OrderStatus)
    requires PaidSeatsSold(seats, orders) && SoldSeatsBought(seats, orders) && OneBuyer(orders)
    requires forall o | o in batch :: Pending(orders, o)
    requires status == Expired || status == Cancelled
    ensures var seats', orders' := ReleaseSeats(seats, batch), SetOrders(orders, batch, status);
      PaidSeatsSold(seats', orders') && SoldSeatsBought(seats', orders') && OneBuyer(orders')
  {
    StatusKeepsOrders(orders, batch, status);
    ReleaseKeepsBought(seats, orders, batch, status);
  }

  /** Expiring or cancelling pending orders frees only the seats they still hold. */
  lemma ReleaseKeeps(seats: map<Id, SeatRow>, orders: map<Id, Order>, t: Time, batch: set<Id>, status: OrderStatus)
    requires SeatInv(seats, orders, t)
    requires forall o | o in batch :: Pending(orders, o)
    requires status == Expired || status == Cancelled
    ensures SeatInv(ReleaseSeats(seats, batch), SetOrders(orders, batch, status), t)
  {
    hide ItemsExist, HoldsBacked, LiveOrdersHold, PaidSeatsSold, SoldSeatsBought, OneBuyer;
    ReleaseKeepsRows(seats, orders, t, batch, status);
    ReleaseKeepsBuyers(seats, orders, batch, status);
  }

  lemma SellKeepsRows(seats: map<Id, SeatRow>, orders: map<Id, Order>, t: Time, o: Id)
    requires ItemsExist(seats, orders) && HoldsBacked(seats, orders) && LiveOrdersHold(seats, orders, t)
    requires Pending(orders, o)
    ensures var seats', orders' := SellSeats(seats, o), SetOrders(orders, {o}, Paid);
      ItemsExist(seats', orders') && HoldsBacked(seats', orders') && LiveOrdersHold(seats', orders', t)
  {
    var seats', orders' := SellSeats(seats, o), SetOrders(orders, {o}, Paid);
    forall p: Id, x | Pending(orders', p) && t < orders'[p].expiresAt && x in orders'[p].items
      ensures x in seats' && HeldBy(seats'[x], p)
    {
      assert Pending(orders, p) && HeldBy(seats[x], p);
    }
  }

  lemma SellKeepsBought(seats: map<Id, SeatRow>, orders: map<Id, Order>, o: Id)
    requires HoldsBacked(seats, orders) && SoldSeatsBought(seats, orders) && Pending(orders, o)
    ensures SoldSeatsBought(SellSeats(seats, o), SetOrders(orders, {o}, Paid))
  {
    var seats', orders' := SellSeats(seats, o), SetOrders(orders, {o}, Paid);
    forall x | x in seats' && seats'[x].status == SeatSold ensures Bought(orders', x) {
      if seats[x].status == SeatSold {
        BoughtMonotone(orders, {o}, Paid, x);
      } else {
        assert IsPaid(orders', o) && x in orders'[o].items;
      }
    }
  }

  lemma SellKeepsSold(seats: map<Id, SeatRow>, orders: map<Id, Order>, o: Id)
    requires ItemsExist(seats, orders) && HoldsBacked(seats, orders)
    requires PaidSeatsSold(seats, orders) && SoldSeatsBought(seats, orders)
    requires Pending(orders, o) && forall x | x in orders[o].items :: HeldBy(seats[x], o)
    ensures var seats', orders' := SellSeats(seats, o), SetOrders(orders, {o}, Paid);
      PaidSeatsSold(seats', orders') && SoldSeatsBought(seats', orders')
  {
    StatusKeepsOrders(orders, {o}, Paid);
    SellKeepsBought(seats, orders, o);
  }

  lemma SellKeepsOneBuyer(seats: map<Id, SeatRow>, orders: map<Id, Order>, o: Id)
    requires ItemsExist(seats, orders) && PaidSeatsSold(seats, orders) && OneBuyer(orders)
    requires Pending(orders, o) && forall x | x in orders[o].items :: HeldBy(seats[x], o)
    ensures OneBuyer(SetOrders(orders, {o}, Paid))
  {
    StatusKeepsOrders(orders, {o}, Paid);
  }

  /** Finalising an order that still holds every one of its seats. */
  lemma SellKeeps(seats: map<Id, SeatRow>, orders: map<Id, Order>, t: Time, o: Id)
    requires SeatInv(seats, orders, t) && Pending(orders, o)
    requires forall x | x in orders[o].items :: x in seats && HeldBy(seats[x], o)
    ensures SeatInv(SellSeats(seats, o), SetOrders(orders, {o}, Paid), t)
  {
    hide HoldsBacked, LiveOrdersHold, PaidSeatsSold, SoldSeatsBought, OneBuyer;
    SellKeepsRows(seats, orders, t, o);
    SellKeepsSold(seats, orders, o);
    SellKeepsOneBuyer(seats, orders, o);
  }

  lemma ReplacedRows(seats: map<Id, SeatRow>, showtime: Id, rows: map<Id, nat>)
    requires forall x | x in rows :: x !in seats
    ensures var seats' := ReplaceRows(seats, showtime, rows);
      && (forall x | x in seats && seats[x].showtime != showtime :: x in seats' && seats'[x] == seats[x])
      && (forall x | x in seats' && x !in seats :: seats'[x].status == SeatAvailable)
      && (forall x | x in seats' && x in seats :: seats'[x] == seats[x])
  {
  }

  lemma ReplaceKeepsRows(seats: map<Id, SeatRow>, orders: map<Id, Order>, t: Time, showtime: Id, rows: map<Id, nat>)
    requires ItemsExist(seats, orders) && HoldsBacked(seats, orders) && LiveOrdersHold(seats, orders, t)
      && SoldSeatsBought(seats, orders)
    requires forall o, x | o in orders && x in orders[o].items :: seats[x].showtime != showtime
    requires forall x | x in rows :: x !in seats
    ensures var seats' := ReplaceRows(seats, showtime, rows);
      ItemsExist(seats', orders) && HoldsBacked(seats', orders) && LiveOrdersHold(seats', orders, t)
      && SoldSeatsBought(seats', orders)
  {
    var seats' := ReplaceRows(seats, showtime, rows);
    ReplacedRows(seats, showtime, rows);
    hide ReplaceRows;
    forall x | x in seats' && seats'[x].status == SeatSold ensures Bought(orders, x) {
      assert x in seats && seats'[x] == seats[x];
    }
  }

  /** Replacing inventory that no order item refers to. */
  lemma ReplaceKeeps(seats: map<Id, SeatRow>, orders: map<Id, Order>, t: Time, showtime: Id, rows: map<Id, nat>)
    requires SeatInv(seats, orders, t)
    requires forall o, x | o in orders && x in orders[o].items :: seats[x].showtime != showtime
    requires forall x | x in rows :: x !in seats
    ensures SeatInv(ReplaceRows(seats, showtime, rows), orders, t)
  {
    ReplacedRows(seats, showtime, rows);
    ReplaceKeepsRows(seats, orders, t, showtime, rows);
    hide ReplaceRows, OneBuyer, HoldsBacked, LiveOrdersHold, SoldSeatsBought;
  }

  /** Reading the seat map: from the hold clock on, a seat is unavailable exactly when some
      order that lists it is paid, or is pending and not yet expired. */
  ghost predicate Claimed(orders: map<Id, Order>, x: Id, at: Time) {
    exists o :: o in orders && x in orders[o].items
                && (orders[o].status == Paid || (orders[o].status == PendingPayment && at < orders[o].expiresAt))
  }

  lemma SeatRowsIndexOrders(seats: map<Id, SeatRow>, orders: map<Id, Order>, t: Time, x: Id, at: Time)
    requires SeatInv(seats, orders, t) && t <= at && x in seats
    ensures ShownStatus(seats[x], at) != SeatAvailable <==> Claimed(orders, x, at)
  {
    if seats[x].status == SeatSold {
      assert Bought(orders, x);
    }
    if Claimed(orders, x, at) {
      var o :| o in orders && x in orders[o].items
               && (orders[o].status == Paid || (orders[o].status == PendingPayment && at < orders[o].expiresAt));
      assert IsPaid(orders, o) || Pending(orders, o);
    }
  }
}
