/** Seats and orders under arbitrary webhook clocks: what holds in every run whatever instants the
    steps read, and which runs nevertheless sell every seat once. */
module AnyClock {
  import opened Common
  import opened Store
  import opened Machine
  import opened SeatSafety
  import opened Safety
  import ClockAssumption
  import Uuid

  /** What no clock can spoil. */
  ghost predicate RowsInv(seats: map<Id, SeatRow>, orders: map<Id, Order>, t: Time) {
    ItemsExist(seats, orders) && HoldsBacked(seats, orders) && LiveOrdersHold(seats, orders, t)
    && SoldSeatsBought(seats, orders)
  }

  /** Every seat of a paid order is sold, and to no other. */
  ghost predicate SoldOnce(seats: map<Id, SeatRow>, orders: map<Id, Order>) {
    PaidSeatsSold(seats, orders) && OneBuyer(orders)
  }

  // ----- what a step writes to the two tables

  datatype Effect =
    | Nothing
    | Held(id: Id, order: Order, ids: set<Id>, now: Time)
    | Ended(batch: set<Id>, status: OrderStatus)
    | Finalised(paid: Id)
    | Replaced(screening: Id, rows: map<Id, nat>)

  ghost predicate Writes(seats: map<Id, SeatRow>, orders: map<Id, Order>, eff: Effect,
                         seats': map<Id, SeatRow>, orders': map<Id, Order>) {
    match eff
    case Nothing => seats' == seats && orders' == orders
    case Held(id, order, ids, now) =>
      && id !in orders && order.status == PendingPayment && order.items.Keys == ids
      && (forall x | x in ids :: x in seats && seats[x].showtime == order.showtime && FreeForHold(seats[x], now))
      && seats' == HoldSeats(seats, ids, id, order.expiresAt) && orders' == orders[id := order]
    case Ended(batch, status) =>
      && (forall o | o in batch :: Pending(orders, o)) && (status == Expired || status == Cancelled)
      && seats' == ReleaseSeats(seats, batch) && orders' == SetOrders(orders, batch, status)
    case Finalised(o) =>
      Pending(orders, o) && seats' == SellSeats(seats, o) && orders' == SetOrders(orders, {o}, Paid)
    case Replaced(screening, rows) =>
      && (forall o, x | o in orders && x in orders[o].items :: x in seats && seats[x].showtime != screening)
      && (forall x | x in rows :: x !in seats)
      && seats' == ReplaceRows(seats, screening, rows) && orders' == orders
  }

  function ClockAfter(t: Time, eff: Effect): Time {
    if eff.Held? then Max(t, eff.now) else t
  }

  lemma HoldWrites(s: State, t: Time, e: Event) returns (eff: Effect)
    requires e.op.PlaceHold?
    ensures Writes(s.seats, s.orders, eff, Step(s, e).seats, Step(s, e).orders)
    ensures HoldClock(s, t, e) == ClockAfter(t, eff) && !eff.Finalised?
  {
    hide PlaceHoldStep, Grants, HoldSeats, ItemsFor, FreeForHold, LockedSeats, Parsed;
    var op := e.op;
    GrantCases(s, op, e.now);
    if Grants(s, op, e.now) {
      var showtime := Uuid.Parse(op.showtime).value;
      var ids := LockedSeats(s.seats, showtime, Parsed(op.seatIds));
      LockedItems(s.seats, showtime, Parsed(op.seatIds));
      LockedRows(s.seats, showtime, Parsed(op.seatIds));
      eff := Held(op.id, NewOrder(s, op.user, showtime, op.key, op.expiresAt, Parsed(op.seatIds)), ids, e.now);
    } else {
      eff := Nothing;
    }
  }

  lemma EndingWrites(s: State, e: Event) returns (eff: Effect)
    requires Enabled(s, e) && (e.op.CancelOrder? || e.op.ExpirePendingHolds?)
    ensures Writes(s.seats, s.orders, eff, Step(s, e).seats, Step(s, e).orders) && !eff.Finalised? && !eff.Held?
      && !eff.Replaced?
  {
    hide SetOrders, ReleaseSeats;
    if e.op.ExpirePendingHolds? {
      eff := Ended(e.op.batch, Expired);
    } else if CancelStep(s, e.op.order, e.op.user, e.now).1.Done? {
      eff := Ended({e.op.order}, Cancelled);
    } else {
      eff := Nothing;
    }
  }

  lemma SucceedWrites(s: State, k: PaymentKey, event: WebhookEvent, now: Time, codes: Id -> string)
    returns (eff: Effect)
    requires k in s.payments && s.payments[k].order in s.orders && Succeed(s, k, event, now, codes).Some?
    ensures var s' := Succeed(s, k, event, now, codes).value;
      Writes(s.seats, s.orders, eff, s'.seats, s'.orders) && !eff.Held? && !eff.Replaced?
  {
    hide SetOrders, ReleaseSeats, SellSeats, SettlePayments, IssueTickets, UniqueCodes;
    var o := s.payments[k].order;
    if s.payments[k].status == PaymentSucceeded || s.orders[o].status == Paid {
      eff := Nothing;
    } else if s.orders[o].status != PendingPayment || s.orders[o].expiresAt <= now {
      eff := Ended(if s.orders[o].status == PendingPayment then {o} else {}, Expired);
    } else {
      eff := Finalised(o);
    }
  }

  lemma WebhookWrites(s: State, e: Event) returns (eff: Effect)
    requires e.op.Webhook?
    ensures Writes(s.seats, s.orders, eff, Step(s, e).seats, Step(s, e).orders) && !eff.Held? && !eff.Replaced?
  {
    hide Succeed, SettlePayments, Writes;
    var k := PaymentKey(e.op.event.provider, e.op.event.reference);
    var r := s.(webhooks := s.webhooks + {(e.op.event.provider, e.op.event.eventId)});
    NothingWrites(s);
    eff := Nothing;
    if e.op.event.status == WebhookSucceeded && Step(s, e) != s && k in s.payments && s.payments[k].order in s.orders {
      eff := SucceedWrites(r, k, e.op.event, e.now, e.op.codes);
    }
  }

  lemma NothingWrites(s: State)
    ensures Writes(s.seats, s.orders, Nothing, s.seats, s.orders)
  {
  }

  lemma ReplacementWrites(s: State, e: Event) returns (eff: Effect)
    requires e.op.ReplaceInventory? && ItemsExist(s.seats, s.orders)
    ensures Writes(s.seats, s.orders, eff, Step(s, e).seats, Step(s, e).orders) && !eff.Finalised? && !eff.Held?
  {
    hide ReplaceRows, Referenced;
    if ReplaceInventoryStep(s, e.op.screening, e.op.rows).1.Done? {
      ReplacedIsUnreferenced(s, e.op.screening, e.op.rows);
      eff := Replaced(e.op.screening, e.op.rows);
    } else {
      eff := Nothing;
    }
  }

  lemma IntentsWriteElsewhere(s: State, e: Event)
    requires e.op.RequestIntent? || e.op.SaveIntent?
    ensures Step(s, e).seats == s.seats && Step(s, e).orders == s.orders
  {
    if e.op.SaveIntent? {
      hide *;
      SaveIntentCases(s, e);
    } else {
      hide OrderTotal, HasPayment;
    }
  }

  lemma CheckInWritesElsewhere(s: State, e: Event)
    requires e.op.CheckIn?
    ensures Step(s, e).seats == s.seats && Step(s, e).orders == s.orders
  {
  }

  lemma OtherWrites(s: State, e: Event)
    requires !e.op.PlaceHold? && !e.op.CancelOrder? && !e.op.ExpirePendingHolds? && !e.op.Webhook?
      && !e.op.ReplaceInventory?
    ensures Step(s, e).seats == s.seats && Step(s, e).orders == s.orders
  {
    if e.op.RequestIntent? || e.op.SaveIntent? {
      hide *;
      IntentsWriteElsewhere(s, e);
    } else if e.op.CheckIn? {
      hide *;
      CheckInWritesElsewhere(s, e);
    }
  }

  /** Every step does one of five things to the seats and orders; only a webhook finalises. */
  lemma StepWrites(s: State, t: Time, e: Event) returns (eff: Effect)
    requires Enabled(s, e) && ItemsExist(s.seats, s.orders)
    ensures Writes(s.seats, s.orders, eff, Step(s, e).seats, Step(s, e).orders)
    ensures HoldClock(s, t, e) == ClockAfter(t, eff) && (eff.Finalised? ==> e.op.Webhook?)
  {
    hide Enabled, Step, Writes, Grants, ItemsExist;
    if e.op.PlaceHold? {
      eff := HoldWrites(s, t, e);
    } else if e.op.CancelOrder? || e.op.ExpirePendingHolds? {
      eff := EndingWrites(s, e);
    } else if e.op.Webhook? {
      eff := WebhookWrites(s, e);
    } else if e.op.ReplaceInventory? {
      eff := ReplacementWrites(s, e);
    } else {
      OtherWrites(s, e);
      NothingWrites(s);
      eff := Nothing;
    }
  }

  // ----- what the writes keep

  lemma WritesKeepRows(seats: map<Id, SeatRow>, orders: map<Id, Order>, t: Time, eff: Effect,
                       seats': map<Id, SeatRow>, orders': map<Id, Order>)
    requires RowsInv(seats, orders, t) && Writes(seats, orders, eff, seats', orders')
    ensures RowsInv(seats', orders', ClockAfter(t, eff))
  {
    hide ItemsExist, HoldsBacked, LiveOrdersHold, SoldSeatsBought, HoldSeats, ReleaseSeats, SellSeats, ReplaceRows,
      SetOrders, FreeForHold, Pending;
    match eff
    case Nothing =>
    case Held(id, order, ids, now) =>
      HoldKeepsRows(seats, orders, t, ids, id, order, now);
      HoldKeepsBought(seats, orders, ids, id, order, now);
    case Ended(batch, status) =>
      ReleaseKeepsRows(seats, orders, t, batch, status);
      ReleaseKeepsBought(seats, orders, batch, status);
    case Finalised(o) =>
      SellKeepsRows(seats, orders, t, o);
      SellKeepsBought(seats, orders, o);
    case Replaced(screening, rows) =>
      ReplaceKeepsRows(seats, orders, t, screening, rows);
  }

  lemma SeatInvParts(seats: map<Id, SeatRow>, orders: map<Id, Order>, t: Time)
    ensures SeatInv(seats, orders, t) <==> RowsInv(seats, orders, t) && SoldOnce(seats, orders)
  {
    hide ItemsExist, HoldsBacked, LiveOrdersHold, PaidSeatsSold, SoldSeatsBought, OneBuyer;
  }

  /** The order still holds every one of its seats. */
  ghost predicate HoldsItems(seats: map<Id, SeatRow>, orders: map<Id, Order>, o: Id)
    requires o in orders
  {
    forall x | x in orders[o].items :: x in seats && HeldBy(seats[x], o)
  }

  lemma WritesKeepOnceIff(seats: map<Id, SeatRow>, orders: map<Id, Order>, t: Time, eff: Effect,
                          seats': map<Id, SeatRow>, orders': map<Id, Order>)
    requires SeatInv(seats, orders, t) && Writes(seats, orders, eff, seats', orders')
    ensures SeatInv(seats', orders', ClockAfter(t, eff)) <==> (eff.Finalised? ==> HoldsItems(seats, orders, eff.paid))
  {
    hide SeatInv, HoldSeats, ReleaseSeats, SellSeats, ReplaceRows, SetOrders, FreeForHold, HeldBy;
    match eff
    case Nothing =>
    case Held(id, order, ids, now) => HoldKeeps(seats, orders, t, ids, id, order, now);
    case Ended(batch, status) => ReleaseKeeps(seats, orders, t, batch, status);
    case Finalised(o) => ClockAssumption.FinalisationSafeIff(seats, orders, t, o);
    case Replaced(screening, rows) => ReplaceKeeps(seats, orders, t, screening, rows);
  }

  /** Paid orders stay so with their items, and a row becomes sold only to an order that lists it. */
  ghost predicate SalesGrow(seats: map<Id, SeatRow>, orders: map<Id, Order>,
                            seats': map<Id, SeatRow>, orders': map<Id, Order>) {
    && (forall o | IsPaid(orders, o) :: IsPaid(orders', o) && orders'[o].items == orders[o].items)
    && (forall o, x | IsPaid(orders, o) && x in orders[o].items && x in seats && seats[x].status != SeatSold
                      && x in seats' && seats'[x].status == SeatSold :: BoughtAnew(orders, orders', x))
  }

  ghost predicate BoughtAnew(orders: map<Id, Order>, orders': map<Id, Order>, x: Id) {
    exists p :: !IsPaid(orders, p) && IsPaid(orders', p) && x in orders'[p].items
  }

  lemma WritesGrowSales(seats: map<Id, SeatRow>, orders: map<Id, Order>, eff: Effect,
                        seats': map<Id, SeatRow>, orders': map<Id, Order>)
    requires ItemsExist(seats, orders) && HoldsBacked(seats, orders) && Writes(seats, orders, eff, seats', orders')
    ensures SalesGrow(seats, orders, seats', orders')
  {
    if eff.Finalised? {
      forall x | x in seats && seats[x].status != SeatSold && x in seats' && seats'[x].status == SeatSold
        ensures BoughtAnew(orders, orders', x)
      {
        assert HeldBy(seats[x], eff.paid) && x in orders[eff.paid].items;
        assert !IsPaid(orders, eff.paid) && IsPaid(orders', eff.paid) && x in orders'[eff.paid].items;
      }
    }
  }

  /** A seat sold twice, or paid for and not sold, is never put right. */
  lemma BrokenStays(seats: map<Id, SeatRow>, orders: map<Id, Order>,
                    seats': map<Id, SeatRow>, orders': map<Id, Order>)
    requires ItemsExist(seats, orders) && SalesGrow(seats, orders, seats', orders') && !SoldOnce(seats, orders)
    ensures !SoldOnce(seats', orders')
  {
    if !OneBuyer(orders) {
      var o, p, x :|
        IsPaid(orders, o) && IsPaid(orders, p) && x in orders[o].items && x in orders[p].items && o != p;
      assert IsPaid(orders', o) && IsPaid(orders', p) && x in orders'[o].items && x in orders'[p].items;
    } else {
      var o, x :| IsPaid(orders, o) && x in orders[o].items && !(x in seats && seats[x].status == SeatSold);
      assert IsPaid(orders', o) && x in orders'[o].items;
      if x in seats' && seats'[x].status == SeatSold {
        assert BoughtAnew(orders, orders', x);
        var p :| !IsPaid(orders, p) && IsPaid(orders', p) && x in orders'[p].items;
        assert !OneBuyer(orders');
      }
    }
  }

  // ----- runs

  /** Runs in which every step may read any clock. */
  ghost predicate LooseRun(s: State, trace: seq<Event>)
    decreases |trace|
  {
    trace == [] || (Enabled(s, trace[0]) && LooseRun(Step(s, trace[0]), trace[1..]))
  }

  /** An order that the step makes PAID still holds its items. */
  ghost predicate PaysHolder(s: State, e: Event) {
    forall o | Pending(s.orders, o) && IsPaid(Step(s, e).orders, o) :: HoldsItems(s.seats, s.orders, o)
  }

  ghost predicate PaysHolders(s: State, trace: seq<Event>)
    decreases |trace|
  {
    trace == [] || (PaysHolder(s, trace[0]) && PaysHolders(Step(s, trace[0]), trace[1..]))
  }

  lemma PaidByWrites(seats: map<Id, SeatRow>, orders: map<Id, Order>, eff: Effect,
                     seats': map<Id, SeatRow>, orders': map<Id, Order>)
    requires Writes(seats, orders, eff, seats', orders')
    ensures forall o: Id :: Pending(orders, o) && IsPaid(orders', o) <==> eff.Finalised? && o == eff.paid
  {
    hide HoldSeats, ReleaseSeats, SellSeats, ReplaceRows, FreeForHold;
  }

  lemma StepKeepsRows(s: State, t: Time, e: Event)
    requires RowsInv(s.seats, s.orders, t) && Enabled(s, e)
    ensures RowsInv(Step(s, e).seats, Step(s, e).orders, HoldClock(s, t, e))
    ensures !SoldOnce(s.seats, s.orders) ==> !SoldOnce(Step(s, e).seats, Step(s, e).orders)
  {
    assert ItemsExist(s.seats, s.orders) && HoldsBacked(s.seats, s.orders);
    hide Enabled, Step, Writes, HoldClock, RowsInv, SoldOnce, ItemsExist, HoldsBacked, SalesGrow;
    var eff := StepWrites(s, t, e);
    WritesKeepRows(s.seats, s.orders, t, eff, Step(s, e).seats, Step(s, e).orders);
    WritesGrowSales(s.seats, s.orders, eff, Step(s, e).seats, Step(s, e).orders);
    if !SoldOnce(s.seats, s.orders) { BrokenStays(s.seats, s.orders, Step(s, e).seats, Step(s, e).orders); }
  }

  lemma StepKeepsOnceIff(s: State, t: Time, e: Event)
    requires SeatInv(s.seats, s.orders, t) && Enabled(s, e)
    ensures SeatInv(Step(s, e).seats, Step(s, e).orders, HoldClock(s, t, e)) <==> PaysHolder(s, e)
  {
    assert ItemsExist(s.seats, s.orders);
    hide Enabled, Step, Writes, HoldClock, SeatInv, HoldsItems, ItemsExist;
    var eff := StepWrites(s, t, e);
    WritesKeepOnceIff(s.seats, s.orders, t, eff, Step(s, e).seats, Step(s, e).orders);
    PaidByWrites(s.seats, s.orders, eff, Step(s, e).seats, Step(s, e).orders);
    if eff.Finalised? { assert Pending(s.orders, eff.paid) && IsPaid(Step(s, e).orders, eff.paid); }
  }

  lemma {:induction false} BrokenRuns(s: State, t: Time, trace: seq<Event>)
    requires RowsInv(s.seats, s.orders, t) && !SoldOnce(s.seats, s.orders) && LooseRun(s, trace)
    ensures RowsInv(Exec(s, trace).seats, Exec(s, trace).orders, LastHoldClock(s, t, trace))
    ensures !SoldOnce(Exec(s, trace).seats, Exec(s, trace).orders)
    decreases |trace|
  {
    if trace != [] {
      StepKeepsRows(s, t, trace[0]);
      hide RowsInv, SoldOnce, Step, Enabled, HoldClock;
      BrokenRuns(Step(s, trace[0]), HoldClock(s, t, trace[0]), trace[1..]);
    }
  }

  lemma {:induction false} RunsSellOnceIff(s: State, t: Time, trace: seq<Event>)
    requires SeatInv(s.seats, s.orders, t) && LooseRun(s, trace)
    ensures RowsInv(Exec(s, trace).seats, Exec(s, trace).orders, LastHoldClock(s, t, trace))
    ensures SoldOnce(Exec(s, trace).seats, Exec(s, trace).orders) <==> PaysHolders(s, trace)
    decreases |trace|
  {
    SeatInvParts(s.seats, s.orders, t);
    if trace != [] {
      var s', t' := Step(s, trace[0]), HoldClock(s, t, trace[0]);
      hide SeatInv, RowsInv, SoldOnce, Step, Enabled, HoldClock, PaysHolder;
      StepKeepsOnceIff(s, t, trace[0]);
      StepKeepsRows(s, t, trace[0]);
      SeatInvParts(s'.seats, s'.orders, t');
      if SoldOnce(s'.seats, s'.orders) { RunsSellOnceIff(s', t', trace[1..]); }
      else { BrokenRuns(s', t', trace[1..]); }
    }
  }

  /** From the empty database, whatever clocks the steps read: held rows belong to pending orders that
      list them, sold rows were bought, and every seat paid for is sold to one buyer exactly when
      each order held all its seats at the moment it became PAID. */
  lemma SoldOnceIffHoldersPay(trace: seq<Event>)
    requires LooseRun(EMPTY, trace)
    ensures var s := Exec(EMPTY, trace);
      && ItemsExist(s.seats, s.orders) && HoldsBacked(s.seats, s.orders) && SoldSeatsBought(s.seats, s.orders)
      && (PaidSeatsSold(s.seats, s.orders) && OneBuyer(s.orders) <==> PaysHolders(EMPTY, trace))
  {
    hide LooseRun, Exec, PaysHolders, LastHoldClock, ItemsExist, HoldsBacked, LiveOrdersHold, PaidSeatsSold,
      SoldSeatsBought, OneBuyer;
    EmptyIsSafe(0);
    SeatsAreListed(EMPTY, 0);
    RunsSellOnceIff(EMPTY, 0, trace);
  }

  lemma {:induction false} ClockedIsLoose(s: State, t: Time, trace: seq<Event>)
    requires Run(s, t, trace)
    ensures LooseRun(s, trace)
    decreases |trace|
  {
    if trace != [] {
      hide Step, Enabled, HoldClock;
      ClockedIsLoose(Step(s, trace[0]), HoldClock(s, t, trace[0]), trace[1..]);
    }
  }

  /** The clock assumption is enough: under it only holders are paid. */
  lemma ClockedRunsPayHolders(t: Time, trace: seq<Event>)
    requires Run(EMPTY, t, trace)
    ensures PaysHolders(EMPTY, trace)
  {
    hide Run, LooseRun, Exec, PaysHolders, LastHoldClock, SeatInv, RowsInv, SoldOnce, Inv;
    ClockedIsLoose(EMPTY, t, trace);
    EmptyIsSafe(t);
    RunKeeps(EMPTY, t, trace);
    SeatsAreListed(EMPTY, t);
    SeatsAreListed(Exec(EMPTY, trace), LastHoldClock(EMPTY, t, trace));
    RunsSellOnceIff(EMPTY, t, trace);
    SeatInvParts(Exec(EMPTY, trace).seats, Exec(EMPTY, trace).orders, LastHoldClock(EMPTY, t, trace));
  }
}
