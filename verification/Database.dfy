/** The PostgreSQL repositories as transactions over one mutable database. Each method executes
    its statements in the source's order and is proved to commit exactly what `Machine` says. */
module Database {
  import opened Common
  import opened Store
  import opened Machine
  import opened MoneySafety
  import Outbox
  import Uuid

  /** ORDER BY id: the members of a set, smallest first. */
  method ListAscending(ids: set<Id>) returns (q: seq<Id>)
    ensures q == Ascending(ids)
  {
    q := [];
    var rest := ids;
    while rest != {}
      invariant rest <= ids && Elements(q) == ids - rest && StrictlyAscending(q)
      invariant forall a, b | a in q && b in rest :: a < b
      decreases |rest|
    {
      var m := FirstRow(rest, map x | x in rest :: 0);
      assert forall i | 0 <= i < |q| :: q[i] in q;
      ghost var before := q;
      q := q + [m];
      rest := rest - {m};
      assert forall x :: x in q <==> x in before || x == m;
      assert forall x :: x in before <==> x in Elements(before);
    }
    AscendingLists(ids);
    AscendingIsUnique(q, Ascending(ids));
  }

  /** SELECT showtime_seat_id::text ... ORDER BY showtime_seat_id: the stored seats read back. */
  method ReadSeatTexts(order: Order) returns (texts: seq<string>)
    ensures texts == SeatTexts(order)
  {
    var ids := ListAscending(order.items.Keys);
    texts := [];
    for i := 0 to |ids|
      invariant texts == Rendered(ids)[..i]
    {
      texts := texts + [Uuid.Render(ids[i])];
    }
  }

  /** Text literals sent to a uuid parameter: whether each is one. */
  method TextsParse(texts: seq<string>) returns (ok: bool)
    ensures ok == AllParse(texts)
  {
    for i := 0 to |texts|
      invariant forall j | 0 <= j < i :: Uuid.Parse(texts[j]).Some?
    {
      if Uuid.Parse(texts[i]).None? {
        return false;
      }
    }
    return true;
  }

  /** sameOrderRequest: compares the stored texts, as read back, with the requested ones. */
  method SameOrderRequest(storedShowtime: string, stored: seq<string>, showtime: string, requested: seq<string>)
    returns (same: bool)
    ensures same <==> storedShowtime == showtime && stored == requested
  {
    if storedShowtime != showtime || |stored| != |requested| {
      return false;
    }
    for i := 0 to |stored|
      invariant stored[..i] == requested[..i]
    {
      if stored[i] != requested[i] {
        return false;
      }
    }
    return true;
  }

  /** allSeatsAvailable over the rows that were locked. */
  method AllSeatsAvailable(rows: seq<SeatRow>, now: Time) returns (ok: bool)
    ensures ok <==> forall i | 0 <= i < |rows| :: FreeForHold(rows[i], now)
  {
    for i := 0 to |rows|
      invariant forall j | 0 <= j < i :: FreeForHold(rows[j], now)
    {
      var row := rows[i];
      if row.status == SeatAvailable {
        continue;
      }
      if row.status == SeatHeld && row.holdExpiry.Some? && row.holdExpiry.value <= now {
        continue;
      }
      return false;
    }
    return true;
  }

  /** SELECT SUM(price_amount) over an order's items. */
  method SumItems(items: map<Id, nat>) returns (total: nat)
    ensures total == OrderTotal(items)
  {
    var q := ListAscending(items.Keys);
    AscendingLists(items.Keys);
    total := 0;
    var i := 0;
    while i < |q|
      invariant 0 <= i <= |q|
      invariant total + SumPrices(q[i..], items) == SumPrices(q, items)
    {
      assert q[i] in Elements(q);
      assert q[i..][1..] == q[i + 1..];
      total := total + items[q[i]];
      i := i + 1;
    }
  }

  /** UNIQUE (ticket_code): looks for two tickets under one code. */
  method CodesUnique(tickets: map<ItemKey, Ticket>) returns (ok: bool)
    ensures ok == UniqueCodes(tickets)
  {
    var todo := tickets.Keys;
    while todo != {}
      invariant todo <= tickets.Keys
      invariant forall j, k | j in tickets.Keys - todo && k in tickets.Keys ::
        tickets[j].code == tickets[k].code ==> j == k
      decreases |todo|
    {
      var j :| j in todo;
      if exists k :: k in tickets && k != j && tickets[k].code == tickets[j].code {
        return false;
      }
      todo := todo - {j};
    }
    return true;
  }

  class Database {
    var seats: map<Id, SeatRow>
    var orders: map<Id, Order>
    var keys: map<(Id, string), Id>
    var payments: map<PaymentKey, Payment>
    var webhooks: set<(string, string)>
    var tickets: map<ItemKey, Ticket>
    var outbox: seq<Delivery>
    var audits: seq<AuditRow>
    ghost var issued: set<IntentRequest>

    ghost function View(): State
      reads this
    {
      State(seats, orders, keys, payments, issued, webhooks, tickets, outbox, audits)
    }

    /** The uniqueness that the row lookups below rely on. */
    ghost predicate Valid()
      reads this
    {
      OnePaymentPerOrder(payments) && UniqueCodes(tickets)
    }

    constructor ()
      ensures Valid() && View() == EMPTY
    {
      seats, orders, keys, payments := map[], map[], map[], map[];
      webhooks, tickets, outbox, audits, issued := {}, map[], [], [], {};
    }

    /** SELECT ... FROM showtime_seats WHERE showtime_id AND id = ANY ... FOR UPDATE. */
    method LockSeats(showtime: Id, seatIds: seq<Id>) returns (ids: set<Id>, rows: seq<SeatRow>)
      ensures ids == LockedSeats(seats, showtime, seatIds) && ids <= seats.Keys && |rows| == |ids|
      ensures (forall i | 0 <= i < |rows| :: exists x :: x in ids && rows[i] == seats[x])
      ensures forall x | x in ids :: seats[x] in rows
    {
      ids := LockedSeats(seats, showtime, seatIds);
      rows := [];
      var todo := ids;
      while todo != {}
        invariant todo <= ids && |rows| + |todo| == |ids|
        invariant forall i | 0 <= i < |rows| :: exists x :: x in ids && rows[i] == seats[x]
        invariant forall x | x in ids - todo :: seats[x] in rows
        decreases |todo|
      {
        var x :| x in todo;
        rows := rows + [seats[x]];
        todo := todo - {x};
      }
    }

    method CreateHold(id: Id, user: Id, showtime: string, key: string, expiresAt: Time, seatIds: seq<string>, now: Time)
      returns (r: Outcome<Id>)
      requires Valid()
      modifies this
      ensures Valid()
      ensures (View(), r) == PlaceHoldStep(old(View()), PlaceHold(id, user, showtime, key, expiresAt, seatIds), now)
    {
      if (user, key) in keys {
        var existing := keys[(user, key)];
        if existing !in orders {
          return Refused(IdempotencyKeyReused);
        }
        var stored := ReadSeatTexts(orders[existing]);
        var same := SameOrderRequest(Uuid.Render(orders[existing].showtime), stored, showtime, seatIds);
        return if same then Done(existing) else Refused(IdempotencyKeyReused);
      }
      var parsed := TextsParse(seatIds);
      if Uuid.Parse(showtime).None? || !parsed {
        return Refused(MalformedId);
      }
      r := InsertHold(id, user, Uuid.Parse(showtime).value, key, expiresAt, Parsed(seatIds), now);
    }

    /** The statements after the idempotency check, on the rows that the texts denote. */
    method InsertHold(id: Id, user: Id, showtime: Id, key: string, expiresAt: Time, seatIds: seq<Id>, now: Time)
      returns (r: Outcome<Id>)
      requires Valid()
      modifies this
      ensures Valid()
      ensures (View(), r) ==
        NewHoldStep(old(View()), id, NewOrder(old(View()), user, showtime, key, expiresAt, seatIds), seatIds, now)
    {
      hide ItemsFor, HoldSeats, BookingCode, LockedSeats, FreeForHold, UniqueCodes, OnePaymentPerOrder, Elements;
      var ids, rows := LockSeats(showtime, seatIds);
      var available := AllSeatsAvailable(rows, now);
      assert available <==> forall x | x in ids :: FreeForHold(seats[x], now);
      if |rows| != |seatIds| || !available {
        return Refused(SeatUnavailable);
      }
      if id in orders || exists o :: o in orders && BookingCode(o) == BookingCode(id) {
        return Refused(StorageConflict);
      }
      FullyListed(seats, showtime, seatIds);
      WriteHold(id, user, showtime, key, expiresAt, seatIds, ids);
      r := Done(id);
    }

    method WriteHold(id: Id, user: Id, showtime: Id, key: string, expiresAt: Time, seatIds: seq<Id>, ids: set<Id>)
      requires ids == Elements(seatIds)
      modifies `orders, `keys, `seats
      ensures orders ==
        old(orders)[id := Order(user, showtime, key, PendingPayment, expiresAt, ItemsFor(old(seats), ids))]
      ensures keys == old(keys)[(user, key) := id] && seats == HoldSeats(old(seats), ids, id, expiresAt)
    {
      orders := orders[id := Order(user, showtime, key, PendingPayment, expiresAt, map[])];
      keys := keys[(user, key) := id];
      InsertItems(id, seatIds);
      seats := HoldSeats(seats, ids, id, expiresAt);
    }

    /** INSERT INTO order_items, one statement per requested seat. */
    method InsertItems(id: Id, seatIds: seq<Id>)
      requires id in orders && orders[id].items == map[]
      modifies `orders
      ensures orders == old(orders)[id := old(orders)[id].(items := ItemsFor(seats, Elements(seatIds)))]
    {
      for i := 0 to |seatIds|
        invariant id in orders
        invariant orders == old(orders)[id := old(orders)[id].(items := ItemsFor(seats, Elements(seatIds[..i])))]
      {
        var x := seatIds[i];
        assert seatIds[..i + 1] == seatIds[..i] + [x];
        if x in seats {
          orders := orders[id := orders[id].(items := orders[id].items[x := seats[x].price])];
        }
        assert ItemsFor(seats, Elements(seatIds[..i + 1])) == orders[id].items;
      }
      assert seatIds[..|seatIds|] == seatIds;
    }

    method CancelOrder(order: Id, user: Id, now: Time) returns (r: Outcome<Id>)
      requires Valid()
      modifies this
      ensures Valid()
      ensures (View(), r) == CancelStep(old(View()), order, user, now)
    {
      if order !in orders || orders[order].user != user {
        return Refused(OrderNotFound);
      }
      if orders[order].status != PendingPayment || !(orders[order].expiresAt > now) {
        return Refused(OrderNotCancellable);
      }
      orders := SetOrders(orders, {order}, Cancelled);
      seats := ReleaseSeats(seats, {order});
      r := Done(order);
    }

    /** `locked` are the rows other workers hold, which SKIP LOCKED leaves out. */
    method ExpirePendingHolds(now: Time, limit: nat, locked: set<Id>) returns (expired: nat, ids: set<Id>)
      requires Valid()
      modifies this
      ensures Valid() && expired == |ids|
      ensures IsFirst(ids, DueOrders(old(orders), now, locked), OrderDueTimes(old(orders)), limit)
      ensures View() == ExpireStep(old(View()), ids)
    {
      ids := SelectFirst(DueOrders(orders, now, locked), OrderDueTimes(orders), limit);
      if |ids| == 0 {
        assert ids == {};
        NoneEnds(orders, seats);
        return 0, ids;
      }
      orders := SetOrders(orders, ids, Expired);
      seats := ReleaseSeats(seats, ids);
      expired := |ids|;
    }

    method PaymentIntentRequest(order: Id, user: Id, now: Time) returns (r: Outcome<Option<IntentRequest>>)
      requires Valid()
      modifies `issued
      ensures Valid()
      ensures (View(), r) == RequestIntentStep(old(View()), order, user, now)
    {
      if order !in orders || orders[order].user != user {
        return Refused(OrderNotFound);
      }
      if exists k :: k in payments && payments[k].order == order {
        return Done(None);
      }
      if orders[order].status != PendingPayment {
        return Refused(OrderNotPayable);
      }
      if !(orders[order].expiresAt > now) {
        return Refused(OrderExpired);
      }
      var amount := SumItems(orders[order].items);
      var request := IntentRequest(order, amount, now);
      issued := issued + {request};
      r := Done(Some(request));
    }

    /** The reply check of Service.CreatePaymentIntent followed by SavePaymentIntent. */
    method SavePaymentIntent(request: IntentRequest, provider: string, intent: Intent) returns (r: Outcome<PaymentKey>)
      requires Valid()
      modifies this
      ensures Valid()
      ensures (View(), r) == SaveIntentStep(old(View()), request, provider, intent)
    {
      if intent.provider != provider || intent.reference == "" || intent.status != PaymentPending {
        return Refused(InvalidProviderReply);
      }
      var order := request.order;
      if order !in orders {
        return Refused(OrderNotFound);
      }
      if exists k :: k in payments && payments[k].order == order {
        var existing :| existing in payments && payments[existing].order == order;
        return Done(existing);
      }
      if orders[order].status != PendingPayment {
        return Refused(OrderNotPayable);
      }
      if !(orders[order].expiresAt > request.asOf) {
        return Refused(OrderExpired);
      }
      var k := PaymentKey(intent.provider, intent.reference);
      if k in payments {
        return Refused(StorageConflict);
      }
      payments := payments[k := Payment(order, PaymentPending, intent.amount, None)];
      r := Done(k);
    }

    /** finalizePaidOrder; false means a generated ticket code collides and nothing is written. */
    method FinalizePaidOrder(order: Id, paidAt: Time, now: Time, codes: Id -> string) returns (ok: bool)
      requires order in orders
      modifies `payments, `seats, `orders, `tickets, `outbox, `audits
      ensures ok == UniqueCodes(IssueTickets(old(tickets), order, old(orders)[order].items, codes))
      ensures !ok ==> View() == old(View())
      ensures ok ==>
        && payments == SettlePayments(old(payments), order, PaymentSucceeded, Some(paidAt))
        && seats == SellSeats(old(seats), order)
        && orders == SetOrders(old(orders), {order}, Paid)
        && tickets == IssueTickets(old(tickets), order, old(orders)[order].items, codes)
        && outbox == old(outbox) + [Delivery(order, DeliveryPending, 0, now)]
        && audits == old(audits) + [AuditRow(None, PaymentSucceededAction(order))]
    {
      var issuing := IssueTickets(tickets, order, orders[order].items, codes);
      ok := CodesUnique(issuing);
      hide IssueTickets, SettlePayments, SellSeats, SetOrders, UniqueCodes;
      if ok {
        payments := SettlePayments(payments, order, PaymentSucceeded, Some(paidAt));
        seats := SellSeats(seats, order);
        orders := SetOrders(orders, {order}, Paid);
        tickets := issuing;
        outbox := outbox + [Delivery(order, DeliveryPending, 0, now)];
        audits := audits + [AuditRow(None, PaymentSucceededAction(order))];
      }
    }

    method ProcessWebhookEvent(event: WebhookEvent, now: Time, codes: Id -> string) returns (r: Outcome<()>)
      requires Valid()
      modifies this
      ensures Valid()
      ensures (View(), r) == WebhookStep(old(View()), event, now, codes)
    {
      hide IssueTickets, SettlePayments, SellSeats, ReleaseSeats, SetOrders, UniqueCodes, OnePaymentPerOrder;
      if (event.provider, event.eventId) in webhooks {
        return Done(());
      }
      var before := webhooks;
      webhooks := webhooks + {(event.provider, event.eventId)};
      var k := PaymentKey(event.provider, event.reference);
      if k !in payments || payments[k].order !in orders {
        return Done(());
      }
      var order := payments[k].order;
      var paymentStatus, orderStatus, expiresAt := payments[k].status, orders[order].status, orders[order].expiresAt;
      match event.status {
      case WebhookSucceeded =>
        if paymentStatus != PaymentSucceeded && orderStatus != Paid {
          if orderStatus != PendingPayment || !(expiresAt > now) {
            if orderStatus == PendingPayment {
              orders := SetOrders(orders, {order}, Expired);
              seats := ReleaseSeats(seats, {order});
            }
            NoneEnds(old(orders), old(seats));
            SettleKeepsOne(payments, order, PaymentRefundPending, Some(event.occurredAt));
            payments := SettlePayments(payments, order, PaymentRefundPending, Some(event.occurredAt));
            audits := audits + [AuditRow(None, RefundPendingAction(order))];
          } else {
            var ok := FinalizePaidOrder(order, event.occurredAt, now, codes);
            if !ok {
              webhooks := before;
              return Refused(StorageConflict);
            }
            SettleKeepsOne(old(payments), order, PaymentSucceeded, Some(event.occurredAt));
          }
        }
      case WebhookFailed =>
        if paymentStatus == PaymentPending {
          SettleKeepsOne(payments, order, PaymentFailed, None);
          payments := SettlePayments(payments, order, PaymentFailed, None);
        }
      case WebhookExpired =>
        if paymentStatus == PaymentPending {
          SettleKeepsOne(payments, order, PaymentExpired, None);
          payments := SettlePayments(payments, order, PaymentExpired, None);
        }
      }
      r := Done(());
    }

    method ClaimTicketDeliveries(now: Time, limit: nat, lease: int, locked: set<nat>) returns (events: set<nat>)
      requires Valid()
      modifies this
      ensures Valid() && Outbox.ClaimBatch(old(outbox), now, locked, limit, events)
      ensures View() == old(View()).(outbox := Outbox.Claim(old(outbox), events, now + lease))
    {
      events := SelectFirst(Outbox.DueDeliveries(outbox, now, locked), Outbox.DueTimes(outbox), limit);
      outbox := Outbox.Claim(outbox, events, now + lease);
    }

    method CompleteTicketDelivery(id: nat) returns (ok: bool)
      requires Valid()
      modifies this
      ensures Valid() && ok == Outbox.Complete(old(outbox), id).Done?
      ensures View() == Keep(old(View()), Outbox.Complete(old(outbox), id))
    {
      ok := id < |outbox| && outbox[id].status == DeliveryProcessing;
      if ok { outbox := outbox[id := outbox[id].(status := DeliveryCompleted)]; }
    }

    method RetryTicketDelivery(id: nat, now: Time, delay: int) returns (ok: bool)
      requires Valid()
      modifies this
      ensures Valid() && ok == Outbox.Reschedule(old(outbox), id, now + delay).Done?
      ensures View() == Keep(old(View()), Outbox.Reschedule(old(outbox), id, now + delay))
    {
      ok := id < |outbox| && outbox[id].status == DeliveryProcessing;
      if ok { outbox := outbox[id := outbox[id].(status := DeliveryPending, availableAt := now + delay)]; }
    }

    method CheckInTicket(code: string, admin: Id, now: Time) returns (r: Outcome<ItemKey>)
      requires Valid()
      modifies this
      ensures Valid()
      ensures (View(), r) == CheckInStep(old(View()), code, admin, now)
    {
      if !exists k :: k in tickets && tickets[k].code == code {
        return Refused(TicketNotFound);
      }
      var k :| k in tickets && tickets[k].code == code;
      if tickets[k].status == TicketUsed {
        return Refused(TicketAlreadyUsed);
      }
      if tickets[k].status != TicketIssued {
        return Refused(TicketNotFound);
      }
      tickets := tickets[k := tickets[k].(status := TicketUsed, checkedInAt := Some(now))];
      audits := audits + [AuditRow(Some(admin), CheckedInAction(k))];
      r := Done(k);
    }

    /** The inventory statements of replaceShowtimeSeats, with the foreign key from order_items. */
    method ReplaceShowtimeSeats(showtime: Id, rows: map<Id, nat>) returns (r: Outcome<()>)
      requires Valid()
      modifies this
      ensures Valid()
      ensures (View(), r) == ReplaceInventoryStep(old(View()), showtime, rows)
    {
      if exists o, x :: o in orders && x in orders[o].items && x in seats && seats[x].showtime == showtime {
        return Refused(ShowtimeInUse);
      }
      if exists x :: x in rows && x in seats {
        return Refused(StorageConflict);
      }
      seats := ReplaceRows(seats, showtime, rows);
      r := Done(());
    }
  }

  lemma NoneEnds(orders: map<Id, Order>, seats: map<Id, SeatRow>)
    ensures SetOrders(orders, {}, Expired) == orders && ReleaseSeats(seats, {}) == seats
  {
  }

  lemma SettleKeepsOne(payments: map<PaymentKey, Payment>, o: Id, status: PaymentStatus, paidAt: Option<Time>)
    requires OnePaymentPerOrder(payments)
    ensures OnePaymentPerOrder(SettlePayments(payments, o, status, paidAt))
  {
  }

  /** When every requested seat was locked, the locked rows are the requested ones. */
  lemma FullyListed(rows: map<Id, SeatRow>, showtime: Id, seatIds: seq<Id>)
    requires |LockedSeats(rows, showtime, seatIds)| == |seatIds|
    ensures LockedSeats(rows, showtime, seatIds) == Elements(seatIds)
  {
    var locked, all := LockedSeats(rows, showtime, seatIds), Elements(seatIds);
    DistinctIffFullCount(seatIds);
    assert locked <= all && all == locked + (all - locked);
  }
}
