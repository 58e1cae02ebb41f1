/** What no later step can take back. */
module Stability {
  import opened Common
  import opened Store
  import opened Machine
  import opened SeatSafety
  import opened MoneySafety
  import opened Safety
  import Outbox
  import Uuid

  ghost predicate OrdersPersist(a: map<Id, Order>, b: map<Id, Order>) {
    forall o | o in a ::
      && o in b && b[o] == a[o].(status := b[o].status)
      && (a[o].status != PendingPayment ==> b[o].status == a[o].status)
  }

  ghost predicate SalesPersist(a: map<Id, SeatRow>, b: map<Id, SeatRow>) {
    forall x | x in a && a[x].status == SeatSold :: x in b && b[x] == a[x]
  }

  ghost predicate PaymentsPersist(a: map<PaymentKey, Payment>, b: map<PaymentKey, Payment>) {
    forall k | k in a ::
      && k in b && b[k].order == a[k].order && b[k].amount == a[k].amount
      && (a[k].status in {PaymentSucceeded, PaymentRefundPending} ==> b[k].status == a[k].status)
  }

  ghost predicate TicketsPersist(a: map<ItemKey, Ticket>, b: map<ItemKey, Ticket>) {
    forall k | k in a :: k in b && b[k].code == a[k].code && (a[k].status == TicketUsed ==> b[k] == a[k])
  }

  ghost predicate DeliveriesPersist(a: seq<Delivery>, b: seq<Delivery>) {
    && |a| <= |b|
    && forall i | 0 <= i < |a| :: b[i].order == a[i].order
         && a[i].attempts <= b[i].attempts
         && (a[i].status == DeliveryCompleted ==> b[i] == a[i])
  }

  /** Orders keep their terms and leave PENDING_PAYMENT once; sales, settled payments, used
      tickets and completed deliveries are final; the trail and the indexes only grow. */
  ghost predicate Persists(a: State, b: State) {
    && OrdersPersist(a.orders, b.orders)
    && SalesPersist(a.seats, b.seats)
    && PaymentsPersist(a.payments, b.payments)
    && TicketsPersist(a.tickets, b.tickets)
    && DeliveriesPersist(a.outbox, b.outbox)
    && a.audits <= b.audits
    && a.webhooks <= b.webhooks
    && (forall k | k in a.keys :: k in b.keys && b.keys[k] == a.keys[k])
  }

  lemma PersistsTransitive(a: State, b: State, c: State)
    requires Persists(a, b) && Persists(b, c)
    ensures Persists(a, c)
  {
    assert OrdersPersist(a.orders, c.orders);
    assert DeliveriesPersist(a.outbox, c.outbox);
  }

  // ----- one lemma per table and way of writing it

  lemma Unchanged(s: State)
    ensures OrdersPersist(s.orders, s.orders) && SalesPersist(s.seats, s.seats)
    ensures PaymentsPersist(s.payments, s.payments) && TicketsPersist(s.tickets, s.tickets)
    ensures DeliveriesPersist(s.outbox, s.outbox)
  {
  }

  lemma NewHoldPersists(s: State, o: Id, order: Order, ids: set<Id>)
    requires o !in s.orders && forall x | x in ids :: x in s.seats && s.seats[x].status != SeatSold
    ensures OrdersPersist(s.orders, s.orders[o := order])
    ensures SalesPersist(s.seats, HoldSeats(s.seats, ids, o, order.expiresAt))
  {
  }

  lemma EndOrdersPersists(s: State, batch: set<Id>, status: OrderStatus)
    requires forall o | o in batch :: Pending(s.orders, o)
    ensures OrdersPersist(s.orders, SetOrders(s.orders, batch, status))
    ensures SalesPersist(s.seats, ReleaseSeats(s.seats, batch))
  {
  }

  lemma SellPersists(s: State, o: Id)
    requires Pending(s.orders, o)
    ensures OrdersPersist(s.orders, SetOrders(s.orders, {o}, Paid))
    ensures SalesPersist(s.seats, SellSeats(s.seats, o))
  {
  }

  lemma ReplacePersists(s: State, showtime: Id, rows: map<Id, nat>)
    requires SoldSeatsBought(s.seats, s.orders)
    requires forall x | x in s.seats && s.seats[x].showtime == showtime :: !Referenced(s.orders, x)
    requires forall x | x in rows :: x !in s.seats
    ensures SalesPersist(s.seats, ReplaceRows(s.seats, showtime, rows))
  {
    ReplacedRows(s.seats, showtime, rows);
    hide ReplaceRows;
    forall x | x in s.seats && s.seats[x].status == SeatSold ensures s.seats[x].showtime != showtime {
      assert Bought(s.orders, x);
      assert Referenced(s.orders, x);
    }
  }

  lemma SettlePersists(payments: map<PaymentKey, Payment>, o: Id, status: PaymentStatus, paidAt: Option<Time>)
    requires forall k | k in payments && payments[k].order == o ::
      payments[k].status in {PaymentSucceeded, PaymentRefundPending} ==> payments[k].status == status
    ensures PaymentsPersist(payments, SettlePayments(payments, o, status, paidAt))
  {
  }

  lemma IssuePersists(tickets: map<ItemKey, Ticket>, o: Id, items: map<Id, nat>, codes: Id -> string)
    ensures TicketsPersist(tickets, IssueTickets(tickets, o, items, codes))
  {
  }

  // ----- one lemma per step

  lemma PlaceHoldPersists(s: State, e: Event)
    requires e.op.PlaceHold?
    ensures Persists(s, Step(s, e))
  {
    hide OrdersPersist, SalesPersist, PaymentsPersist, TicketsPersist, DeliveriesPersist, PlaceHoldStep, Grants,
      HoldSeats,
      ItemsFor;
    var op := e.op;
    Unchanged(s);
    GrantCases(s, op, e.now);
    if Grants(s, op, e.now) {
      var showtime := Uuid.Parse(op.showtime).value;
      var ids := LockedSeats(s.seats, showtime, Parsed(op.seatIds));
      NewHoldPersists(s, op.id, NewOrder(s, op.user, showtime, op.key, op.expiresAt, Parsed(op.seatIds)), ids);
    }
  }

  lemma EndingPersists(s: State, e: Event)
    requires Enabled(s, e) && (e.op.CancelOrder? || e.op.ExpirePendingHolds?)
    ensures Persists(s, Step(s, e))
  {
    Unchanged(s);
    if e.op.ExpirePendingHolds? {
      EndOrdersPersists(s, e.op.batch, Expired);
    } else if CancelStep(s, e.op.order, e.op.user, e.now).1.Done? {
      EndOrdersPersists(s, {e.op.order}, Cancelled);
    }
    hide OrdersPersist, SalesPersist, PaymentsPersist, TicketsPersist, DeliveriesPersist;
  }

  lemma ReplaceInventoryPersists(s: State, t: Time, e: Event)
    requires Inv(s, t) && e.op.ReplaceInventory?
    ensures Persists(s, Step(s, e))
  {
    Unchanged(s);
    if ReplaceInventoryStep(s, e.op.screening, e.op.rows).1.Done? {
      ReplacePersists(s, e.op.screening, e.op.rows);
    }
    hide OrdersPersist, SalesPersist, PaymentsPersist, TicketsPersist, DeliveriesPersist, Inv;
  }

  /** A settled payment stays settled: a refund belongs to an ended order, a success to a paid one. */
  lemma SettledPaymentOrder(s: State, t: Time, k: PaymentKey)
    requires Inv(s, t) && k in s.payments
    ensures forall j | j in s.payments && s.payments[j].order == s.payments[k].order :: j == k
    ensures s.payments[k].order in s.orders
    ensures s.payments[k].status == PaymentRefundPending ==>
      s.orders[s.payments[k].order].status in {Expired, Cancelled}
    ensures s.payments[k].status == PaymentSucceeded <==> s.orders[s.payments[k].order].status == Paid
  {
  }

  lemma RefundPersists(s: State, k: PaymentKey, paidAt: Time)
    requires OnePaymentPerOrder(s.payments) && k in s.payments && s.payments[k].order in s.orders
    requires s.payments[k].status != PaymentSucceeded && s.orders[s.payments[k].order].status != Paid
    ensures var o := s.payments[k].order;
      var late := if s.orders[o].status == PendingPayment then {o} else {};
      Persists(s, s.(orders := SetOrders(s.orders, late, Expired),
                     seats := ReleaseSeats(s.seats, late),
                     payments := SettlePayments(s.payments, o, PaymentRefundPending, Some(paidAt)),
                     audits := s.audits + [AuditRow(None, RefundPendingAction(o))]))
  {
    var o := s.payments[k].order;
    hide SetOrders, ReleaseSeats, SettlePayments, OrdersPersist, SalesPersist, PaymentsPersist, TicketsPersist,
      DeliveriesPersist;
    Unchanged(s);
    EndOrdersPersists(s, if s.orders[o].status == PendingPayment then {o} else {}, Expired);
    SettlePersists(s.payments, o, PaymentRefundPending, Some(paidAt));
  }

  lemma FinalisePersists(s: State, k: PaymentKey, paidAt: Time, now: Time, codes: Id -> string)
    requires OnePaymentPerOrder(s.payments) && k in s.payments && Pending(s.orders, s.payments[k].order)
    requires s.payments[k].status != PaymentRefundPending
    ensures var o := s.payments[k].order;
      Persists(s, s.(payments := SettlePayments(s.payments, o, PaymentSucceeded, Some(paidAt)),
                     seats := SellSeats(s.seats, o),
                     orders := SetOrders(s.orders, {o}, Paid),
                     tickets := IssueTickets(s.tickets, o, s.orders[o].items, codes),
                     outbox := s.outbox + [Delivery(o, DeliveryPending, 0, now)],
                     audits := s.audits + [AuditRow(None, PaymentSucceededAction(o))]))
  {
    var o := s.payments[k].order;
    hide SetOrders, SellSeats, SettlePayments, IssueTickets, OrdersPersist, SalesPersist, PaymentsPersist,
      TicketsPersist;
    Unchanged(s);
    SettlePersists(s.payments, o, PaymentSucceeded, Some(paidAt));
    SellPersists(s, o);
    IssuePersists(s.tickets, o, s.orders[o].items, codes);
  }

  lemma SucceedPersists(s: State, t: Time, k: PaymentKey, event: WebhookEvent, now: Time, codes: Id -> string)
    requires Inv(s, t) && k in s.payments && s.payments[k].order in s.orders
    ensures var settled := Succeed(s, k, event, now, codes); settled.Some? ==> Persists(s, settled.value)
  {
    var o := s.payments[k].order;
    SettledPaymentOrder(s, t, k);
    assert OnePaymentPerOrder(s.payments);
    assert Persists(s, s) by { Unchanged(s); }
    hide Inv, Persists, OnePaymentPerOrder, UniqueCodes;
    if s.payments[k].status != PaymentSucceeded && s.orders[o].status != Paid {
      if s.orders[o].status != PendingPayment || s.orders[o].expiresAt <= now {
        RefundPersists(s, k, event.occurredAt);
      } else {
        FinalisePersists(s, k, event.occurredAt, now, codes);
      }
    }
  }

  lemma DeclinePersists(s: State, k: PaymentKey, status: PaymentStatus)
    requires OnePaymentPerOrder(s.payments) && k in s.payments
    ensures Persists(s, Decline(s, k, status))
  {
    Unchanged(s);
    if s.payments[k].status == PaymentPending {
      SettlePersists(s.payments, s.payments[k].order, status, None);
    }
    hide SettlePayments, OrdersPersist, SalesPersist, PaymentsPersist, TicketsPersist, DeliveriesPersist;
  }

  lemma WebhookPersists(s: State, t: Time, e: Event)
    requires Inv(s, t) && e.op.Webhook?
    ensures Persists(s, Step(s, e))
  {
    var Webhook(event, codes) := e.op;
    var k := PaymentKey(event.provider, event.reference);
    var r := s.(webhooks := s.webhooks + {(event.provider, event.eventId)});
    assert Persists(s, s) && Persists(s, r) by { Unchanged(s); }
    hide Persists, Succeed, Decline;
    if (event.provider, event.eventId) !in s.webhooks && k in s.payments {
      SettledPaymentOrder(s, t, k);
      match event.status
      case WebhookSucceeded =>
        SucceedPersists(r, t, k, event, e.now, codes);
        var settled := Succeed(r, k, event, e.now, codes);
        if settled.Some? { PersistsTransitive(s, r, settled.value); }
      case WebhookFailed =>
        DeclinePersists(r, k, PaymentFailed);
        PersistsTransitive(s, r, Decline(r, k, PaymentFailed));
      case WebhookExpired =>
        DeclinePersists(r, k, PaymentExpired);
        PersistsTransitive(s, r, Decline(r, k, PaymentExpired));
    }
  }

  lemma ClaimPersists(outbox: seq<Delivery>, batch: set<nat>, leaseUntil: Time, now: Time, locked: set<nat>)
    requires batch <= Outbox.DueDeliveries(outbox, now, locked)
    ensures DeliveriesPersist(outbox, Outbox.Claim(outbox, batch, leaseUntil))
  {
  }

  lemma CompletePersists(outbox: seq<Delivery>, id: nat, availableAt: Time)
    ensures Outbox.Complete(outbox, id).Done? ==> DeliveriesPersist(outbox, Outbox.Complete(outbox, id).value)
    ensures Outbox.Reschedule(outbox, id, availableAt).Done? ==>
      DeliveriesPersist(outbox, Outbox.Reschedule(outbox, id, availableAt).value)
  {
  }

  lemma OutboxPersists(s: State, outbox: seq<Delivery>)
    requires DeliveriesPersist(s.outbox, outbox)
    ensures Persists(s, s.(outbox := outbox))
  {
    Unchanged(s);
    hide OrdersPersist, SalesPersist, PaymentsPersist, TicketsPersist, DeliveriesPersist;
  }

  lemma DeliveryPersists(s: State, e: Event)
    requires Enabled(s, e) && (e.op.ClaimDeliveries? || e.op.CompleteDelivery? || e.op.RetryDelivery?)
    ensures Persists(s, Step(s, e))
  {
    hide OrdersPersist, SalesPersist, PaymentsPersist, TicketsPersist, DeliveriesPersist,
      Outbox.Claim, Outbox.Complete, Outbox.Reschedule, Outbox.DueDeliveries;
    if e.op.ClaimDeliveries? { ClaimPersists(s.outbox, e.op.deliveries, e.now + e.op.lease, e.now, e.op.locked); }
    if e.op.CompleteDelivery? { CompletePersists(s.outbox, e.op.delivery, e.now); }
    if e.op.RetryDelivery? { CompletePersists(s.outbox, e.op.delivery, e.op.availableAt); }
    Unchanged(s);
    if Step(s, e) != s { OutboxPersists(s, Step(s, e).outbox); }
  }

  lemma IntentPersists(s: State, e: Event)
    requires e.op.RequestIntent? || e.op.SaveIntent?
    ensures Persists(s, Step(s, e))
  {
    Unchanged(s);
    hide OrdersPersist, SalesPersist, TicketsPersist, DeliveriesPersist;
  }

  lemma CheckInPersists(s: State, e: Event)
    requires e.op.CheckIn?
    ensures Persists(s, Step(s, e))
  {
    Unchanged(s);
    hide OrdersPersist, SalesPersist, PaymentsPersist, DeliveriesPersist;
  }

  lemma StepPersists(s: State, t: Time, e: Event)
    requires Inv(s, t) && Enabled(s, e)
    ensures Persists(s, Step(s, e))
  {
    hide *;
    match e.op
    case Webhook(_, _) => WebhookPersists(s, t, e);
    case PlaceHold(_, _, _, _, _, _) => PlaceHoldPersists(s, e);
    case CancelOrder(_, _) => EndingPersists(s, e);
    case ExpirePendingHolds(_, _, _) => EndingPersists(s, e);
    case ReplaceInventory(_, _) => ReplaceInventoryPersists(s, t, e);
    case RequestIntent(_, _) => IntentPersists(s, e);
    case SaveIntent(_, _, _) => IntentPersists(s, e);
    case CheckIn(_, _) => CheckInPersists(s, e);
    case _ => DeliveryPersists(s, e);
  }

  lemma {:induction false} RunPersists(s: State, t: Time, trace: seq<Event>)
    requires Inv(s, t) && Run(s, t, trace)
    ensures Persists(s, Exec(s, trace))
    decreases |trace|
  {
    if trace != [] {
      var s' := Step(s, trace[0]);
      StepPersists(s, t, trace[0]);
      StepKeeps(s, t, trace[0]);
      RunPersists(s', HoldClock(s, t, trace[0]), trace[1..]);
      PersistsTransitive(s, s', Exec(s', trace[1..]));
    }
  }
}
