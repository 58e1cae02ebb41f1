/** When a provider event takes effect: the webhook transaction is rolled back only by a ticket code
    that is already taken, and what the statuses so far say never makes it fail. */
module Acceptance {
  import opened Common
  import opened Store
  import opened Machine
  import opened MoneySafety
  import opened Safety

  /** The codes drawn for an order's items differ from one another and from every ticket's. */
  ghost predicate FreshCodes(tickets: map<ItemKey, Ticket>, items: map<Id, nat>, codes: Id -> string) {
    && (forall x, y | x in items && y in items && x != y :: codes(x) != codes(y))
    && (forall x, k | x in items && k in tickets :: tickets[k].code != codes(x))
  }

  function KeyOf(event: WebhookEvent): PaymentKey {
    PaymentKey(event.provider, event.reference)
  }

  /** The event was not handled before. */
  predicate IsNew(s: State, event: WebhookEvent) {
    (event.provider, event.eventId) !in s.webhooks
  }

  /** A new success event for a payment of the order. */
  ghost predicate Succeeds(s: State, e: Event, o: Id) {
    && e.op.Webhook? && e.op.event.status == WebhookSucceeded && IsNew(s, e.op.event)
    && KeyOf(e.op.event) in s.payments && s.payments[KeyOf(e.op.event)].order == o
  }

  /** The order can still be paid at the event's instant. */
  predicate Payable(orders: map<Id, Order>, o: Id, now: Time) {
    Pending(orders, o) && now < orders[o].expiresAt
  }

  /** The event would pay the order, but for a ticket code that is taken. */
  ghost predicate Collides(s: State, e: Event, o: Id) {
    Succeeds(s, e, o) && Payable(s.orders, o, e.now) && !FreshCodes(s.tickets, s.orders[o].items, e.op.codes)
  }

  lemma UniqueAreFresh(tickets: map<ItemKey, Ticket>, o: Id, items: map<Id, nat>, codes: Id -> string)
    requires (forall k | k in tickets :: k.order != o) && UniqueCodes(IssueTickets(tickets, o, items, codes))
    ensures FreshCodes(tickets, items, codes)
  {
    var issued := IssueTickets(tickets, o, items, codes);
    forall x | x in items ensures ItemKey(o, x) in issued && issued[ItemKey(o, x)].code == codes(x) {
      assert ItemKey(o, x) in ItemKeys(o, items);
    }
    hide IssueTickets;
    assert forall x, y | x in items && y in items && codes(x) == codes(y) ::
        issued[ItemKey(o, x)].code == issued[ItemKey(o, y)].code;
    forall x, k | x in items && k in tickets ensures tickets[k].code != codes(x) {
      assert k in issued && issued[k] == tickets[k] by { IssuedKeep(tickets, o, items, codes, k); }
    }
  }

  lemma IssuedKeep(tickets: map<ItemKey, Ticket>, o: Id, items: map<Id, nat>, codes: Id -> string, k: ItemKey)
    requires k in tickets
    ensures k in IssueTickets(tickets, o, items, codes) && IssueTickets(tickets, o, items, codes)[k] == tickets[k]
  {
  }

  lemma FreshAreUnique(tickets: map<ItemKey, Ticket>, o: Id, items: map<Id, nat>, codes: Id -> string)
    requires UniqueCodes(tickets) && FreshCodes(tickets, items, codes)
    ensures UniqueCodes(IssueTickets(tickets, o, items, codes))
  {
    var issued := IssueTickets(tickets, o, items, codes);
    assert forall k | k in issued && k !in tickets ::
      k.order == o && k.seat in items && issued[k].code == codes(k.seat);
  }

  lemma UnpaidHasNoTickets(s: State, t: Time, o: Id)
    requires Inv(s, t) && !IsPaid(s.orders, o)
    ensures UniqueCodes(s.tickets) && forall k | k in s.tickets :: k.order != o
  {
    assert TicketInv(s.orders, s.tickets);
    hide Inv;
  }

  /** For an order that can be paid, the unique index is met exactly by fresh codes. */
  lemma UniqueIffFresh(s: State, t: Time, o: Id, codes: Id -> string)
    requires Inv(s, t) && Pending(s.orders, o)
    ensures UniqueCodes(IssueTickets(s.tickets, o, s.orders[o].items, codes)) <==>
      FreshCodes(s.tickets, s.orders[o].items, codes)
  {
    hide Inv, UniqueCodes, IssueTickets, FreshCodes;
    UnpaidHasNoTickets(s, t, o);
    if UniqueCodes(IssueTickets(s.tickets, o, s.orders[o].items, codes)) {
      UniqueAreFresh(s.tickets, o, s.orders[o].items, codes);
    } else if FreshCodes(s.tickets, s.orders[o].items, codes) {
      FreshAreUnique(s.tickets, o, s.orders[o].items, codes);
    }
  }

  /** In every reachable state: an event is refused exactly when it would pay its order with a ticket
      code that is taken, and then nothing is written, so that it may be redelivered. Nothing else,
      in particular no earlier failure of the payment, stops it. */
  lemma RefusedIffCollides(s: State, t: Time, e: Event)
    requires Reachable(s, t) && e.op.Webhook?
    ensures var (s', reply) := WebhookStep(s, e.op.event, e.now, e.op.codes);
      if exists o :: Collides(s, e, o) then s' == s && reply == Refused(StorageConflict) else reply == Done(())
  {
    hide Reachable, Inv;
    ReachableIsSafe(s, t);
    AcceptedIff(s, t, e);
  }

  lemma AcceptedIff(s: State, t: Time, e: Event)
    requires Inv(s, t) && e.op.Webhook?
    ensures var (s', reply) := WebhookStep(s, e.op.event, e.now, e.op.codes);
      if exists o :: Collides(s, e, o) then s' == s && reply == Refused(StorageConflict) else reply == Done(())
  {
    var k := KeyOf(e.op.event);
    if k in s.payments {
      PaymentHasOrderIn(s, t, k);
      var o := s.payments[k].order;
      if Pending(s.orders, o) { UniqueIffFresh(s, t, o, e.op.codes); }
      assert Succeeds(s, e, o) <==> e.op.event.status == WebhookSucceeded && IsNew(s, e.op.event);
      assert (exists p :: Collides(s, e, p)) <==> Collides(s, e, o);
      hide Inv, UniqueCodes, IssueTickets, FreshCodes, SetOrders, ReleaseSeats, SellSeats, SettlePayments, Succeeds;
    }
  }

  // ----- what an event writes, once Machine's branches are read with the invariant

  ghost function Recorded(s: State, event: WebhookEvent): State {
    s.(webhooks := s.webhooks + {(event.provider, event.eventId)})
  }

  ghost function Finalised(s: State, e: Event, o: Id): State
    requires e.op.Webhook? && o in s.orders
  {
    Recorded(s, e.op.event).(
      payments := SettlePayments(s.payments, o, PaymentSucceeded, Some(e.op.event.occurredAt)),
      seats := SellSeats(s.seats, o),
      orders := SetOrders(s.orders, {o}, Paid),
      tickets := IssueTickets(s.tickets, o, s.orders[o].items, e.op.codes),
      outbox := s.outbox + [Delivery(o, DeliveryPending, 0, e.now)],
      audits := s.audits + [AuditRow(None, PaymentSucceededAction(o))])
  }

  ghost function Refunded(s: State, e: Event, o: Id): State
    requires e.op.Webhook? && o in s.orders
  {
    var late := if Pending(s.orders, o) then {o} else {};
    Recorded(s, e.op.event).(
      orders := SetOrders(s.orders, late, Expired),
      seats := ReleaseSeats(s.seats, late),
      payments := SettlePayments(s.payments, o, PaymentRefundPending, Some(e.op.event.occurredAt)),
      audits := s.audits + [AuditRow(None, RefundPendingAction(o))])
  }

  ghost function SettledBy(s: State, e: Event, o: Id): State
    requires e.op.Webhook? && o in s.orders
  {
    if IsPaid(s.orders, o) then Recorded(s, e.op.event)
    else if !Payable(s.orders, o, e.now) then Refunded(s, e, o)
    else if FreshCodes(s.tickets, s.orders[o].items, e.op.codes) then Finalised(s, e, o) else s
  }

  lemma SuccessCases(s: State, t: Time, e: Event)
    requires Inv(s, t) && e.op.Webhook? && e.op.event.status == WebhookSucceeded
    requires IsNew(s, e.op.event) && KeyOf(e.op.event) in s.payments
    ensures s.payments[KeyOf(e.op.event)].order in s.orders
    ensures Step(s, e) == SettledBy(s, e, s.payments[KeyOf(e.op.event)].order)
  {
    hide *;
    var k := KeyOf(e.op.event);
    PaymentHasOrderIn(s, t, k);
    var o := s.payments[k].order;
    CodesDecide(s, t, o, e.op.codes);
    SucceedUnfolds(s, e, k);
  }

  lemma CodesDecide(s: State, t: Time, o: Id, codes: Id -> string)
    requires Inv(s, t) && o in s.orders
    ensures Pending(s.orders, o) ==>
      (UniqueCodes(IssueTickets(s.tickets, o, s.orders[o].items, codes)) <==>
         FreshCodes(s.tickets, s.orders[o].items, codes))
  {
    hide Inv, UniqueCodes, IssueTickets, FreshCodes;
    if Pending(s.orders, o) { UniqueIffFresh(s, t, o, codes); }
  }

  lemma SucceedUnfolds(s: State, e: Event, k: PaymentKey)
    requires e.op.Webhook? && e.op.event.status == WebhookSucceeded && IsNew(s, e.op.event)
    requires k == KeyOf(e.op.event) && k in s.payments && s.payments[k].order in s.orders
    requires s.payments[k].status == PaymentSucceeded <==> IsPaid(s.orders, s.payments[k].order)
    requires var o := s.payments[k].order;
      Pending(s.orders, o) ==>
        (UniqueCodes(IssueTickets(s.tickets, o, s.orders[o].items, e.op.codes)) <==>
           FreshCodes(s.tickets, s.orders[o].items, e.op.codes))
    ensures Step(s, e) == SettledBy(s, e, s.payments[k].order)
  {
    hide UniqueCodes, IssueTickets, FreshCodes, ReleaseSeats, SellSeats, SettlePayments, SetOrders;
  }

  lemma DeclineCases(s: State, t: Time, e: Event)
    requires Inv(s, t) && e.op.Webhook? && e.op.event.status != WebhookSucceeded
    requires IsNew(s, e.op.event) && KeyOf(e.op.event) in s.payments
    ensures Step(s, e) == DeclinedBy(s, e, KeyOf(e.op.event))
  {
    hide *;
    PaymentHasOrderIn(s, t, KeyOf(e.op.event));
    DeclineUnfolds(s, e, KeyOf(e.op.event));
  }

  ghost function DeclinedBy(s: State, e: Event, k: PaymentKey): State
    requires e.op.Webhook? && k in s.payments
  {
    if s.payments[k].status != PaymentPending then Recorded(s, e.op.event)
    else
      Recorded(s, e.op.event).(payments := SettlePayments(s.payments, s.payments[k].order,
        if e.op.event.status == WebhookFailed then PaymentFailed else PaymentExpired, None))
  }

  lemma DeclineUnfolds(s: State, e: Event, k: PaymentKey)
    requires e.op.Webhook? && e.op.event.status != WebhookSucceeded && IsNew(s, e.op.event)
    requires k == KeyOf(e.op.event) && k in s.payments && s.payments[k].order in s.orders
    ensures Step(s, e) == DeclinedBy(s, e, k)
  {
    hide SettlePayments, Succeed;
  }

  lemma IdleCases(s: State, e: Event)
    requires e.op.Webhook?
    ensures !IsNew(s, e.op.event) ==> Step(s, e) == s
    ensures IsNew(s, e.op.event) && KeyOf(e.op.event) !in s.payments ==> Step(s, e) == Recorded(s, e.op.event)
  {
    hide Succeed;
  }

  lemma SettledPayment(payments: map<PaymentKey, Payment>, k: PaymentKey, o: Id, status: PaymentStatus,
                       paidAt: Option<Time>)
    requires OnePaymentPerOrder(payments) && k in payments
    ensures var payments' := SettlePayments(payments, o, status, paidAt);
      && k in payments'
      && payments'[k] == if payments[k].order != o then payments[k]
           else payments[k].(status := status, paidAt := if paidAt.Some? then paidAt else payments[k].paidAt)
  {
  }

  lemma SoleCollision(s: State, e: Event, k: PaymentKey)
    requires e.op.Webhook? && k == KeyOf(e.op.event)
    ensures k in s.payments && !Collides(s, e, s.payments[k].order) ==> forall o :: !Collides(s, e, o)
    ensures k !in s.payments ==> forall o :: !Collides(s, e, o)
  {
    hide FreshCodes, Payable;
  }

  lemma PaymentHasOrderIn(s: State, t: Time, k: PaymentKey)
    requires Inv(s, t) && k in s.payments
    ensures s.payments[k].order in s.orders && HasPayment(s.payments, s.payments[k].order)
    ensures s.payments[k].status == PaymentSucceeded <==> IsPaid(s.orders, s.payments[k].order)
    ensures OnePaymentPerOrder(s.payments)
  {
    assert PaymentInv(s.orders, s.payments);
    hide Inv, PaymentInv;
    PaymentHasOrder(s, k);
    OnePayment(s, k);
  }

  lemma OnePayment(s: State, k: PaymentKey)
    requires PaymentInv(s.orders, s.payments)
    ensures OnePaymentPerOrder(s.payments)
  {
    hide OnePaymentPerOrder;
  }
}
