/** What payments, tickets, deliveries and the audit trail owe to the order they belong to. */
module MoneySafety {
  import opened Common
  import opened Store

  /** The (user, idempotency key) index and the order table describe each other. */
  ghost predicate KeysMatch(orders: map<Id, Order>, keys: map<(Id, string), Id>) {
    && (forall k | k in keys :: keys[k] in orders && (orders[keys[k]].user, orders[keys[k]].key) == k)
    && (forall o | o in orders :: (orders[o].user, orders[o].key) in keys && keys[(orders[o].user, orders[o].key)] == o)
  }

  /** An issued request quotes the sum of the price snapshots of its order. */
  ghost predicate QuotesMatch(orders: map<Id, Order>, issued: set<IntentRequest>) {
    forall r | r in issued :: r.order in orders && r.amount == OrderTotal(orders[r.order].items)
  }

  ghost predicate OnePaymentPerOrder(payments: map<PaymentKey, Payment>) {
    forall j, k | j in payments && k in payments && payments[j].order == payments[k].order :: j == k
  }

  ghost predicate PaymentInv(orders: map<Id, Order>, payments: map<PaymentKey, Payment>) {
    && OnePaymentPerOrder(payments)
    && (forall k | k in payments :: payments[k].order in orders)
    && (forall k | k in payments :: payments[k].status == PaymentSucceeded <==> IsPaid(orders, payments[k].order))
    && (forall o | IsPaid(orders, o) :: HasPayment(payments, o))
    && (forall k | k in payments && payments[k].status == PaymentRefundPending ::
          orders[payments[k].order].status in {Expired, Cancelled})
  }

  /** Tickets are exactly the items of paid orders, each under a code of its own. */
  ghost predicate TicketInv(orders: map<Id, Order>, tickets: map<ItemKey, Ticket>) {
    && (forall k: ItemKey :: k in tickets <==> IsPaid(orders, k.order) && k.seat in orders[k.order].items)
    && UniqueCodes(tickets)
    && (forall k | k in tickets :: tickets[k].status != TicketVoid)
    && (forall k | k in tickets :: tickets[k].status == TicketUsed <==> tickets[k].checkedInAt.Some?)
  }

  function Tally(holds: bool): nat {
    if holds then 1 else 0
  }

  /** One delivery event and one success audit per paid order, none for any other id. */
  ghost predicate OnceInv(orders: map<Id, Order>, outbox: seq<Delivery>, audits: seq<AuditRow>) {
    && (forall o: Id :: Recipients(outbox)[o] == Tally(IsPaid(orders, o)))
    && (forall o: Id :: Actions(audits)[PaymentSucceededAction(o)] == Tally(IsPaid(orders, o)))
  }

  ghost predicate SeatUsed(tickets: map<ItemKey, Ticket>, x: Id) {
    exists o: Id :: ItemKey(o, x) in tickets && tickets[ItemKey(o, x)].status == TicketUsed
  }

  /** The audit trail holds one check-in for a seat that some ticket was used for, else none. */
  ghost predicate CheckInInv(tickets: map<ItemKey, Ticket>, audits: seq<AuditRow>) {
    forall x: Id :: CheckIns(audits, x) == Tally(SeatUsed(tickets, x))
  }

  // ----- placing, expiring and cancelling

  lemma KeysKeep(orders: map<Id, Order>, keys: map<(Id, string), Id>, o: Id, order: Order)
    requires KeysMatch(orders, keys) && o !in orders && (order.user, order.key) !in keys
    ensures KeysMatch(orders[o := order], keys[(order.user, order.key) := o])
  {
  }

  /** A new pending order has no payment, ticket or delivery yet. */
  lemma NewOrderKeeps(s: State, o: Id, order: Order)
    requires PaymentInv(s.orders, s.payments) && TicketInv(s.orders, s.tickets)
    requires OnceInv(s.orders, s.outbox, s.audits) && QuotesMatch(s.orders, s.issued)
    requires o !in s.orders && order.status == PendingPayment
    ensures var orders' := s.orders[o := order];
      && PaymentInv(orders', s.payments) && TicketInv(orders', s.tickets)
      && OnceInv(orders', s.outbox, s.audits) && QuotesMatch(orders', s.issued)
  {
    var orders' := s.orders[o := order];
    assert forall p: Id :: IsPaid(orders', p) <==> IsPaid(s.orders, p);
  }

  /** Pending orders that expire or are cancelled have no money side to change. */
  lemma EndOrdersKeeps(s: State, batch: set<Id>, status: OrderStatus)
    requires PaymentInv(s.orders, s.payments) && TicketInv(s.orders, s.tickets)
    requires OnceInv(s.orders, s.outbox, s.audits) && QuotesMatch(s.orders, s.issued) && KeysMatch(s.orders, s.keys)
    requires forall o | o in batch :: Pending(s.orders, o)
    requires status == Expired || status == Cancelled
    ensures var orders' := SetOrders(s.orders, batch, status);
      && PaymentInv(orders', s.payments) && TicketInv(orders', s.tickets)
      && OnceInv(orders', s.outbox, s.audits) && QuotesMatch(orders', s.issued) && KeysMatch(orders', s.keys)
  {
    var orders' := SetOrders(s.orders, batch, status);
    StatusKeepsOrders(s.orders, batch, status);
    assert PaymentInv(orders', s.payments);
    assert TicketInv(orders', s.tickets);
    assert KeysMatch(orders', s.keys);
  }

  // ----- payments

  lemma SaveKeeps(orders: map<Id, Order>, payments: map<PaymentKey, Payment>, k: PaymentKey, p: Payment)
    requires PaymentInv(orders, payments) && k !in payments
    requires p.status == PaymentPending && Pending(orders, p.order) && !HasPayment(payments, p.order)
    ensures PaymentInv(orders, payments[k := p])
  {
    var payments' := payments[k := p];
    forall o | IsPaid(orders, o) ensures HasPayment(payments', o) {
      var j :| j in payments && payments[j].order == o;
      assert j in payments' && payments'[j].order == o;
    }
  }

  lemma SettleKeepsShape(orders: map<Id, Order>, payments: map<PaymentKey, Payment>, o: Id, status: PaymentStatus,
                         paidAt: Option<Time>)
    requires PaymentInv(orders, payments)
    ensures var payments' := SettlePayments(payments, o, status, paidAt);
      && payments'.Keys == payments.Keys
      && OnePaymentPerOrder(payments')
      && (forall k | k in payments ::
            payments'[k].order == payments[k].order && payments'[k].amount == payments[k].amount
            && payments'[k].status == if payments[k].order == o then status else payments[k].status)
      && (forall p :: HasPayment(payments', p) <==> HasPayment(payments, p))
  {
    var payments' := SettlePayments(payments, o, status, paidAt);
    forall p ensures HasPayment(payments', p) <==> HasPayment(payments, p) {
      if HasPayment(payments, p) {
        var k :| k in payments && payments[k].order == p;
        assert k in payments' && payments'[k].order == p;
      }
      if HasPayment(payments', p) {
        var k :| k in payments' && payments'[k].order == p;
        assert k in payments && payments[k].order == p;
      }
    }
  }

  /** A refund, failure or expiry of a payment whose order is not paid. */
  lemma SettleKeeps(orders: map<Id, Order>, payments: map<PaymentKey, Payment>, o: Id, status: PaymentStatus,
                    paidAt: Option<Time>)
    requires PaymentInv(orders, payments) && o in orders && !IsPaid(orders, o)
    requires status != PaymentSucceeded
    requires status == PaymentRefundPending ==> orders[o].status in {Expired, Cancelled}
    ensures PaymentInv(orders, SettlePayments(payments, o, status, paidAt))
  {
    SettleKeepsShape(orders, payments, o, status, paidAt);
  }

  /** Finalisation marks the payment SUCCEEDED and the order PAID together. */
  lemma PayKeeps(orders: map<Id, Order>, payments: map<PaymentKey, Payment>, o: Id, paidAt: Option<Time>)
    requires PaymentInv(orders, payments) && Pending(orders, o) && HasPayment(payments, o)
    ensures PaymentInv(SetOrders(orders, {o}, Paid), SettlePayments(payments, o, PaymentSucceeded, paidAt))
  {
    SettleKeepsShape(orders, payments, o, PaymentSucceeded, paidAt);
    var orders' := SetOrders(orders, {o}, Paid);
    assert forall p: Id :: IsPaid(orders', p) <==> IsPaid(orders, p) || p == o;
  }

  // ----- tickets

  lemma IssueKeeps(orders: map<Id, Order>, tickets: map<ItemKey, Ticket>, audits: seq<AuditRow>, o: Id,
                   codes: Id -> string)
    requires TicketInv(orders, tickets) && Pending(orders, o) && CheckInInv(tickets, audits)
    requires UniqueCodes(IssueTickets(tickets, o, orders[o].items, codes))
    ensures var tickets' := IssueTickets(tickets, o, orders[o].items, codes);
      && TicketInv(SetOrders(orders, {o}, Paid), tickets')
      && (forall x: Id :: SeatUsed(tickets', x) <==> SeatUsed(tickets, x))
  {
    var orders' := SetOrders(orders, {o}, Paid);
    var tickets' := IssueTickets(tickets, o, orders[o].items, codes);
    assert forall p: Id :: IsPaid(orders', p) <==> IsPaid(orders, p) || p == o;
    forall k: ItemKey
      ensures k in tickets' <==> IsPaid(orders', k.order) && k.seat in orders'[k.order].items
    {
      assert k in ItemKeys(o, orders[o].items) <==> k.order == o && k.seat in orders[o].items;
    }
    forall x: Id ensures SeatUsed(tickets', x) <==> SeatUsed(tickets, x) {
      if SeatUsed(tickets, x) {
        var p: Id :| ItemKey(p, x) in tickets && tickets[ItemKey(p, x)].status == TicketUsed;
        assert ItemKey(p, x) in tickets' && tickets'[ItemKey(p, x)].status == TicketUsed;
      }
      if SeatUsed(tickets', x) {
        var p: Id :| ItemKey(p, x) in tickets' && tickets'[ItemKey(p, x)].status == TicketUsed;
        assert ItemKey(p, x) in tickets && tickets[ItemKey(p, x)].status == TicketUsed;
      }
    }
  }

  lemma UseKeepsTickets(orders: map<Id, Order>, tickets: map<ItemKey, Ticket>, k: ItemKey, now: Time)
    requires TicketInv(orders, tickets) && k in tickets
    ensures TicketInv(orders, tickets[k := tickets[k].(status := TicketUsed, checkedInAt := Some(now))])
  {
  }

  lemma UseMarksSeat(tickets: map<ItemKey, Ticket>, k: ItemKey, now: Time)
    requires k in tickets
    ensures var tickets' := tickets[k := tickets[k].(status := TicketUsed, checkedInAt := Some(now))];
      forall x: Id :: SeatUsed(tickets', x) <==> SeatUsed(tickets, x) || x == k.seat
  {
    var tickets' := tickets[k := tickets[k].(status := TicketUsed, checkedInAt := Some(now))];
    forall x: Id ensures SeatUsed(tickets', x) <==> SeatUsed(tickets, x) || x == k.seat {
      if x == k.seat {
        assert ItemKey(k.order, x) == k && tickets'[ItemKey(k.order, x)].status == TicketUsed;
      } else {
        assert forall o: Id :: ItemKey(o, x) in tickets ==> tickets'[ItemKey(o, x)] == tickets[ItemKey(o, x)];
      }
    }
  }

  /** An issued ticket's seat was never used: no other order can have bought the same seat. */
  lemma IssuedSeatUnused(orders: map<Id, Order>, tickets: map<ItemKey, Ticket>, k: ItemKey)
    requires TicketInv(orders, tickets) && k in tickets && tickets[k].status == TicketIssued
    requires forall o, p, x | IsPaid(orders, o) && IsPaid(orders, p) && x in orders[o].items && x in orders[p].items ::
      o == p
    ensures !SeatUsed(tickets, k.seat)
  {
    forall o: Id | ItemKey(o, k.seat) in tickets ensures tickets[ItemKey(o, k.seat)].status != TicketUsed {
      assert IsPaid(orders, o) && IsPaid(orders, k.order);
      assert o == k.order && ItemKey(o, k.seat) == k;
    }
  }

  lemma UseKeepsCheckIns(tickets: map<ItemKey, Ticket>, audits: seq<AuditRow>, k: ItemKey, now: Time, admin: Id)
    requires CheckInInv(tickets, audits) && k in tickets && !SeatUsed(tickets, k.seat)
    ensures CheckInInv(tickets[k := tickets[k].(status := TicketUsed, checkedInAt := Some(now))],
                       audits + [AuditRow(Some(admin), CheckedInAction(k))])
  {
    UseMarksSeat(tickets, k, now);
    hide SeatUsed;
    AppendAudit(audits, AuditRow(Some(admin), CheckedInAction(k)));
  }
}
