/** Safety of every run of the booking, payment and ticket machine. */
module Safety {
  import opened Common
  import opened Store
  import opened Machine
  import opened SeatSafety
  import opened MoneySafety
  import Outbox
  import Uuid

  ghost predicate Inv(s: State, t: Time) {
    && SeatInv(s.seats, s.orders, t)
    && KeysMatch(s.orders, s.keys)
    && QuotesMatch(s.orders, s.issued)
    && PaymentInv(s.orders, s.payments)
    && TicketInv(s.orders, s.tickets)
    && OnceInv(s.orders, s.outbox, s.audits)
    && CheckInInv(s.tickets, s.audits)
  }

  lemma EmptyIsSafe(t: Time)
    ensures Inv(EMPTY, t)
  {
    assert forall x: Id :: !SeatUsed(EMPTY.tickets, x);
  }

  lemma ClockMayAdvance(s: State, t: Time, later: Time)
    requires Inv(s, t) && t <= later
    ensures Inv(s, later)
  {
  }

  lemma LockedItems(seats: map<Id, SeatRow>, showtime: Id, seatIds: seq<Id>)
    ensures var ids := LockedSeats(seats, showtime, seatIds);
      ItemsFor(seats, ids).Keys == ids
  {
  }

  /** What a granted hold writes. */
  lemma GrantCases(s: State, op: Op, now: Time)
    requires op.PlaceHold?
    ensures Grants(s, op, now) ==>
      && Uuid.Parse(op.showtime).Some? && AllParse(op.seatIds)
      && var showtime := Uuid.Parse(op.showtime).value;
         var ids := LockedSeats(s.seats, showtime, Parsed(op.seatIds));
         && |ids| == |op.seatIds| && (forall x | x in ids :: FreeForHold(s.seats[x], now))
         && op.id !in s.orders && (op.user, op.key) !in s.keys
         && PlaceHoldStep(s, op, now) ==
              (s.(orders := s.orders[op.id := NewOrder(s, op.user, showtime, op.key, op.expiresAt, Parsed(op.seatIds))],
                  keys := s.keys[(op.user, op.key) := op.id],
                  seats := HoldSeats(s.seats, ids, op.id, op.expiresAt)), Done(op.id))
    ensures !Grants(s, op, now) ==> PlaceHoldStep(s, op, now).0 == s
  {
    hide HoldSeats, ItemsFor, FreeForHold, LockedSeats, SameRequest, Parsed;
  }

  lemma PlaceHoldKeeps(s: State, t: Time, e: Event)
    requires Inv(s, t) && e.op.PlaceHold?
    ensures Inv(Step(s, e), HoldClock(s, t, e))
  {
    hide PlaceHoldStep, Grants, HoldSeats, ItemsFor, FreeForHold, LockedSeats, SeatInv, KeysMatch, QuotesMatch,
      PaymentInv,
      TicketInv, OnceInv, CheckInInv;
    var op, now := e.op, e.now;
    GrantCases(s, op, now);
    if Grants(s, op, now) {
      var showtime := Uuid.Parse(op.showtime).value;
      var ids := LockedSeats(s.seats, showtime, Parsed(op.seatIds));
      var order := NewOrder(s, op.user, showtime, op.key, op.expiresAt, Parsed(op.seatIds));
      ClockMayAdvance(s, t, Max(t, now));
      LockedItems(s.seats, showtime, Parsed(op.seatIds));
      LockedRows(s.seats, showtime, Parsed(op.seatIds));
      HoldKeeps(s.seats, s.orders, t, ids, op.id, order, now);
      NewOrderKeeps(s, op.id, order);
      KeysKeep(s.orders, s.keys, op.id, order);
    }
  }

  lemma LockedRows(seats: map<Id, SeatRow>, showtime: Id, seatIds: seq<Id>)
    ensures forall x | x in LockedSeats(seats, showtime, seatIds) :: x in seats && seats[x].showtime == showtime
  {
  }

  lemma EndOrders(s: State, t: Time, batch: set<Id>, status: OrderStatus)
    requires Inv(s, t) && (forall o | o in batch :: Pending(s.orders, o))
    requires status == Expired || status == Cancelled
    ensures Inv(s.(orders := SetOrders(s.orders, batch, status), seats := ReleaseSeats(s.seats, batch)), t)
  {
    ReleaseKeeps(s.seats, s.orders, t, batch, status);
    EndOrdersKeeps(s, batch, status);
  }

  lemma CancelKeeps(s: State, t: Time, e: Event)
    requires Inv(s, t) && e.op.CancelOrder?
    ensures Inv(Step(s, e), HoldClock(s, t, e))
  {
    if CancelStep(s, e.op.order, e.op.user, e.now).1.Done? {
      EndOrders(s, t, {e.op.order}, Cancelled);
    }
  }

  lemma ExpireKeeps(s: State, t: Time, e: Event)
    requires Inv(s, t) && Enabled(s, e) && e.op.ExpirePendingHolds?
    ensures Inv(Step(s, e), HoldClock(s, t, e))
  {
    EndOrders(s, t, e.op.batch, Expired);
  }

  lemma QuoteKeeps(s: State, o: Id, now: Time)
    requires QuotesMatch(s.orders, s.issued) && o in s.orders
    ensures QuotesMatch(s.orders, s.issued + {IntentRequest(o, OrderTotal(s.orders[o].items), now)})
  {
  }

  lemma RequestIntentKeeps(s: State, t: Time, e: Event)
    requires Inv(s, t) && e.op.RequestIntent?
    ensures Inv(Step(s, e), HoldClock(s, t, e))
  {
    hide SeatInv, KeysMatch, QuotesMatch, PaymentInv, TicketInv, OnceInv, CheckInInv;
    if e.op.order in s.orders { QuoteKeeps(s, e.op.order, e.now); }
  }

  lemma SaveIntentCases(s: State, e: Event)
    requires e.op.SaveIntent?
    ensures var k := PaymentKey(e.op.reply.provider, e.op.reply.reference);
      var payment := Payment(e.op.request.order, PaymentPending, e.op.reply.amount, None);
      || Step(s, e) == s
      || (&& k !in s.payments && Pending(s.orders, payment.order) && !HasPayment(s.payments, payment.order)
          && Step(s, e) == s.(payments := s.payments[k := payment]))
  {
  }

  lemma SaveIntentKeeps(s: State, t: Time, e: Event)
    requires Inv(s, t) && e.op.SaveIntent?
    ensures Inv(Step(s, e), HoldClock(s, t, e))
  {
    hide SeatInv, KeysMatch, QuotesMatch, PaymentInv, TicketInv, OnceInv, CheckInInv, Step, HasPayment, Pending;
    SaveIntentCases(s, e);
    if Step(s, e) != s {
      SaveKeeps(s.orders, s.payments, PaymentKey(e.op.reply.provider, e.op.reply.reference),
                Payment(e.op.request.order, PaymentPending, e.op.reply.amount, None));
    }
  }

  lemma RefundKeeps(s: State, t: Time, o: Id, paidAt: Option<Time>)
    requires Inv(s, t) && o in s.orders && s.orders[o].status != Paid
    ensures var late := if s.orders[o].status == PendingPayment then {o} else {};
      Inv(s.(orders := SetOrders(s.orders, late, Expired),
             seats := ReleaseSeats(s.seats, late),
             payments := SettlePayments(s.payments, o, PaymentRefundPending, paidAt),
             audits := s.audits + [AuditRow(None, RefundPendingAction(o))]), t)
  {
    var late := if s.orders[o].status == PendingPayment then {o} else {};
    var ended := s.(orders := SetOrders(s.orders, late, Expired), seats := ReleaseSeats(s.seats, late));
    EndOrders(s, t, late, Expired);
    StatusKeepsOrders(s.orders, late, Expired);
    RefundAuditKeeps(ended, o);
    SettleKeeps(ended.orders, ended.payments, o, PaymentRefundPending, paidAt);
  }

  lemma RefundAuditKeeps(s: State, o: Id)
    requires OnceInv(s.orders, s.outbox, s.audits) && CheckInInv(s.tickets, s.audits)
    ensures var audits' := s.audits + [AuditRow(None, RefundPendingAction(o))];
      OnceInv(s.orders, s.outbox, audits') && CheckInInv(s.tickets, audits')
  {
    AppendAudit(s.audits, AuditRow(None, RefundPendingAction(o)));
  }

  lemma FinaliseKeeps(s: State, t: Time, o: Id, paidAt: Option<Time>, now: Time, codes: Id -> string)
    requires Inv(s, t) && Pending(s.orders, o) && HasPayment(s.payments, o)
    requires forall x | x in s.orders[o].items :: HeldBy(s.seats[x], o)
    requires UniqueCodes(IssueTickets(s.tickets, o, s.orders[o].items, codes))
    ensures
      Inv(s.(payments := SettlePayments(s.payments, o, PaymentSucceeded, paidAt),
             seats := SellSeats(s.seats, o),
             orders := SetOrders(s.orders, {o}, Paid),
             tickets := IssueTickets(s.tickets, o, s.orders[o].items, codes),
             outbox := s.outbox + [Delivery(o, DeliveryPending, 0, now)],
             audits := s.audits + [AuditRow(None, PaymentSucceededAction(o))]), t)
  {
    var orders', tickets' := SetOrders(s.orders, {o}, Paid), IssueTickets(s.tickets, o, s.orders[o].items, codes);
    var payments' := SettlePayments(s.payments, o, PaymentSucceeded, paidAt);
    assert SeatInv(SellSeats(s.seats, o), orders', t) by { SellKeeps(s.seats, s.orders, t, o); }
    assert PaymentInv(orders', payments') by { PayKeeps(s.orders, s.payments, o, paidAt); }
    assert KeysMatch(orders', s.keys) && QuotesMatch(orders', s.issued) by { StatusKeepsOrders(s.orders, {o}, Paid); }
    hide SeatInv, KeysMatch, QuotesMatch, PaymentInv, TicketInv, OnceInv, CheckInInv, SeatUsed;
    IssueKeeps(s.orders, s.tickets, s.audits, o, codes);
    FinaliseTrailKeeps(s, o, now, tickets');
  }

  /** The delivery event and the success audit are appended for an order that had neither. */
  lemma FinaliseTrailKeeps(s: State, o: Id, now: Time, tickets': map<ItemKey, Ticket>)
    requires OnceInv(s.orders, s.outbox, s.audits) && CheckInInv(s.tickets, s.audits) && Pending(s.orders, o)
    requires forall x: Id :: SeatUsed(tickets', x) <==> SeatUsed(s.tickets, x)
    ensures var audits' := s.audits + [AuditRow(None, PaymentSucceededAction(o))];
      && OnceInv(SetOrders(s.orders, {o}, Paid), s.outbox + [Delivery(o, DeliveryPending, 0, now)], audits')
      && CheckInInv(tickets', audits')
  {
    assert !IsPaid(s.orders, o);
    hide IsPaid, SetOrders, SeatUsed, Recipients, Actions, CheckIns, Tally;
    StatusKeepsOrders(s.orders, {o}, Paid);
    DeliveryOnce(s.orders, SetOrders(s.orders, {o}, Paid), s.outbox, o, now);
    SuccessOnce(s.orders, SetOrders(s.orders, {o}, Paid), s.audits, o);
    OtherAuditKeeps(s.tickets, tickets', s.audits, AuditRow(None, PaymentSucceededAction(o)));
  }

  /** An audit row other than a check-in, beside a change of tickets that uses none. */
  lemma OtherAuditKeeps(tickets: map<ItemKey, Ticket>, tickets': map<ItemKey, Ticket>, audits: seq<AuditRow>,
                        row: AuditRow)
    requires CheckInInv(tickets, audits) && !row.action.CheckedInAction?
    requires forall x: Id :: SeatUsed(tickets', x) <==> SeatUsed(tickets, x)
    ensures CheckInInv(tickets', audits + [row])
  {
    hide SeatUsed;
    AppendAudit(audits, row);
  }

  lemma DeliveryOnce(orders: map<Id, Order>, orders': map<Id, Order>, outbox: seq<Delivery>, o: Id, now: Time)
    requires forall p: Id :: Recipients(outbox)[p] == Tally(IsPaid(orders, p))
    requires forall p: Id :: IsPaid(orders', p) <==> IsPaid(orders, p) || p == o
    requires !IsPaid(orders, o)
    ensures forall p: Id :: Recipients(outbox + [Delivery(o, DeliveryPending, 0, now)])[p] == Tally(IsPaid(orders', p))
  {
    hide IsPaid;
    AppendDelivery(outbox, Delivery(o, DeliveryPending, 0, now));
  }

  lemma SuccessOnce(orders: map<Id, Order>, orders': map<Id, Order>, audits: seq<AuditRow>, o: Id)
    requires forall p: Id :: Actions(audits)[PaymentSucceededAction(p)] == Tally(IsPaid(orders, p))
    requires forall p: Id :: IsPaid(orders', p) <==> IsPaid(orders, p) || p == o
    requires !IsPaid(orders, o)
    ensures forall p: Id ::
      Actions(audits + [AuditRow(None, PaymentSucceededAction(o))])[PaymentSucceededAction(p)] ==
        Tally(IsPaid(orders', p))
  {
    hide IsPaid;
    AppendAudit(audits, AuditRow(None, PaymentSucceededAction(o)));
  }

  lemma PaymentHasOrder(s: State, k: PaymentKey)
    requires PaymentInv(s.orders, s.payments) && k in s.payments
    ensures s.payments[k].order in s.orders && HasPayment(s.payments, s.payments[k].order)
    ensures s.payments[k].status == PaymentSucceeded <==> IsPaid(s.orders, s.payments[k].order)
  {
  }

  lemma LiveOrderHolds(s: State, t: Time, o: Id)
    requires SeatInv(s.seats, s.orders, t) && Pending(s.orders, o) && t < s.orders[o].expiresAt
    ensures forall x | x in s.orders[o].items :: x in s.seats && HeldBy(s.seats[x], o)
  {
  }

  lemma WebhookKeeps(s: State, t: Time, e: Event)
    requires Inv(s, t) && e.op.Webhook? && t <= e.now
    ensures Inv(Step(s, e), HoldClock(s, t, e))
  {
    hide SeatInv, KeysMatch, QuotesMatch, PaymentInv, TicketInv, OnceInv, CheckInInv;
    var Webhook(event, codes) := e.op;
    var now := e.now;
    var k := PaymentKey(event.provider, event.reference);
    if (event.provider, event.eventId) !in s.webhooks && k in s.payments {
      var r := s.(webhooks := s.webhooks + {(event.provider, event.eventId)});
      var o := s.payments[k].order;
      PaymentHasOrder(s, k);
      match event.status
      case WebhookSucceeded =>
        if s.payments[k].status != PaymentSucceeded && s.orders[o].status != Paid {
          if s.orders[o].status != PendingPayment || s.orders[o].expiresAt <= now {
            RefundKeeps(r, t, o, Some(event.occurredAt));
          } else if UniqueCodes(IssueTickets(s.tickets, o, s.orders[o].items, codes)) {
            LiveOrderHolds(s, t, o);
            FinaliseKeeps(r, t, o, Some(event.occurredAt), now, codes);
          }
        }
      case WebhookFailed =>
        if s.payments[k].status == PaymentPending { SettleKeeps(s.orders, s.payments, o, PaymentFailed, None); }
      case WebhookExpired =>
        if s.payments[k].status == PaymentPending { SettleKeeps(s.orders, s.payments, o, PaymentExpired, None); }
    }
  }

  lemma CheckInKeeps(s: State, t: Time, e: Event)
    requires Inv(s, t) && e.op.CheckIn?
    ensures Inv(Step(s, e), HoldClock(s, t, e))
  {
    hide SeatInv, KeysMatch, QuotesMatch, PaymentInv, TicketInv, OnceInv, CheckInInv;
    var admin, now := e.op.admin, e.now;
    var (s', reply) := CheckInStep(s, e.op.code, admin, now);
    if reply.Done? {
      UseOnce(s, t, reply.value, now, admin);
    }
  }

  lemma IssuedIsUnused(s: State, t: Time, k: ItemKey)
    requires Inv(s, t) && k in s.tickets && s.tickets[k].status == TicketIssued
    ensures !SeatUsed(s.tickets, k.seat)
  {
    hide KeysMatch, QuotesMatch, PaymentInv, OnceInv, CheckInInv;
    IssuedSeatUnused(s.orders, s.tickets, k);
  }

  lemma CheckInAuditKeeps(orders: map<Id, Order>, outbox: seq<Delivery>, audits: seq<AuditRow>, row: AuditRow)
    requires OnceInv(orders, outbox, audits) && row.action.CheckedInAction?
    ensures OnceInv(orders, outbox, audits + [row])
  {
    AppendAudit(audits, row);
  }

  lemma UseOnce(s: State, t: Time, k: ItemKey, now: Time, admin: Id)
    requires Inv(s, t) && k in s.tickets && s.tickets[k].status == TicketIssued
    ensures Inv(s.(tickets := s.tickets[k := s.tickets[k].(status := TicketUsed, checkedInAt := Some(now))],
                   audits := s.audits + [AuditRow(Some(admin), CheckedInAction(k))]), t)
  {
    hide SeatInv, KeysMatch, QuotesMatch, PaymentInv, TicketInv, OnceInv, CheckInInv, SeatUsed;
    IssuedIsUnused(s, t, k);
    UseKeepsTickets(s.orders, s.tickets, k, now);
    UseKeepsCheckIns(s.tickets, s.audits, k, now, admin);
    CheckInAuditKeeps(s.orders, s.outbox, s.audits, AuditRow(Some(admin), CheckedInAction(k)));
  }

  lemma ReplacedIsUnreferenced(s: State, showtime: Id, rows: map<Id, nat>)
    requires ReplaceInventoryStep(s, showtime, rows).1.Done? && ItemsExist(s.seats, s.orders)
    ensures forall o, x | o in s.orders && x in s.orders[o].items :: s.seats[x].showtime != showtime
    ensures forall x | x in rows :: x !in s.seats
  {
    hide ReplaceRows;
    forall o, x | o in s.orders && x in s.orders[o].items ensures s.seats[x].showtime != showtime {
      assert Referenced(s.orders, x);
    }
  }

  lemma SeatsAreListed(s: State, t: Time)
    requires Inv(s, t)
    ensures SeatInv(s.seats, s.orders, t) && ItemsExist(s.seats, s.orders)
  {
    hide KeysMatch, QuotesMatch, PaymentInv, TicketInv, OnceInv, CheckInInv;
  }

  lemma ReplaceInventoryKeeps(s: State, t: Time, e: Event)
    requires Inv(s, t) && e.op.ReplaceInventory?
    ensures Inv(Step(s, e), HoldClock(s, t, e))
  {
    hide SeatInv, ReplaceRows, KeysMatch, QuotesMatch, PaymentInv, TicketInv, OnceInv, CheckInInv, ItemsExist;
    var ReplaceInventory(showtime, rows) := e.op;
    SeatsAreListed(s, t);
    if ReplaceInventoryStep(s, showtime, rows).1.Done? {
      ReplacedIsUnreferenced(s, showtime, rows);
      ReplaceKeeps(s.seats, s.orders, t, showtime, rows);
    }
  }

  /** Claiming, completing and rescheduling deliveries touch only the outbox. */
  lemma OutboxKeeps(s: State, t: Time, outbox: seq<Delivery>)
    requires Inv(s, t)
    requires |outbox| == |s.outbox| && forall i | 0 <= i < |outbox| :: outbox[i].order == s.outbox[i].order
    ensures Inv(s.(outbox := outbox), t)
  {
    hide SeatInv, KeysMatch, QuotesMatch, PaymentInv, TicketInv, CheckInInv;
    SameRecipients(s.outbox, outbox);
  }

  lemma DeliveryKeeps(s: State, t: Time, e: Event)
    requires Inv(s, t) && (e.op.ClaimDeliveries? || e.op.CompleteDelivery? || e.op.RetryDelivery?)
    ensures Inv(Step(s, e), HoldClock(s, t, e))
  {
    hide SeatInv, KeysMatch, QuotesMatch, PaymentInv, TicketInv, OnceInv, CheckInInv;
    OutboxKeeps(s, t, Step(s, e).outbox);
  }

  /** Every step keeps the whole invariant. */
  lemma StepKeeps(s: State, t: Time, e: Event)
    requires Inv(s, t) && Enabled(s, e)
    requires e.op.Webhook? ==> t <= e.now
    ensures Inv(Step(s, e), HoldClock(s, t, e))
  {
    hide *;
    match e.op
    case PlaceHold(_, _, _, _, _, _) => PlaceHoldKeeps(s, t, e);
    case CancelOrder(_, _) => CancelKeeps(s, t, e);
    case ExpirePendingHolds(_, _, _) => ExpireKeeps(s, t, e);
    case RequestIntent(_, _) => RequestIntentKeeps(s, t, e);
    case SaveIntent(_, _, _) => SaveIntentKeeps(s, t, e);
    case Webhook(_, _) => WebhookKeeps(s, t, e);
    case CheckIn(_, _) => CheckInKeeps(s, t, e);
    case ReplaceInventory(_, _) => ReplaceInventoryKeeps(s, t, e);
    case _ => DeliveryKeeps(s, t, e);
  }

  /** The invariant holds at the end of every run. */
  lemma {:induction false} RunKeeps(s: State, t: Time, trace: seq<Event>)
    requires Inv(s, t) && Run(s, t, trace)
    ensures Inv(Exec(s, trace), LastHoldClock(s, t, trace))
    decreases |trace|
  {
    if trace != [] {
      StepKeeps(s, t, trace[0]);
      RunKeeps(Step(s, trace[0]), HoldClock(s, t, trace[0]), trace[1..]);
    }
  }

  /** A state some run of the system reaches from the empty database; `t` is its hold clock. */
  ghost predicate Reachable(s: State, t: Time) {
    exists t0, trace :: Run(EMPTY, t0, trace) && s == Exec(EMPTY, trace) && t == LastHoldClock(EMPTY, t0, trace)
  }

  lemma ReachableIsSafe(s: State, t: Time)
    requires Reachable(s, t)
    ensures Inv(s, t)
  {
    var t0, trace :| Run(EMPTY, t0, trace) && s == Exec(EMPTY, trace) && t == LastHoldClock(EMPTY, t0, trace);
    EmptyIsSafe(t0);
    RunKeeps(EMPTY, t0, trace);
  }
}
