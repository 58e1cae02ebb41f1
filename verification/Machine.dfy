/** The whole-system step relation. Every constructor of `Op` is one transaction of the
    PostgreSQL repositories (or one statement, where the source uses no transaction);
    `Step` says what it commits and what it answers. */
module Machine {
  import opened Common
  import opened Store
  import Outbox
  import Uuid

  datatype Op =
    | PlaceHold(id: Id, user: Id, showtime: string, key: string, expiresAt: Time, seatIds: seq<string>)
    | CancelOrder(order: Id, user: Id)
    | ExpirePendingHolds(limit: nat, locked: set<Id>, batch: set<Id>)
    | RequestIntent(order: Id, user: Id)
    | SaveIntent(request: IntentRequest, provider: string, reply: Intent)
    | Webhook(event: WebhookEvent, codes: Id -> string)
    | ClaimDeliveries(limit: nat, locked: set<nat>, lease: int, deliveries: set<nat>)
    | CompleteDelivery(delivery: nat)
    | RetryDelivery(delivery: nat, availableAt: Time)
    | CheckIn(code: string, admin: Id)
    | ReplaceInventory(screening: Id, rows: map<Id, nat>)

  datatype Event = At(now: Time, op: Op)

  /** BookingRepository.CreateHold. Done carries the id of the order that answers the request;
      the request's identifiers are texts, which the statements that use them read as uuids. */
  ghost function PlaceHoldStep(s: State, op: Op, now: Time): (State, Outcome<Id>)
    requires op.PlaceHold?
  {
    if (op.user, op.key) in s.keys then
      var existing := s.keys[(op.user, op.key)];
      if existing in s.orders && SameRequest(s.orders[existing], op.showtime, op.seatIds)
      then (s, Done(existing))
      else (s, Refused(IdempotencyKeyReused))
    else if Uuid.Parse(op.showtime).None? || !AllParse(op.seatIds) then
      (s, Refused(MalformedId))
    else
      var showtime, seatIds := Uuid.Parse(op.showtime).value, Parsed(op.seatIds);
      NewHoldStep(s, op.id, NewOrder(s, op.user, showtime, op.key, op.expiresAt, seatIds), seatIds, now)
  }

  /** The rest of CreateHold for a new key, on the rows its texts denote. */
  ghost function NewHoldStep(s: State, id: Id, order: Order, seatIds: seq<Id>, now: Time): (State, Outcome<Id>) {
    var ids := LockedSeats(s.seats, order.showtime, seatIds);
    if |ids| != |seatIds| || exists x | x in ids :: !FreeForHold(s.seats[x], now) then
      (s, Refused(SeatUnavailable))
    else if IdTaken(s.orders, id) then
      (s, Refused(StorageConflict))
    else
      (s.(orders := s.orders[id := order],
          keys := s.keys[(order.user, order.key) := id],
          seats := HoldSeats(s.seats, ids, id, order.expiresAt)),
       Done(id))
  }

  /** The order that a granted request inserts, with its items at the current prices. */
  function NewOrder(s: State, user: Id, showtime: Id, key: string, expiresAt: Time, seatIds: seq<Id>): Order {
    Order(user, showtime, key, PendingPayment, expiresAt, ItemsFor(s.seats, LockedSeats(s.seats, showtime, seatIds)))
  }

  /** The request is granted a new order, rather than refused or answered with a stored one. */
  ghost predicate Grants(s: State, op: Op, now: Time)
    requires op.PlaceHold?
  {
    (op.user, op.key) !in s.keys && PlaceHoldStep(s, op, now).1.Done?
  }

  /** BookingRepository.CancelOrder. */
  function CancelStep(s: State, o: Id, user: Id, now: Time): (State, Outcome<Id>) {
    if o !in s.orders || s.orders[o].user != user then (s, Refused(OrderNotFound))
    else if s.orders[o].status != PendingPayment || s.orders[o].expiresAt <= now then
      (s, Refused(OrderNotCancellable))
    else (s.(orders := SetOrders(s.orders, {o}, Cancelled), seats := ReleaseSeats(s.seats, {o})), Done(o))
  }

  function OrderDueTimes(orders: map<Id, Order>): map<nat, int> {
    map o | o in orders :: orders[o].expiresAt
  }

  /** BookingRepository.ExpirePendingHolds on the rows its query locked. */
  function ExpireStep(s: State, batch: set<Id>): State {
    s.(orders := SetOrders(s.orders, batch, Expired), seats := ReleaseSeats(s.seats, batch))
  }

  /** PaymentsRepository.PaymentIntentRequest: a read, remembered as an issued request.
      Done(None) stands for "an intent already exists". */
  ghost function RequestIntentStep(s: State, o: Id, user: Id, now: Time): (State, Outcome<Option<IntentRequest>>) {
    if o !in s.orders || s.orders[o].user != user then (s, Refused(OrderNotFound))
    else if HasPayment(s.payments, o) then (s, Done(None))
    else if s.orders[o].status != PendingPayment then (s, Refused(OrderNotPayable))
    else if s.orders[o].expiresAt <= now then (s, Refused(OrderExpired))
    else
      var request := IntentRequest(o, OrderTotal(s.orders[o].items), now);
      (s.(issued := s.issued + {request}), Done(Some(request)))
  }

  /** Service.CreatePaymentIntent after the provider answered: the reply is validated and
      SavePaymentIntent runs with the instant read before the provider was called. */
  ghost function SaveIntentStep(s: State, request: IntentRequest, provider: string, reply: Intent)
    : (State, Outcome<PaymentKey>)
  {
    var o := request.order;
    var k := PaymentKey(reply.provider, reply.reference);
    if reply.provider != provider || reply.reference == "" || reply.status != PaymentPending then
      (s, Refused(InvalidProviderReply))
    else if o !in s.orders then (s, Refused(OrderNotFound))
    else if HasPayment(s.payments, o) then
      var existing :| existing in s.payments && s.payments[existing].order == o;
      (s, Done(existing))
    else if s.orders[o].status != PendingPayment then (s, Refused(OrderNotPayable))
    else if s.orders[o].expiresAt <= request.asOf then (s, Refused(OrderExpired))
    else if k in s.payments then (s, Refused(StorageConflict))
    else (s.(payments := s.payments[k := Payment(o, PaymentPending, reply.amount, None)]), Done(k))
  }

  /** The success branch of ProcessWebhookEvent once the payment and its order are locked.
      None means the transaction aborts because a generated ticket code collides. */
  ghost function Succeed(s: State, k: PaymentKey, event: WebhookEvent, now: Time, codes: Id -> string): Option<State>
    requires k in s.payments && s.payments[k].order in s.orders
  {
    var o := s.payments[k].order;
    var order := s.orders[o];
    if s.payments[k].status == PaymentSucceeded || order.status == Paid then Some(s)
    else if order.status != PendingPayment || order.expiresAt <= now then
      var late := if order.status == PendingPayment then {o} else {};
      Some(s.(orders := SetOrders(s.orders, late, Expired),
              seats := ReleaseSeats(s.seats, late),
              payments := SettlePayments(s.payments, o, PaymentRefundPending, Some(event.occurredAt)),
              audits := s.audits + [AuditRow(None, RefundPendingAction(o))]))
    else
      var tickets := IssueTickets(s.tickets, o, order.items, codes);
      if !UniqueCodes(tickets) then None
      else
        Some(s.(payments := SettlePayments(s.payments, o, PaymentSucceeded, Some(event.occurredAt)),
                seats := SellSeats(s.seats, o),
                orders := SetOrders(s.orders, {o}, Paid),
                tickets := tickets,
                outbox := s.outbox + [Delivery(o, DeliveryPending, 0, now)],
                audits := s.audits + [AuditRow(None, PaymentSucceededAction(o))]))
  }

  /** The failed and expired branches: only a pending payment changes. */
  function Decline(s: State, k: PaymentKey, status: PaymentStatus): State
    requires k in s.payments
  {
    if s.payments[k].status == PaymentPending
    then s.(payments := SettlePayments(s.payments, s.payments[k].order, status, None))
    else s
  }

  /** PaymentsRepository.ProcessWebhookEvent. */
  ghost function WebhookStep(s: State, event: WebhookEvent, now: Time, codes: Id -> string): (State, Outcome<()>) {
    var k := PaymentKey(event.provider, event.reference);
    var recorded := s.(webhooks := s.webhooks + {(event.provider, event.eventId)});
    if (event.provider, event.eventId) in s.webhooks then (s, Done(()))
    else if k !in s.payments || s.payments[k].order !in s.orders then (recorded, Done(()))
    else match event.status
      case WebhookSucceeded =>
        var settled := Succeed(recorded, k, event, now, codes);
        if settled.Some? then (settled.value, Done(())) else (s, Refused(StorageConflict))
      case WebhookFailed => (Decline(recorded, k, PaymentFailed), Done(()))
      case WebhookExpired => (Decline(recorded, k, PaymentExpired), Done(()))
  }

  /** TicketsRepository.CheckInTicket. */
  ghost function CheckInStep(s: State, code: string, admin: Id, now: Time): (State, Outcome<ItemKey>) {
    if !exists k :: k in s.tickets && s.tickets[k].code == code then (s, Refused(TicketNotFound))
    else
      var k :| k in s.tickets && s.tickets[k].code == code;
      match s.tickets[k].status
      case TicketUsed => (s, Refused(TicketAlreadyUsed))
      case TicketVoid => (s, Refused(TicketNotFound))
      case TicketIssued =>
        (s.(tickets := s.tickets[k := s.tickets[k].(status := TicketUsed, checkedInAt := Some(now))],
            audits := s.audits + [AuditRow(Some(admin), CheckedInAction(k))]),
         Done(k))
  }

  /** order_items.showtime_seat_id REFERENCES showtime_seats(id). */
  ghost predicate Referenced(orders: map<Id, Order>, seat: Id) {
    exists o :: o in orders && seat in orders[o].items
  }

  /** AdminRepository: the inventory statements of creating (no old rows), updating, or
      deleting (no new rows) a showtime. */
  ghost function ReplaceInventoryStep(s: State, showtime: Id, rows: map<Id, nat>): (State, Outcome<()>) {
    if exists x :: x in s.seats && s.seats[x].showtime == showtime && Referenced(s.orders, x) then
      (s, Refused(ShowtimeInUse))
    else if exists x :: x in rows && x in s.seats then (s, Refused(StorageConflict))
    else (s.(seats := ReplaceRows(s.seats, showtime, rows)), Done(()))
  }

  function Keep(s: State, outcome: Outcome<seq<Delivery>>): State {
    match outcome
    case Done(outbox) => s.(outbox := outbox)
    case Refused(_) => s
  }

  ghost function Step(s: State, e: Event): State {
    match e.op
    case PlaceHold(_, _, _, _, _, _) => PlaceHoldStep(s, e.op, e.now).0
    case CancelOrder(o, user) => CancelStep(s, o, user, e.now).0
    case ExpirePendingHolds(_, _, batch) => ExpireStep(s, batch)
    case RequestIntent(o, user) => RequestIntentStep(s, o, user, e.now).0
    case SaveIntent(request, provider, reply) => SaveIntentStep(s, request, provider, reply).0
    case Webhook(event, codes) => WebhookStep(s, event, e.now, codes).0
    case ClaimDeliveries(_, _, lease, batch) => s.(outbox := Outbox.Claim(s.outbox, batch, e.now + lease))
    case CompleteDelivery(id) => Keep(s, Outbox.Complete(s.outbox, id))
    case RetryDelivery(id, availableAt) => Keep(s, Outbox.Reschedule(s.outbox, id, availableAt))
    case CheckIn(code, admin) => CheckInStep(s, code, admin, e.now).0
    case ReplaceInventory(showtime, rows) => ReplaceInventoryStep(s, showtime, rows).0
  }

  /** What the database and the process guarantee about the arguments of one step: a batch is
      what its query selected, and only an issued request reaches SavePaymentIntent. */
  ghost predicate Enabled(s: State, e: Event) {
    match e.op
    case ExpirePendingHolds(limit, locked, batch) =>
      IsFirst(batch, DueOrders(s.orders, e.now, locked), OrderDueTimes(s.orders), limit)
    case SaveIntent(request, _, _) => request in s.issued
    case ClaimDeliveries(limit, locked, _, batch) => Outbox.ClaimBatch(s.outbox, e.now, locked, limit, batch)
    case _ => true
  }

  /** The latest clock value any hold was granted with. */
  ghost function HoldClock(s: State, t: Time, e: Event): Time {
    if e.op.PlaceHold? && Grants(s, e.op, e.now) then Max(t, e.now) else t
  }

  /** A run from `s`, where `t` is the hold clock so far. The only assumption about clocks is
      that a webhook is not processed with an instant older than one a hold was granted with. */
  ghost predicate Run(s: State, t: Time, trace: seq<Event>)
    decreases |trace|
  {
    trace == [] ||
    (var e := trace[0];
     && Enabled(s, e)
     && (e.op.Webhook? ==> t <= e.now)
     && Run(Step(s, e), HoldClock(s, t, e), trace[1..]))
  }

  ghost function Exec(s: State, trace: seq<Event>): State
    decreases |trace|
  {
    if trace == [] then s else Exec(Step(s, trace[0]), trace[1..])
  }

  ghost function LastHoldClock(s: State, t: Time, trace: seq<Event>): Time
    decreases |trace|
  {
    if trace == [] then t else LastHoldClock(Step(s, trace[0]), HoldClock(s, t, trace[0]), trace[1..])
  }
}
