/** The rows of the booking, payment and ticket tables, and the row updates that the
    SQL statements perform. One `State` value is the committed content of the database. */
module Store {
  import opened Common
  import Uuid

  type Id = nat
  type Time = int

  datatype SeatStatus = SeatAvailable | SeatHeld | SeatSold

  /** A `showtime_seats` row. */
  datatype SeatRow = SeatRow(showtime: Id, price: nat, status: SeatStatus,
                             holder: Option<Id>, holdExpiry: Option<Time>)

  /** An `orders` row with its `order_items`, which are unique per seat and snapshot its price. */
  datatype Order = Order(user: Id, showtime: Id, key: string, status: OrderStatus,
                         expiresAt: Time, items: map<Id, nat>)

  datatype PaymentKey = PaymentKey(provider: string, reference: string)

  datatype Payment = Payment(order: Id, status: PaymentStatus, amount: nat, paidAt: Option<Time>)

  datatype TicketStatus = TicketIssued | TicketUsed | TicketVoid

  /** An order item is identified by its order and its seat. */
  datatype ItemKey = ItemKey(order: Id, seat: Id)

  datatype Ticket = Ticket(code: string, status: TicketStatus, checkedInAt: Option<Time>)

  datatype DeliveryStatus = DeliveryPending | DeliveryProcessing | DeliveryCompleted

  /** A TICKET_DELIVERY_REQUESTED outbox row; its id is its position in the table. */
  datatype Delivery = Delivery(order: Id, status: DeliveryStatus, attempts: nat, availableAt: Time)

  datatype Action =
    | PaymentSucceededAction(order: Id)
    | RefundPendingAction(order: Id)
    | CheckedInAction(item: ItemKey)

  datatype AuditRow = AuditRow(actor: Option<Id>, action: Action)

  /** What `PaymentIntentRequest` hands to the provider, with the instant it was read at. */
  datatype IntentRequest = IntentRequest(order: Id, amount: nat, asOf: Time)

  datatype Intent = Intent(provider: string, reference: string, status: PaymentStatus, amount: nat)

  datatype State = State(
    seats: map<Id, SeatRow>,
    orders: map<Id, Order>,
    keys: map<(Id, string), Id>,
    payments: map<PaymentKey, Payment>,
    issued: set<IntentRequest>,
    webhooks: set<(string, string)>,
    tickets: map<ItemKey, Ticket>,
    outbox: seq<Delivery>,
    audits: seq<AuditRow>)

  const EMPTY := State(map[], map[], map[], map[], {}, {}, map[], [], [])

  datatype Error =
    | SeatUnavailable | MalformedId | IdempotencyKeyReused | OrderNotFound | OrderNotCancellable
    | OrderNotPayable | OrderExpired | InvalidProviderReply | TicketNotFound
    | TicketAlreadyUsed | EventNotClaimed | ShowtimeInUse | StorageConflict

  datatype Outcome<+T> = Done(value: T) | Refused(error: Error)

  // ----- seats

  /** The rows SELECT ... FOR UPDATE returns for a requested seat list. */
  function LockedSeats(seats: map<Id, SeatRow>, showtime: Id, seatIds: seq<Id>): set<Id> {
    set x | x in seatIds && x in seats && seats[x].showtime == showtime
  }

  predicate FreeForHold(row: SeatRow, now: Time) {
    || row.status == SeatAvailable
    || (row.status == SeatHeld && row.holdExpiry.Some? && row.holdExpiry.value <= now)
  }

  /** The status the public seat map shows. */
  function ShownStatus(row: SeatRow, now: Time): SeatStatus {
    if row.status == SeatHeld && row.holdExpiry.Some? && row.holdExpiry.value <= now
    then SeatAvailable else row.status
  }

  predicate HeldBy(row: SeatRow, order: Id) {
    row.status == SeatHeld && row.holder == Some(order)
  }

  function HoldSeats(seats: map<Id, SeatRow>, ids: set<Id>, order: Id, expiresAt: Time): map<Id, SeatRow> {
    map x | x in seats ::
      if x in ids
      then seats[x].(status := SeatHeld, holder := Some(order), holdExpiry := Some(expiresAt))
      else seats[x]
  }

  function ReleaseSeats(seats: map<Id, SeatRow>, batch: set<Id>): map<Id, SeatRow> {
    map x | x in seats ::
      if seats[x].status == SeatHeld && seats[x].holder.Some? && seats[x].holder.value in batch
      then seats[x].(status := SeatAvailable, holder := None, holdExpiry := None)
      else seats[x]
  }

  function SellSeats(seats: map<Id, SeatRow>, order: Id): map<Id, SeatRow> {
    map x | x in seats ::
      if HeldBy(seats[x], order)
      then seats[x].(status := SeatSold, holder := None, holdExpiry := None)
      else seats[x]
  }

  /** Deletes a showtime's inventory and inserts fresh AVAILABLE rows at the given prices. */
  function ReplaceRows(seats: map<Id, SeatRow>, showtime: Id, rows: map<Id, nat>): map<Id, SeatRow> {
    (map x | x in seats && seats[x].showtime != showtime :: seats[x])
    + (map x | x in rows :: SeatRow(showtime, rows[x], SeatAvailable, None, None))
  }

  // ----- orders

  function SetOrders(orders: map<Id, Order>, batch: set<Id>, status: OrderStatus): map<Id, Order> {
    map o | o in orders :: if o in batch then orders[o].(status := status) else orders[o]
  }

  function ItemsFor(seats: map<Id, SeatRow>, ids: set<Id>): map<Id, nat> {
    map x | x in seats && x in ids :: seats[x].price
  }

  predicate AllParse(texts: seq<string>) {
    forall i | 0 <= i < |texts| :: Uuid.Parse(texts[i]).Some?
  }

  function Parsed(texts: seq<string>): (ids: seq<Id>)
    requires AllParse(texts)
    ensures |ids| == |texts| && forall i | 0 <= i < |texts| :: ids[i] == Uuid.Parse(texts[i]).value
  {
    seq(|texts|, i requires 0 <= i < |texts| => Uuid.Parse(texts[i]).value)
  }

  function Rendered(ids: seq<Id>): (texts: seq<string>)
    ensures |texts| == |ids| && forall i | 0 <= i < |ids| :: texts[i] == Uuid.Render(ids[i])
  {
    seq(|ids|, i requires 0 <= i < |ids| => Uuid.Render(ids[i]))
  }

  /** An order's seats as they are read back: `id::text`, in id order. */
  ghost function SeatTexts(order: Order): seq<string> {
    Rendered(Ascending(order.items.Keys))
  }

  /** The stored order answers this request: showtime and seats are compared as text, the stored
      side in the canonical form that the database writes. */
  ghost predicate SameRequest(order: Order, showtime: string, seatIds: seq<string>) {
    Uuid.Render(order.showtime) == showtime && SeatTexts(order) == seatIds
  }

  /** The first eight digits of the order's id. */
  function BookingCode(id: Id): string {
    "BKG-" + Uuid.ToUpper(Uuid.Render(id)[..8])
  }

  /** PRIMARY KEY (id) and UNIQUE (booking_code). */
  predicate IdTaken(orders: map<Id, Order>, id: Id) {
    id in orders || exists o :: o in orders && BookingCode(o) == BookingCode(id)
  }

  predicate Pending(orders: map<Id, Order>, o: Id) {
    o in orders && orders[o].status == PendingPayment
  }

  predicate IsPaid(orders: map<Id, Order>, o: Id) {
    o in orders && orders[o].status == Paid
  }

  /** Orders the expiry worker may take: pending, due, and not locked by another worker. */
  function DueOrders(orders: map<Id, Order>, now: Time, locked: set<Id>): set<Id> {
    set o | o in orders && orders[o].status == PendingPayment && orders[o].expiresAt <= now && o !in locked
  }

  lemma StatusKeepsOrders(orders: map<Id, Order>, batch: set<Id>, status: OrderStatus)
    requires forall o | o in batch :: Pending(orders, o)
    ensures var orders' := SetOrders(orders, batch, status);
      && orders'.Keys == orders.Keys
      && (forall o | o in orders :: orders'[o] == orders[o].(status := if o in batch then status else orders[o].status))
      && (forall o: Id :: IsPaid(orders', o) <==> IsPaid(orders, o) || (o in batch && status == Paid))
      && (status != PendingPayment ==> forall o: Id :: Pending(orders', o) <==> Pending(orders, o) && o !in batch)
  {
  }

  // ----- money

  ghost function SumPrices(ids: seq<Id>, items: map<Id, nat>): nat {
    if ids == [] then 0 else
      (if ids[0] in items then items[ids[0]] else 0) + SumPrices(ids[1..], items)
  }

  /** SUM(price_amount) over the items of one order. */
  ghost function OrderTotal(items: map<Id, nat>): nat {
    SumPrices(Ascending(items.Keys), items)
  }

  ghost predicate HasPayment(payments: map<PaymentKey, Payment>, o: Id) {
    exists k :: k in payments && payments[k].order == o
  }

  /** UPDATE payments SET status, paid_at WHERE order_id = o. */
  function SettlePayments(payments: map<PaymentKey, Payment>, o: Id, status: PaymentStatus,
                          paidAt: Option<Time>): map<PaymentKey, Payment> {
    map k | k in payments ::
      if payments[k].order == o
      then payments[k].(status := status, paidAt := if paidAt.Some? then paidAt else payments[k].paidAt)
      else payments[k]
  }

  // ----- tickets

  function ItemKeys(o: Id, items: map<Id, nat>): set<ItemKey> {
    set x | x in items.Keys :: ItemKey(o, x)
  }

  /** One ticket per item of the order, ON CONFLICT (order_item_id) DO NOTHING. */
  function IssueTickets(tickets: map<ItemKey, Ticket>, o: Id, items: map<Id, nat>, codes: Id -> string)
    : map<ItemKey, Ticket>
  {
    map k | k in tickets.Keys + ItemKeys(o, items) ::
      if k in tickets then tickets[k] else Ticket(codes(k.seat), TicketIssued, None)
  }

  /** UNIQUE (ticket_code). */
  ghost predicate UniqueCodes(tickets: map<ItemKey, Ticket>) {
    forall j, k | j in tickets && k in tickets && tickets[j].code == tickets[k].code :: j == k
  }

  // ----- append-only tables

  function Recipients(outbox: seq<Delivery>): multiset<Id> {
    if outbox == [] then multiset{}
    else Recipients(outbox[..|outbox| - 1]) + multiset{outbox[|outbox| - 1].order}
  }

  function Actions(audits: seq<AuditRow>): multiset<Action> {
    if audits == [] then multiset{}
    else Actions(audits[..|audits| - 1]) + multiset{audits[|audits| - 1].action}
  }

  /** How many check-ins of one seat, under any order, the audit trail holds. */
  function CheckIns(audits: seq<AuditRow>, seat: Id): nat {
    if audits == [] then 0
    else CheckIns(audits[..|audits| - 1], seat)
         + var a := audits[|audits| - 1].action; if a.CheckedInAction? && a.item.seat == seat then 1 else 0
  }

  lemma AppendAudit(audits: seq<AuditRow>, row: AuditRow)
    ensures Actions(audits + [row]) == Actions(audits) + multiset{row.action}
    ensures forall s :: CheckIns(audits + [row], s)
                      == CheckIns(audits, s)
                         + if row.action.CheckedInAction? && row.action.item.seat == s then 1 else 0
  {
    assert (audits + [row])[..|audits|] == audits;
  }

  lemma AppendDelivery(outbox: seq<Delivery>, row: Delivery)
    ensures Recipients(outbox + [row]) == Recipients(outbox) + multiset{row.order}
  {
    assert (outbox + [row])[..|outbox|] == outbox;
  }

  /** Claiming, completing and rescheduling never change whom a delivery is for. */
  lemma {:induction false} SameRecipients(a: seq<Delivery>, b: seq<Delivery>)
    requires |a| == |b| && forall i | 0 <= i < |a| :: a[i].order == b[i].order
    ensures Recipients(a) == Recipients(b)
  {
    if a != [] {
      SameRecipients(a[..|a| - 1], b[..|b| - 1]);
    }
  }
}
