/** Why a row changes. Table by table, and for every step of the system at once: what makes an order,
    a seat, a payment, a ticket, a delivery or the audit trail different afterwards, and to what. */
module Transitions {
  import opened Acceptance
  import opened Common
  import opened Store
  import opened Machine
  import opened SeatSafety
  import opened MoneySafety
  import opened Safety
  import AnyClock
  import Outbox
  import Theorems

  // ----- orders

  /** A new success event comes in time, and its ticket codes are free. */
  ghost predicate Pays(s: State, e: Event, o: Id) {
    Succeeds(s, e, o) && Payable(s.orders, o, e.now) && FreshCodes(s.tickets, s.orders[o].items, e.op.codes)
  }

  /** Its own user cancels it in time. */
  predicate Cancels(s: State, e: Event, o: Id) {
    e.op.CancelOrder? && e.op.order == o && Payable(s.orders, o, e.now) && s.orders[o].user == e.op.user
  }

  predicate Overdue(orders: map<Id, Order>, o: Id, now: Time) {
    Pending(orders, o) && orders[o].expiresAt <= now
  }

  /** The overdue orders, not locked by another worker, that come before `o` by expiry and then id. */
  function OverdueBefore(orders: map<Id, Order>, o: Id, now: Time, locked: set<Id>): set<Id>
    requires o in orders
  {
    set p | p in orders && Overdue(orders, p, now) && p !in locked
            && (orders[p].expiresAt < orders[o].expiresAt || (orders[p].expiresAt == orders[o].expiresAt && p < o))
  }

  /** It is overdue, and either an expiry round gets to it or money for it arrives. */
  ghost predicate Lapses(s: State, e: Event, o: Id) {
    && Overdue(s.orders, o, e.now)
    && (|| Succeeds(s, e, o)
        || (e.op.ExpirePendingHolds? && o !in e.op.locked
            && |OverdueBefore(s.orders, o, e.now, e.op.locked)| < e.op.limit))
  }

  ghost function StatusAfter(s: State, e: Event, o: Id): OrderStatus
    requires o in s.orders
  {
    if Pays(s, e, o) then Paid
    else if Cancels(s, e, o) then Cancelled
    else if Lapses(s, e, o) then Expired
    else s.orders[o].status
  }

  lemma CancelledOrders(s: State, e: Event, o: Id)
    requires e.op.CancelOrder? && o in s.orders
    ensures o in Step(s, e).orders
      && Step(s, e).orders[o] == s.orders[o].(status := if Cancels(s, e, o) then Cancelled else s.orders[o].status)
  {
    hide ReleaseSeats;
  }

  lemma ExpiredOrders(s: State, e: Event, o: Id)
    requires Enabled(s, e) && e.op.ExpirePendingHolds? && o in s.orders
    ensures o in Step(s, e).orders
      && Step(s, e).orders[o] == s.orders[o].(status := if Lapses(s, e, o) then Expired else s.orders[o].status)
  {
    hide ReleaseSeats;
    var pool, due := DueOrders(s.orders, e.now, e.op.locked), OrderDueTimes(s.orders);
    if o in pool {
      RankDecides(e.op.batch, pool, due, e.op.limit, o);
      assert OverdueBefore(s.orders, o, e.now, e.op.locked) == set p | p in pool && Sooner(due, p, o);
    }
  }

  lemma WebhookOrders(s: State, t: Time, e: Event, o: Id)
    requires Inv(s, t) && e.op.Webhook? && o in s.orders
    ensures o in Step(s, e).orders && Step(s, e).orders[o] == s.orders[o].(status := StatusAfter(s, e, o))
  {
    hide Inv, Step, FreshCodes, IssueTickets, ReleaseSeats, SellSeats, SettlePayments;
    IdleCases(s, e);
    if IsNew(s, e.op.event) && KeyOf(e.op.event) in s.payments {
      if e.op.event.status == WebhookSucceeded { SuccessCases(s, t, e); } else { DeclineCases(s, t, e); }
    }
  }

  lemma OpenedOrders(s: State, e: Event, o: Id)
    requires e.op.PlaceHold? && o in s.orders
    ensures o in Step(s, e).orders && Step(s, e).orders[o] == s.orders[o]
  {
    hide Grants, PlaceHoldStep, HoldSeats, NewOrder;
    GrantCases(s, e.op, e.now);
  }

  lemma NoOtherStatus(s: State, e: Event, o: Id)
    requires o in s.orders && !e.op.Webhook? && !e.op.CancelOrder? && !e.op.ExpirePendingHolds?
    ensures StatusAfter(s, e, o) == s.orders[o].status
  {
  }

  /** In every reachable state an order becomes PAID exactly by a new success event that comes in time
      with free ticket codes, CANCELLED exactly by its own user in time, EXPIRED exactly when it is
      overdue and an expiry round gets to it or its money comes late; nothing else changes it. */
  lemma OrderTransitions(s: State, t: Time, e: Event, o: Id)
    requires Reachable(s, t) && Enabled(s, e) && o in s.orders
    ensures o in Step(s, e).orders && Step(s, e).orders[o] == s.orders[o].(status := StatusAfter(s, e, o))
  {
    hide *;
    ReachableIsSafe(s, t);
    OrdersFollow(s, t, e, o);
  }

  lemma OrdersFollow(s: State, t: Time, e: Event, o: Id)
    requires Inv(s, t) && Enabled(s, e) && o in s.orders
    ensures o in Step(s, e).orders && Step(s, e).orders[o] == s.orders[o].(status := StatusAfter(s, e, o))
  {
    if e.op.Webhook? {
      hide *;
      WebhookOrders(s, t, e, o);
    } else if e.op.CancelOrder? {
      hide Step;
      CancelledOrders(s, e, o);
    } else if e.op.ExpirePendingHolds? {
      hide Step, OverdueBefore;
      ExpiredOrders(s, e, o);
    } else {
      hide *;
      NoOtherStatus(s, e, o);
      if e.op.PlaceHold? { OpenedOrders(s, e, o); } else { Theorems.OtherTablesOnly(s, e); }
    }
  }

  // ----- seats

  /** What becomes of a row when the orders have become `orders`: a held one follows its order. */
  function RowAfter(row: SeatRow, orders: map<Id, Order>): SeatRow {
    if row.status != SeatHeld || row.holder.None? || row.holder.value !in orders then row
    else match orders[row.holder.value].status
      case PendingPayment => row
      case Paid => SeatRow(row.showtime, row.price, SeatSold, None, None)
      case Expired => SeatRow(row.showtime, row.price, SeatAvailable, None, None)
      case Cancelled => SeatRow(row.showtime, row.price, SeatAvailable, None, None)
  }

  lemma RowsFollow(seats: map<Id, SeatRow>, orders: map<Id, Order>, eff: AnyClock.Effect,
                   seats': map<Id, SeatRow>, orders': map<Id, Order>, x: Id)
    requires HoldsBacked(seats, orders) && AnyClock.Writes(seats, orders, eff, seats', orders') && x in seats
    requires !eff.Held? && !eff.Replaced?
    ensures x in seats' && seats'[x] == RowAfter(seats[x], orders')
  {
    if seats[x].status == SeatHeld { assert Pending(orders, seats[x].holder.value); }
  }

  /** In every reachable state, in every step but the placing of a hold and the replacing of an
      inventory: a seat held for an order is sold when the order becomes PAID and freed when it is
      cancelled or expires; no other seat changes. */
  lemma SeatTransitions(s: State, t: Time, e: Event, x: Id)
    requires Reachable(s, t) && Enabled(s, e) && !e.op.PlaceHold? && !e.op.ReplaceInventory? && x in s.seats
    ensures x in Step(s, e).seats && Step(s, e).seats[x] == RowAfter(s.seats[x], Step(s, e).orders)
  {
    ReachableIsSafe(s, t);
    assert SeatInv(s.seats, s.orders, t);
    assert ItemsExist(s.seats, s.orders) && HoldsBacked(s.seats, s.orders);
    hide *;
    var eff := OtherStepWrites(s, e);
    RowsFollow(s.seats, s.orders, eff, Step(s, e).seats, Step(s, e).orders, x);
  }

  lemma OtherStepWrites(s: State, e: Event) returns (eff: AnyClock.Effect)
    requires Enabled(s, e) && !e.op.PlaceHold? && !e.op.ReplaceInventory?
    ensures AnyClock.Writes(s.seats, s.orders, eff, Step(s, e).seats, Step(s, e).orders)
    ensures !eff.Held? && !eff.Replaced?
  {
    hide *;
    if e.op.CancelOrder? || e.op.ExpirePendingHolds? {
      eff := AnyClock.EndingWrites(s, e);
    } else if e.op.Webhook? {
      eff := AnyClock.WebhookWrites(s, e);
    } else {
      AnyClock.OtherWrites(s, e);
      AnyClock.NothingWrites(s);
      eff := AnyClock.Nothing;
    }
  }

  /** A replacement succeeds exactly when no order, whatever became of it, lists a seat of the
      showtime and no new row takes an identifier in use; then the showtime has exactly the new rows,
      all available. Otherwise nothing changes. */
  lemma InventoryReplacedIff(s: State, e: Event)
    requires e.op.ReplaceInventory?
    ensures var rows, screening := e.op.rows, e.op.screening;
      if (exists o, x :: o in s.orders && x in s.orders[o].items && x in s.seats && s.seats[x].showtime == screening)
         || (exists x :: x in rows && x in s.seats)
      then Step(s, e) == s && ReplaceInventoryStep(s, screening, rows).1.Refused?
      else
        && ReplaceInventoryStep(s, screening, rows).1 == Done(()) && Step(s, e) == s.(seats := Step(s, e).seats)
        && forall x: Id :: (x in Step(s, e).seats <==> x in rows || (x in s.seats && s.seats[x].showtime != screening))
             && (x in rows ==> Step(s, e).seats[x] == SeatRow(screening, rows[x], SeatAvailable, None, None))
             && (x in s.seats && s.seats[x].showtime != screening ==> Step(s, e).seats[x] == s.seats[x])
  {
    var screening := e.op.screening;
    if exists o, x :: o in s.orders && x in s.orders[o].items && x in s.seats && s.seats[x].showtime == screening {
      var o, x :| o in s.orders && x in s.orders[o].items && x in s.seats && s.seats[x].showtime == screening;
      assert Referenced(s.orders, x);
    }
  }

  // ----- payments

  /** A new event for the payment that is not rolled back. */
  ghost predicate Reports(s: State, e: Event, k: PaymentKey) {
    && e.op.Webhook? && KeyOf(e.op.event) == k && IsNew(s, e.op.event) && k in s.payments
    && !Collides(s, e, s.payments[k].order)
  }

  /** The first failure or expiry of a pending payment is kept; a success settles any payment that has
      not succeeded, and dates it, for its order or for a refund. */
  ghost function PaymentAfter(s: State, e: Event, k: PaymentKey): Payment
    requires k in s.payments
  {
    var p := s.payments[k];
    if !Reports(s, e, k) then p
    else match e.op.event.status
      case WebhookFailed => if p.status == PaymentPending then p.(status := PaymentFailed) else p
      case WebhookExpired => if p.status == PaymentPending then p.(status := PaymentExpired) else p
      case WebhookSucceeded =>
        if p.status == PaymentSucceeded then p
        else if Payable(s.orders, p.order, e.now) then
          p.(status := PaymentSucceeded, paidAt := Some(e.op.event.occurredAt))
        else p.(status := PaymentRefundPending, paidAt := Some(e.op.event.occurredAt))
  }

  lemma WebhookPayments(s: State, t: Time, e: Event, k: PaymentKey)
    requires Inv(s, t) && e.op.Webhook? && k in s.payments
    ensures k in Step(s, e).payments && Step(s, e).payments[k] == PaymentAfter(s, e, k)
  {
    hide Inv, Step, FreshCodes, IssueTickets, ReleaseSeats, SellSeats, SetOrders, SettlePayments, OnePaymentPerOrder;
    var j := KeyOf(e.op.event);
    IdleCases(s, e);
    PaymentHasOrderIn(s, t, k);
    if IsNew(s, e.op.event) && j in s.payments {
      PaymentHasOrderIn(s, t, j);
      var o, at := s.payments[j].order, Some(e.op.event.occurredAt);
      DistinctOrders(s.payments, j, k);
      SettledPayment(s.payments, k, o, PaymentSucceeded, at);
      SettledPayment(s.payments, k, o, PaymentRefundPending, at);
      SettledPayment(s.payments, k, o, PaymentFailed, None);
      SettledPayment(s.payments, k, o, PaymentExpired, None);
      if e.op.event.status == WebhookSucceeded { SuccessCases(s, t, e); } else { DeclineCases(s, t, e); }
    }
  }

  lemma DistinctOrders(payments: map<PaymentKey, Payment>, j: PaymentKey, k: PaymentKey)
    requires OnePaymentPerOrder(payments) && j in payments && k in payments
    ensures payments[j].order == payments[k].order <==> j == k
  {
  }

  /** In every reachable state, whatever the step: a stored payment changes only by a new event for
      it, as `PaymentAfter` says. */
  lemma PaymentTransitions(s: State, t: Time, e: Event, k: PaymentKey)
    requires Reachable(s, t) && k in s.payments
    ensures k in Step(s, e).payments && Step(s, e).payments[k] == PaymentAfter(s, e, k)
  {
    ReachableIsSafe(s, t);
    if e.op.Webhook? {
      hide *;
      WebhookPayments(s, t, e, k);
    } else {
      hide Reachable, Inv, Step, HasPayment;
      if e.op.SaveIntent? { SaveIntentCases(s, e); } else { Theorems.OthersLeavePayments(s, e); }
    }
  }

  // ----- tickets

  /** A new ticket is issued under the code drawn for its seat; an issued one is used, at the instant of
      the scan, when its code is scanned. */
  ghost function TicketAfter(s: State, e: Event, k: ItemKey): Ticket
    requires k !in s.tickets ==> e.op.Webhook?
  {
    if k !in s.tickets then Ticket(e.op.codes(k.seat), TicketIssued, None)
    else if e.op.CheckIn? && e.op.code == s.tickets[k].code && s.tickets[k].status == TicketIssued
    then s.tickets[k].(status := TicketUsed, checkedInAt := Some(e.now))
    else s.tickets[k]
  }

  lemma WebhookTickets(s: State, t: Time, e: Event, k: ItemKey)
    requires Inv(s, t) && e.op.Webhook?
    ensures k in Step(s, e).tickets <==> k in s.tickets || (Pays(s, e, k.order) && k.seat in s.orders[k.order].items)
    ensures k in Step(s, e).tickets ==> Step(s, e).tickets[k] == TicketAfter(s, e, k)
  {
    hide Inv, Step, FreshCodes, ReleaseSeats, SellSeats, SetOrders, SettlePayments;
    IdleCases(s, e);
    if IsNew(s, e.op.event) && KeyOf(e.op.event) in s.payments {
      if e.op.event.status == WebhookSucceeded { SuccessCases(s, t, e); } else { DeclineCases(s, t, e); }
    }
  }

  lemma CheckInTickets(s: State, t: Time, e: Event, k: ItemKey)
    requires Inv(s, t) && e.op.CheckIn? && k in s.tickets
    ensures Step(s, e).tickets.Keys == s.tickets.Keys && Step(s, e).tickets[k] == TicketAfter(s, e, k)
  {
    TicketCodesUnique(s, t);
    hide *;
    if exists j :: j in s.tickets && s.tickets[j].code == e.op.code {
      var j :| j in s.tickets && s.tickets[j].code == e.op.code;
      SoleBearer(s.tickets, j);
      ScannedTickets(s, e, j, k);
    } else {
      NothingScanned(s, e);
      UnscannedTicket(s, e, k);
    }
  }

  lemma TicketCodesUnique(s: State, t: Time)
    requires Inv(s, t)
    ensures UniqueCodes(s.tickets)
  {
    assert TicketInv(s.orders, s.tickets);
    hide Inv;
  }

  lemma ScannedTickets(s: State, e: Event, j: ItemKey, k: ItemKey)
    requires e.op.CheckIn? && j in s.tickets && k in s.tickets && s.tickets[j].code == e.op.code
    requires forall i | i in s.tickets && s.tickets[i].code == s.tickets[j].code :: i == j
    ensures Step(s, e).tickets.Keys == s.tickets.Keys && Step(s, e).tickets[k] == TicketAfter(s, e, k)
  {
    hide CheckInStep;
    ScanOf(s, e.op.code, e.op.admin, e.now, j);
  }

  lemma NothingScanned(s: State, e: Event)
    requires e.op.CheckIn? && !exists j :: j in s.tickets && s.tickets[j].code == e.op.code
    ensures Step(s, e) == s && CheckInStep(s, e.op.code, e.op.admin, e.now).1 == Refused(TicketNotFound)
  {
  }

  lemma UnscannedTicket(s: State, e: Event, k: ItemKey)
    requires e.op.CheckIn? && k in s.tickets && !exists j :: j in s.tickets && s.tickets[j].code == e.op.code
    ensures TicketAfter(s, e, k) == s.tickets[k]
  {
  }

  lemma SoleBearer(tickets: map<ItemKey, Ticket>, j: ItemKey)
    requires UniqueCodes(tickets) && j in tickets
    ensures forall i | i in tickets && tickets[i].code == tickets[j].code :: i == j
  {
  }

  /** Scanning the code of a ticket is scanning that ticket. */
  lemma ScanOf(s: State, code: string, admin: Id, now: Time, j: ItemKey)
    requires j in s.tickets && s.tickets[j].code == code
    requires forall i | i in s.tickets && s.tickets[i].code == code :: i == j
    ensures CheckInStep(s, code, admin, now) ==
      match s.tickets[j].status
      case TicketUsed => (s, Refused(TicketAlreadyUsed))
      case TicketVoid => (s, Refused(TicketNotFound))
      case TicketIssued =>
        (s.(tickets := s.tickets[j := s.tickets[j].(status := TicketUsed, checkedInAt := Some(now))],
            audits := s.audits + [AuditRow(Some(admin), CheckedInAction(j))]),
         Done(j))
  {
  }

  lemma OtherTickets(s: State, e: Event)
    requires !e.op.Webhook? && !e.op.CheckIn?
    ensures Step(s, e).tickets == s.tickets
  {
    hide Grants, HoldSeats, NewOrder, HasPayment, OrderTotal, SetOrders, ReleaseSeats, ReplaceRows, Referenced,
      PlaceHoldStep;
    if e.op.PlaceHold? { GrantCases(s, e.op, e.now); }
  }

  /** In every reachable state, whatever the step: an item gets its ticket exactly when its order becomes
      PAID, and a ticket changes only by the scan of its code. */
  lemma TicketTransitions(s: State, t: Time, e: Event, k: ItemKey)
    requires Reachable(s, t)
    ensures k in Step(s, e).tickets <==> k in s.tickets || (Pays(s, e, k.order) && k.seat in s.orders[k.order].items)
    ensures k in Step(s, e).tickets ==> Step(s, e).tickets[k] == TicketAfter(s, e, k)
  {
    ReachableIsSafe(s, t);
    hide Reachable, Inv, Step, FreshCodes, Payable;
    if e.op.Webhook? { WebhookTickets(s, t, e, k); }
    else if !e.op.CheckIn? { OtherTickets(s, e); }
    else if k in s.tickets { CheckInTickets(s, t, e, k); }
    else { ScansAddNone(s, e); }
  }

  lemma ScansAddNone(s: State, e: Event)
    requires e.op.CheckIn?
    ensures Step(s, e).tickets.Keys == s.tickets.Keys
  {
  }

  // ----- deliveries and the audit trail

  /** The claimable events, not locked by another worker, that come before event `i`. */
  function ClaimableBefore(outbox: seq<Delivery>, i: nat, now: Time, locked: set<nat>): set<nat>
    requires i < |outbox|
  {
    set j | 0 <= j < |outbox| && outbox[j].status != DeliveryCompleted && outbox[j].availableAt <= now
            && j !in locked
            && (outbox[j].availableAt < outbox[i].availableAt
                || (outbox[j].availableAt == outbox[i].availableAt && j < i))
  }

  /** A claim takes the first claimable events for the length of its lease; only a claimed event is
      completed or put off. */
  function DeliveryAfter(s: State, e: Event, i: nat): Delivery
    requires i < |s.outbox|
  {
    var d := s.outbox[i];
    match e.op
    case ClaimDeliveries(limit, locked, lease, _) =>
      if d.status != DeliveryCompleted && d.availableAt <= e.now && i !in locked
         && |ClaimableBefore(s.outbox, i, e.now, locked)| < limit
      then Delivery(d.order, DeliveryProcessing, d.attempts + 1, e.now + lease) else d
    case CompleteDelivery(id) =>
      if id == i && d.status == DeliveryProcessing then d.(status := DeliveryCompleted) else d
    case RetryDelivery(id, availableAt) =>
      if id == i && d.status == DeliveryProcessing
      then d.(status := DeliveryPending, availableAt := availableAt) else d
    case _ => d
  }

  lemma ClaimsFollow(s: State, e: Event, i: nat)
    requires e.op.ClaimDeliveries? && Enabled(s, e) && i < |s.outbox|
    ensures |Step(s, e).outbox| == |s.outbox| && Step(s, e).outbox[i] == DeliveryAfter(s, e, i)
  {
    var due, times := Outbox.DueDeliveries(s.outbox, e.now, e.op.locked), Outbox.DueTimes(s.outbox);
    if i in due {
      RankDecides(e.op.deliveries, due, times, e.op.limit, i);
      assert ClaimableBefore(s.outbox, i, e.now, e.op.locked) == set j | j in due && Sooner(times, j, i);
    }
  }

  lemma WebhookDeliveries(s: State, t: Time, e: Event, o: Id)
    requires Inv(s, t) && e.op.Webhook?
    ensures Pays(s, e, o) ==> Step(s, e).outbox == s.outbox + [Delivery(o, DeliveryPending, 0, e.now)]
    ensures (forall p :: !Pays(s, e, p)) ==> Step(s, e).outbox == s.outbox
  {
    hide Inv, Step, FreshCodes, IssueTickets, ReleaseSeats, SellSeats, SetOrders, SettlePayments;
    IdleCases(s, e);
    if IsNew(s, e.op.event) && KeyOf(e.op.event) in s.payments {
      if e.op.event.status == WebhookSucceeded {
        SuccessCases(s, t, e);
        var p := s.payments[KeyOf(e.op.event)].order;
        assert !Pays(s, e, p) ==> SettledBy(s, e, p).outbox == s.outbox;
      } else {
        DeclineCases(s, t, e);
      }
    }
  }

  lemma OtherDeliveries(s: State, e: Event)
    requires !e.op.Webhook? && !e.op.ClaimDeliveries? && !e.op.CompleteDelivery? && !e.op.RetryDelivery?
    ensures Step(s, e).outbox == s.outbox
  {
    hide Grants, HoldSeats, NewOrder, HasPayment, OrderTotal, SetOrders, ReleaseSeats, ReplaceRows, Referenced,
      PlaceHoldStep;
    if e.op.PlaceHold? { GrantCases(s, e.op, e.now); }
  }

  /** In every reachable state: the outbox grows by one pending event, claimable at once, exactly when
      an order becomes PAID; its rows change by claims, completions and retries only. */
  lemma DeliveryTransitions(s: State, t: Time, e: Event, o: Id, i: nat)
    requires Reachable(s, t) && Enabled(s, e)
    ensures Pays(s, e, o) ==> Step(s, e).outbox == s.outbox + [Delivery(o, DeliveryPending, 0, e.now)]
    ensures (forall p :: !Pays(s, e, p)) ==> |Step(s, e).outbox| == |s.outbox|
    ensures (forall p :: !Pays(s, e, p)) && i < |s.outbox| ==> Step(s, e).outbox[i] == DeliveryAfter(s, e, i)
  {
    ReachableIsSafe(s, t);
    hide Reachable, Inv, Step, Pays, ClaimableBefore;
    if e.op.Webhook? {
      WebhookDeliveries(s, t, e, o);
    } else {
      OthersPayNothing(s, e);
      if e.op.ClaimDeliveries? {
        ClaimsKeepLength(s, e);
        if i < |s.outbox| { ClaimsFollow(s, e, i); }
      } else if e.op.CompleteDelivery? || e.op.RetryDelivery? {
        ClosuresFollow(s, e, i);
      } else {
        OtherDeliveries(s, e);
      }
    }
  }

  lemma OthersPayNothing(s: State, e: Event)
    requires !e.op.Webhook?
    ensures forall o :: !Pays(s, e, o)
  {
  }

  lemma ClosuresFollow(s: State, e: Event, i: nat)
    requires e.op.CompleteDelivery? || e.op.RetryDelivery?
    ensures |Step(s, e).outbox| == |s.outbox|
    ensures i < |s.outbox| ==> Step(s, e).outbox[i] == DeliveryAfter(s, e, i)
  {
  }

  lemma ClaimsKeepLength(s: State, e: Event)
    requires e.op.ClaimDeliveries?
    ensures |Step(s, e).outbox| == |s.outbox|
  {
  }

  /** What a step adds to the audit trail, where `o` and `k` are the order and ticket it is about. */
  ghost function AuditsOf(s: State, e: Event, o: Id, k: ItemKey): seq<AuditRow> {
    if Pays(s, e, o) then [AuditRow(None, PaymentSucceededAction(o))]
    else if Succeeds(s, e, o) && o in s.orders && !IsPaid(s.orders, o) && !Payable(s.orders, o, e.now) then
      [AuditRow(None, RefundPendingAction(o))]
    else if e.op.CheckIn? && k in s.tickets && s.tickets[k].code == e.op.code
            && s.tickets[k].status == TicketIssued then
      [AuditRow(Some(e.op.admin), CheckedInAction(k))]
    else []
  }

  lemma WebhookAudits(s: State, t: Time, e: Event)
    requires Inv(s, t) && e.op.Webhook?
    ensures forall o: Id, k: ItemKey | Succeeds(s, e, o) :: Step(s, e).audits == s.audits + AuditsOf(s, e, o, k)
    ensures (forall o: Id :: !Succeeds(s, e, o)) ==> Step(s, e).audits == s.audits
  {
    hide Inv, Step, FreshCodes, IssueTickets, ReleaseSeats, SellSeats, SetOrders, SettlePayments;
    IdleCases(s, e);
    if IsNew(s, e.op.event) && KeyOf(e.op.event) in s.payments {
      var p := s.payments[KeyOf(e.op.event)].order;
      if e.op.event.status == WebhookSucceeded {
        SuccessCases(s, t, e);
        assert Succeeds(s, e, p);
      } else {
        DeclineCases(s, t, e);
      }
    }
  }

  lemma ScanAudits(s: State, t: Time, e: Event, o: Id, k: ItemKey)
    requires Inv(s, t) && e.op.CheckIn? && k in s.tickets && s.tickets[k].code == e.op.code
    ensures Step(s, e).audits == s.audits + AuditsOf(s, e, o, k)
  {
    hide *;
    TicketCodesUnique(s, t);
    SoleBearer(s.tickets, k);
    ScanLeavesRow(s, e, o, k);
  }

  lemma ScanLeavesRow(s: State, e: Event, o: Id, k: ItemKey)
    requires e.op.CheckIn? && k in s.tickets && s.tickets[k].code == e.op.code
    requires forall i | i in s.tickets && s.tickets[i].code == s.tickets[k].code :: i == k
    ensures Step(s, e).audits == s.audits + AuditsOf(s, e, o, k)
  {
    hide CheckInStep, FreshCodes;
    ScanOf(s, e.op.code, e.op.admin, e.now, k);
  }

  lemma OtherAudits(s: State, e: Event)
    requires !e.op.Webhook? && !e.op.CheckIn?
    ensures Step(s, e).audits == s.audits
  {
    hide Grants, HoldSeats, NewOrder, HasPayment, OrderTotal, SetOrders, ReleaseSeats, ReplaceRows, Referenced,
      PlaceHoldStep;
    if e.op.PlaceHold? { GrantCases(s, e.op, e.now); }
  }

  /** In every reachable state: a success event of an order, and the scan of a ticket's code, leave
      exactly the rows of `AuditsOf`; any other step leaves none. */
  lemma AuditTransitions(s: State, t: Time, e: Event, o: Id, k: ItemKey)
    requires Reachable(s, t)
    ensures (e.op.Webhook? && Succeeds(s, e, o)) || (e.op.CheckIn? && k in s.tickets && s.tickets[k].code == e.op.code)
      ==> Step(s, e).audits == s.audits + AuditsOf(s, e, o, k)
    ensures (forall p :: !Succeeds(s, e, p))
        && (e.op.CheckIn? ==> forall j | j in s.tickets :: s.tickets[j].code != e.op.code)
      ==> Step(s, e).audits == s.audits
  {
    ReachableIsSafe(s, t);
    hide Reachable, Inv, Step, Pays, Succeeds, AuditsOf;
    if e.op.Webhook? { WebhookAudits(s, t, e); }
    else if !e.op.CheckIn? { OtherAudits(s, e); }
    else if k in s.tickets && s.tickets[k].code == e.op.code { ScanAudits(s, t, e, o, k); }
    else if !exists j :: j in s.tickets && s.tickets[j].code == e.op.code { NothingScanned(s, e); }
  }
}
