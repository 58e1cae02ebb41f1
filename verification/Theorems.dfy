/** What every run of the booking, payment and ticket machine guarantees. */
module Theorems {
  import opened Acceptance
  import opened Common
  import opened Store
  import opened Machine
  import opened SeatSafety
  import opened MoneySafety
  import opened Safety
  import opened Stability

  // ----- seats

  lemma SeatParts(s: State, t: Time)
    requires Reachable(s, t)
    ensures PaidSeatsSold(s.seats, s.orders) && SoldSeatsBought(s.seats, s.orders) && OneBuyer(s.orders)
  {
    hide Reachable, ItemsExist, HoldsBacked, LiveOrdersHold, PaidSeatsSold, SoldSeatsBought, OneBuyer, KeysMatch,
      QuotesMatch, PaymentInv, TicketInv, OnceInv, CheckInInv;
    ReachableIsSafe(s, t);
  }

  /** A seat is SOLD exactly when a paid order lists it, and at most one paid order does. */
  lemma SoldIffBoughtOnce(s: State, t: Time)
    requires Reachable(s, t)
    ensures forall x | x in s.seats :: s.seats[x].status == SeatSold <==> Bought(s.orders, x)
    ensures forall o, x | IsPaid(s.orders, o) && x in s.orders[o].items :: x in s.seats
    ensures OneBuyer(s.orders)
  {
    hide Reachable, OneBuyer;
    SeatParts(s, t);
    forall x | x in s.seats && Bought(s.orders, x) ensures s.seats[x].status == SeatSold {
      var o :| IsPaid(s.orders, o) && x in s.orders[o].items;
    }
  }

  /** However the run goes on, a bought seat stays sold to the same order. */
  lemma SaleIsFinal(s: State, t: Time, trace: seq<Event>, o: Id, x: Id)
    requires Reachable(s, t) && Run(s, t, trace)
    requires IsPaid(s.orders, o) && x in s.orders[o].items && x in s.seats
    ensures var s' := Exec(s, trace);
      && x in s'.seats && s'.seats[x] == s.seats[x] && s'.seats[x].status == SeatSold
      && forall p :: IsPaid(s'.orders, p) && x in s'.orders[p].items <==> p == o
  {
    ReachableIsSafe(s, t);
    RunKeeps(s, t, trace);
    RunPersists(s, t, trace);
    var s' := Exec(s, trace);
    assert PaidSeatsSold(s.seats, s.orders);
    assert OneBuyer(s'.orders);
    assert OrdersPersist(s.orders, s'.orders) && SalesPersist(s.seats, s'.seats);
    hide Reachable, Inv, Persists, Run, Exec;
    assert IsPaid(s'.orders, o) && x in s'.orders[o].items;
  }

  /** At any instant from the hold clock on, the public seat map is an exact index of the orders. */
  lemma SeatMapMatchesOrders(s: State, t: Time, x: Id, at: Time)
    requires Reachable(s, t) && t <= at && x in s.seats
    ensures ShownStatus(s.seats[x], at) != SeatAvailable <==> SeatSafety.Claimed(s.orders, x, at)
  {
    ReachableIsSafe(s, t);
    SeatRowsIndexOrders(s.seats, s.orders, t, x, at);
  }

  // ----- money

  /** One payment at most, and PAID, SUCCEEDED, one ticket per item, one delivery event and one
      success audit go together; any other order has none of them. */
  lemma FinalisedExactlyOnce(s: State, t: Time, o: Id)
    requires Reachable(s, t) && o in s.orders
    ensures forall j, k | j in s.payments && k in s.payments && s.payments[j].order == s.payments[k].order == o ::
      j == k
    ensures IsPaid(s.orders, o) <==>
      exists k :: k in s.payments && s.payments[k].order == o && s.payments[k].status == PaymentSucceeded
    ensures forall x: Id :: ItemKey(o, x) in s.tickets <==> IsPaid(s.orders, o) && x in s.orders[o].items
    ensures Recipients(s.outbox)[o] == Tally(IsPaid(s.orders, o))
    ensures Actions(s.audits)[PaymentSucceededAction(o)] == Tally(IsPaid(s.orders, o))
  {
    ReachableIsSafe(s, t);
    if IsPaid(s.orders, o) {
      var k :| k in s.payments && s.payments[k].order == o;
      assert s.payments[k].status == PaymentSucceeded;
    }
  }

  /** Where the money of a payment ended up. */
  ghost predicate Settled(s: State, k: PaymentKey) {
    && k in s.payments && s.payments[k].order in s.orders
    && (|| (s.payments[k].status == PaymentSucceeded && s.orders[s.payments[k].order].status == Paid)
        || (s.payments[k].status == PaymentRefundPending
          && s.orders[s.payments[k].order].status in {Expired, Cancelled}))
  }

  /** The three ways an accepted success event leaves the order and payment tables. */
  lemma SucceedCases(s: State, k: PaymentKey, event: WebhookEvent, now: Time, codes: Id -> string)
    requires k in s.payments && s.payments[k].order in s.orders && Succeed(s, k, event, now, codes).Some?
    ensures var s', o := Succeed(s, k, event, now, codes).value, s.payments[k].order;
      var late := if Pending(s.orders, o) then {o} else {};
      if s.payments[k].status == PaymentSucceeded || IsPaid(s.orders, o) then s' == s
      else if Pending(s.orders, o) && now < s.orders[o].expiresAt then
        && s'.orders == SetOrders(s.orders, {o}, Paid)
        && s'.payments == SettlePayments(s.payments, o, PaymentSucceeded, Some(event.occurredAt))
      else
        && s'.orders == SetOrders(s.orders, late, Expired)
        && s'.payments == SettlePayments(s.payments, o, PaymentRefundPending, Some(event.occurredAt))
  {
    hide UniqueCodes, IssueTickets, SellSeats, ReleaseSeats, SetOrders, SettlePayments;
  }

  lemma SucceedSettles(s: State, t: Time, k: PaymentKey, event: WebhookEvent, now: Time, codes: Id -> string)
    requires Inv(s, t) && k in s.payments && s.payments[k].order in s.orders
    requires Succeed(s, k, event, now, codes).Some?
    ensures var s' := Succeed(s, k, event, now, codes).value;
      var o := s.payments[k].order;
      && Settled(s', k) && s'.payments[k].order == o
      && (s'.payments[k].status == PaymentSucceeded <==>
            IsPaid(s.orders, o) || (Pending(s.orders, o) && now < s.orders[o].expiresAt))
  {
    hide Inv, Succeed, SetOrders, SettlePayments;
    SettledPaymentOrder(s, t, k);
    SucceedCases(s, k, event, now, codes);
    var o := s.payments[k].order;
    SettledRow(s.payments, k, PaymentRefundPending, Some(event.occurredAt));
    SettledRow(s.payments, k, PaymentSucceeded, Some(event.occurredAt));
    if Pending(s.orders, o) { StatusKeepsOrders(s.orders, {o}, Paid); }
    StatusKeepsOrders(s.orders, if Pending(s.orders, o) then {o} else {}, Expired);
  }

  lemma SettledRow(payments: map<PaymentKey, Payment>, k: PaymentKey, status: PaymentStatus, paidAt: Option<Time>)
    requires k in payments
    ensures var payments' := SettlePayments(payments, payments[k].order, status, paidAt);
      k in payments' && payments'[k].order == payments[k].order && payments'[k].status == status
  {
  }

  lemma SuccessSettles(s: State, t: Time, e: Event, k: PaymentKey)
    requires Inv(s, t) && e.op.Webhook? && e.op.event.status == WebhookSucceeded
    requires k == PaymentKey(e.op.event.provider, e.op.event.reference) && k in s.payments
    requires IsNew(s, e.op.event) && !Collides(s, e, s.payments[k].order)
    ensures Settled(Step(s, e), k)
    ensures var o := s.payments[k].order;
      Step(s, e).payments[k].status == PaymentSucceeded <==>
        IsPaid(s.orders, o) || (Pending(s.orders, o) && e.now < s.orders[o].expiresAt)
  {
    hide SeatInv, KeysMatch, QuotesMatch, PaymentInv, TicketInv, OnceInv, CheckInInv, Settled, Succeed, IsPaid, Pending,
      Collides;
    var r := s.(webhooks := s.webhooks + {(e.op.event.provider, e.op.event.eventId)});
    SettledPaymentOrder(s, t, k);
    SoleCollision(s, e, k);
    AcceptedIff(s, t, e);
    SucceedSettles(r, t, k, e.op.event, e.now, e.op.codes);
  }

  lemma SettledPersists(a: State, b: State, k: PaymentKey)
    requires Settled(a, k) && Persists(a, b)
    ensures Settled(b, k) && b.payments[k].status == a.payments[k].status
  {
    hide SalesPersist, TicketsPersist, DeliveriesPersist;
  }

  /** Money conservation: an accepted success event for a stored payment leaves it SUCCEEDED with
      a PAID order, or REFUND_PENDING with an ended order, and no later step changes that. */
  lemma MoneyConserved(s: State, t: Time, e: Event, k: PaymentKey, trace: seq<Event>)
    requires Reachable(s, t) && t <= e.now
    requires e.op.Webhook? && e.op.event.status == WebhookSucceeded
    requires k == PaymentKey(e.op.event.provider, e.op.event.reference) && k in s.payments
    requires IsNew(s, e.op.event) && !Collides(s, e, s.payments[k].order)
    requires Run(Step(s, e), t, trace)
    ensures Settled(Exec(Step(s, e), trace), k)
    ensures var o := s.payments[k].order;
      Exec(Step(s, e), trace).payments[k].status == PaymentSucceeded <==>
        IsPaid(s.orders, o) || (Pending(s.orders, o) && e.now < s.orders[o].expiresAt)
  {
    hide *;
    ReachableIsSafe(s, t);
    WebhookRuns(s, t, e);
    StepKeeps(s, t, e);
    SuccessSettles(s, t, e, k);
    SettledHasOrder(Step(s, e), k);
    RunPersists(Step(s, e), t, trace);
    SettledPersists(Step(s, e), Exec(Step(s, e), trace), k);
    SettledHasOrder(Exec(Step(s, e), trace), k);
    PaymentHasOrder(s, k);
  }

  lemma WebhookRuns(s: State, t: Time, e: Event)
    requires e.op.Webhook?
    ensures Enabled(s, e) && HoldClock(s, t, e) == t
  {
  }

  lemma SettledHasOrder(s: State, k: PaymentKey)
    requires Settled(s, k)
    ensures k in s.payments && s.payments[k].order in s.orders
  {
  }

  /** The webhook is the only authority that makes an order PAID, and only by a new, timely success
      event for a payment of that order. */
  lemma OnlyWebhooksPay(s: State, e: Event, o: Id)
    requires Enabled(s, e) && !IsPaid(s.orders, o) && IsPaid(Step(s, e).orders, o)
    ensures e.op.Webhook? && e.op.event.status == WebhookSucceeded
    ensures (e.op.event.provider, e.op.event.eventId) !in s.webhooks
    ensures var k := PaymentKey(e.op.event.provider, e.op.event.reference);
      k in s.payments && s.payments[k].order == o && Pending(s.orders, o) && e.now < s.orders[o].expiresAt
  {
    if e.op.Webhook? {
      hide *;
      PaidByWebhook(s, e, o);
    } else {
      NothingElsePays(s, e, o);
      assert false;
    }
  }

  lemma PaidByWebhook(s: State, e: Event, o: Id)
    requires e.op.Webhook? && !IsPaid(s.orders, o) && IsPaid(Step(s, e).orders, o)
    ensures e.op.event.status == WebhookSucceeded && (e.op.event.provider, e.op.event.eventId) !in s.webhooks
    ensures var k := PaymentKey(e.op.event.provider, e.op.event.reference);
      k in s.payments && s.payments[k].order == o && Pending(s.orders, o) && e.now < s.orders[o].expiresAt
  {
    hide UniqueCodes, IssueTickets, SettlePayments, SellSeats, ReleaseSeats;
  }

  lemma NothingElsePays(s: State, e: Event, o: Id)
    requires Enabled(s, e) && !e.op.Webhook?
    ensures IsPaid(Step(s, e).orders, o) <==> IsPaid(s.orders, o)
  {
    if e.op.PlaceHold? {
      hide Grants, HoldSeats, ItemsFor, PlaceHoldStep;
      GrantCases(s, e.op, e.now);
    } else if e.op.CancelOrder? || e.op.ExpirePendingHolds? {
      hide ReleaseSeats;
    } else {
      hide *;
      OtherTablesOnly(s, e);
    }
  }

  lemma IntentsLeaveOrders(s: State, e: Event)
    requires e.op.RequestIntent? || e.op.SaveIntent?
    ensures Step(s, e).orders == s.orders
  {
    if e.op.SaveIntent? {
      hide *;
      SaveIntentCases(s, e);
    } else {
      hide OrderTotal, HasPayment;
    }
  }

  lemma CheckInLeavesOrders(s: State, e: Event)
    requires e.op.CheckIn?
    ensures Step(s, e).orders == s.orders
  {
  }

  lemma InventoryLeavesOrders(s: State, e: Event)
    requires e.op.ReplaceInventory?
    ensures Step(s, e).orders == s.orders
  {
    hide ReplaceRows, Referenced;
  }

  lemma DeliveriesLeaveOrders(s: State, e: Event)
    requires e.op.ClaimDeliveries? || e.op.CompleteDelivery? || e.op.RetryDelivery?
    ensures Step(s, e).orders == s.orders
  {
  }

  lemma OtherTablesOnly(s: State, e: Event)
    requires !e.op.Webhook? && !e.op.PlaceHold? && !e.op.CancelOrder? && !e.op.ExpirePendingHolds?
    ensures Step(s, e).orders == s.orders
  {
    hide *;
    match e.op
    case RequestIntent(_, _) => IntentsLeaveOrders(s, e);
    case SaveIntent(_, _, _) => IntentsLeaveOrders(s, e);
    case CheckIn(_, _) => CheckInLeavesOrders(s, e);
    case ReplaceInventory(_, _) => InventoryLeavesOrders(s, e);
    case _ => DeliveriesLeaveOrders(s, e);
  }

  lemma WebhookSeats(s: State, e: Event)
    requires e.op.Webhook?
    ensures var k := PaymentKey(e.op.event.provider, e.op.event.reference);
      var seats' := Step(s, e).seats;
      || seats' == s.seats
      || (&& k in s.payments && s.payments[k].order in s.orders
          && var o := s.payments[k].order;
             || (s.orders[o].expiresAt <= e.now && seats' == ReleaseSeats(s.seats, {o}))
             || (e.now < s.orders[o].expiresAt && seats' == SellSeats(s.seats, o)))
  {
    hide UniqueCodes, IssueTickets, SettlePayments, SetOrders, SellSeats;
    assert ReleaseSeats(s.seats, {}) == s.seats;
    hide ReleaseSeats;
  }

  /** A webhook touches no seat but those its own order still holds: in time it sells them, late
      it frees them. */
  lemma WebhookTouchesOwnSeatsOnly(s: State, e: Event, x: Id)
    requires e.op.Webhook? && x in s.seats
    ensures x in Step(s, e).seats
    ensures Step(s, e).seats[x] != s.seats[x] ==>
      var k := PaymentKey(e.op.event.provider, e.op.event.reference);
      && k in s.payments && s.payments[k].order in s.orders
      && HeldBy(s.seats[x], s.payments[k].order)
      && Step(s, e).seats[x].status ==
           if e.now < s.orders[s.payments[k].order].expiresAt then SeatSold else SeatAvailable
  {
    WebhookSeats(s, e);
    hide Step;
  }

  ghost predicate AmountsMatch(s: State) {
    forall k | k in s.payments ::
      s.payments[k].order in s.orders && s.payments[k].amount == OrderTotal(s.orders[s.payments[k].order].items)
  }

  /** The step stores a new payment. */
  ghost predicate Saves(s: State, e: Event) {
    e.op.SaveIntent? && Step(s, e) != s
  }

  /** The provider's reply charges what was asked; the service does not look. */
  predicate Echoes(e: Event)
    requires e.op.SaveIntent?
  {
    e.op.reply.amount == e.op.request.amount
  }

  lemma SaveEchoesIff(s: State, t: Time, e: Event)
    requires Inv(s, t) && Enabled(s, e) && AmountsMatch(s) && Saves(s, e)
    ensures AmountsMatch(Step(s, e)) <==> Echoes(e)
  {
    hide SeatInv, KeysMatch, PaymentInv, TicketInv, OnceInv, CheckInInv, Step, HasPayment, SumPrices;
    SaveIntentCases(s, e);
    var k := PaymentKey(e.op.reply.provider, e.op.reply.reference);
    assert Step(s, e).payments[k].amount == e.op.reply.amount && k in Step(s, e).payments;
  }

  lemma StepKeepsAmounts(s: State, t: Time, e: Event)
    requires Inv(s, t) && Enabled(s, e) && (e.op.Webhook? ==> t <= e.now) && AmountsMatch(s)
    ensures AmountsMatch(Step(s, e)) <==> (Saves(s, e) ==> Echoes(e))
  {
    if Saves(s, e) {
      hide *;
      SaveEchoesIff(s, t, e);
    } else {
      var s' := Step(s, e);
      StepPersists(s, t, e);
      assert QuotesMatch(s.orders, s.issued);
      hide Inv, SumPrices, UniqueCodes;
      forall k | k in s'.payments
        ensures s'.payments[k].order in s'.orders
                && s'.payments[k].amount == OrderTotal(s'.orders[s'.payments[k].order].items)
      {
        if k !in s.payments { NewPaymentIsSaved(s, e, k); }
      }
    }
  }

  /** An overcharge, once stored, is never put right. */
  lemma MismatchPersists(s: State, t: Time, trace: seq<Event>)
    requires Inv(s, t) && Run(s, t, trace) && !AmountsMatch(s)
    ensures !AmountsMatch(Exec(s, trace))
  {
    hide SeatInv, KeysMatch, QuotesMatch, TicketInv, OnceInv, CheckInInv, Run, Exec, OrderTotal,
      SalesPersist, TicketsPersist, DeliveriesPersist;
    RunPersists(s, t, trace);
    var k :| k in s.payments
      && !(s.payments[k].order in s.orders && s.payments[k].amount == OrderTotal(s.orders[s.payments[k].order].items));
    assert s.payments[k].order in s.orders;
    assert k in Exec(s, trace).payments;
  }

  lemma WebhookAddsNoPayment(s: State, e: Event)
    requires e.op.Webhook?
    ensures Step(s, e).payments.Keys == s.payments.Keys
  {
    hide UniqueCodes, IssueTickets, SetOrders, SellSeats, ReleaseSeats;
  }

  lemma HoldLeavesPayments(s: State, e: Event)
    requires e.op.PlaceHold?
    ensures Step(s, e).payments == s.payments
  {
    hide Grants, HoldSeats, NewOrder, PlaceHoldStep;
    GrantCases(s, e.op, e.now);
  }

  lemma TicketsAndSeatsLeavePayments(s: State, e: Event)
    requires e.op.CheckIn? || e.op.ReplaceInventory?
    ensures Step(s, e).payments == s.payments
  {
    hide ReplaceRows, Referenced;
  }

  lemma OthersLeavePayments(s: State, e: Event)
    requires !e.op.Webhook? && !e.op.SaveIntent?
    ensures Step(s, e).payments == s.payments
  {
    if e.op.PlaceHold? {
      hide *;
      HoldLeavesPayments(s, e);
    } else if e.op.CheckIn? || e.op.ReplaceInventory? {
      hide *;
      TicketsAndSeatsLeavePayments(s, e);
    } else {
      hide SetOrders, ReleaseSeats, OrderTotal, HasPayment, PlaceHoldStep, CheckInStep, ReplaceInventoryStep;
    }
  }

  lemma SaveAddsQuoted(s: State, e: Event, k: PaymentKey)
    requires Enabled(s, e) && e.op.SaveIntent? && k in Step(s, e).payments && k !in s.payments
    ensures e.op.request in s.issued && Step(s, e).orders == s.orders
    ensures Step(s, e).payments[k] == Payment(e.op.request.order, PaymentPending, e.op.reply.amount, None)
  {
    hide HasPayment;
  }

  lemma NewPaymentIsSaved(s: State, e: Event, k: PaymentKey)
    requires Enabled(s, e) && k in Step(s, e).payments && k !in s.payments
    ensures e.op.SaveIntent? && e.op.request in s.issued && Step(s, e).orders == s.orders
    ensures Step(s, e).payments[k] == Payment(e.op.request.order, PaymentPending, e.op.reply.amount, None)
  {
    hide *;
    if e.op.Webhook? { WebhookAddsNoPayment(s, e); }
    if !e.op.Webhook? && !e.op.SaveIntent? { OthersLeavePayments(s, e); }
    if e.op.SaveIntent? { SaveAddsQuoted(s, e, k); }
  }

  /** Every reply that was stored echoed its request. */
  ghost predicate RepliesEcho(s: State, trace: seq<Event>)
    decreases |trace|
  {
    trace == [] || ((Saves(s, trace[0]) ==> Echoes(trace[0])) && RepliesEcho(Step(s, trace[0]), trace[1..]))
  }

  /** Under interleaved two-phase intent creation, every stored payment charges exactly the sum
      of the price snapshots of its order, if and only if every stored reply echoed its request. */
  lemma {:induction false} AmountsCharged(s: State, t: Time, trace: seq<Event>)
    requires Inv(s, t) && AmountsMatch(s) && Run(s, t, trace)
    ensures AmountsMatch(Exec(s, trace)) <==> RepliesEcho(s, trace)
    decreases |trace|
  {
    if trace != [] {
      var e, rest := trace[0], trace[1..];
      StepKeepsAmounts(s, t, e);
      StepKeeps(s, t, e);
      hide Inv, AmountsMatch, Saves, Echoes, Step, HoldClock;
      if AmountsMatch(Step(s, e)) { AmountsCharged(Step(s, e), HoldClock(s, t, e), rest); }
      else { MismatchPersists(Step(s, e), HoldClock(s, t, e), rest); }
    }
  }

  // ----- tickets

  lemma UsedSeatIsBought(seats: map<Id, SeatRow>, orders: map<Id, Order>, tickets: map<ItemKey, Ticket>, x: Id)
    requires TicketInv(orders, tickets) && PaidSeatsSold(seats, orders) && SeatUsed(tickets, x)
    ensures x in seats && seats[x].status == SeatSold
    ensures exists o: Id :: IsPaid(orders, o) && x in orders[o].items
                            && ItemKey(o, x) in tickets && tickets[ItemKey(o, x)].status == TicketUsed
  {
    var o: Id :| ItemKey(o, x) in tickets && tickets[ItemKey(o, x)].status == TicketUsed;
    assert IsPaid(orders, o) && x in orders[o].items;
  }

  /** Over a whole run a seat is checked in at most once, and only for the order that bought it. */
  lemma OneCheckInPerSeat(s: State, t: Time, x: Id)
    requires Reachable(s, t)
    ensures CheckIns(s.audits, x) <= 1
    ensures CheckIns(s.audits, x) == 1 ==>
      && x in s.seats && s.seats[x].status == SeatSold
      && exists o: Id :: IsPaid(s.orders, o) && x in s.orders[o].items
                         && ItemKey(o, x) in s.tickets && s.tickets[ItemKey(o, x)].status == TicketUsed
  {
    hide KeysMatch, QuotesMatch, PaymentInv, TicketInv, OnceInv, Reachable,
      ItemsExist, HoldsBacked, LiveOrdersHold, PaidSeatsSold, SoldSeatsBought, OneBuyer, SeatUsed, CheckIns;
    ReachableIsSafe(s, t);
    if SeatUsed(s.tickets, x) { UsedSeatIsBought(s.seats, s.orders, s.tickets, x); }
  }

  lemma ScannedCode(tickets: map<ItemKey, Ticket>, later: map<ItemKey, Ticket>, k: ItemKey)
    requires TicketsPersist(tickets, later) && UniqueCodes(later)
    requires k in tickets && tickets[k].status == TicketUsed
    ensures k in later && later[k] == tickets[k]
    ensures forall j | j in later && later[j].code == tickets[k].code :: j == k
  {
  }

  /** A second scan is refused at any later point of any run and the first check-in time stays. */
  lemma SecondScanRefused(s: State, t: Time, first: Event, trace: seq<Event>, again: Event)
    requires Reachable(s, t) && first.op.CheckIn? && again.op.CheckIn? && again.op.code == first.op.code
    requires CheckInStep(s, first.op.code, first.op.admin, first.now).1.Done?
    requires Run(Step(s, first), t, trace)
    ensures var later := Exec(Step(s, first), trace);
      var k := CheckInStep(s, first.op.code, first.op.admin, first.now).1.value;
      && CheckInStep(later, again.op.code, again.op.admin, again.now) == (later, Refused(TicketAlreadyUsed))
      && k in later.tickets && later.tickets[k].checkedInAt == Some(first.now)
  {
    hide Reachable, SeatInv, KeysMatch, QuotesMatch, PaymentInv, OnceInv, CheckInInv, Run, Exec,
      OrdersPersist, SalesPersist, PaymentsPersist, TicketsPersist, DeliveriesPersist, UniqueCodes;
    var s1 := Step(s, first);
    ReachableIsSafe(s, t);
    StepKeeps(s, t, first);
    RunPersists(s1, t, trace);
    RunKeeps(s1, t, trace);
    var k := CheckInStep(s, first.op.code, first.op.admin, first.now).1.value;
    ScannedCode(s1.tickets, Exec(s1, trace).tickets, k);
  }
}
