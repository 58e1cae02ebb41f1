/** Why the clock matters. Services read the clock before their transaction starts, so a webhook
    may be processed with an instant older than a take-over of the same seat. */
module ClockAssumption {
  import opened Common
  import opened Store
  import opened Machine
  import opened SeatSafety
  import opened MoneySafety
  import opened Safety
  import Holds
  import Uuid

  /** Finalising a pending order keeps the seat invariant exactly when the order still holds every
      one of its seats, a test the webhook transaction could make on the rows themselves. */
  lemma FinalisationSafeIff(seats: map<Id, SeatRow>, orders: map<Id, Order>, t: Time, o: Id)
    requires SeatInv(seats, orders, t) && Pending(orders, o)
    ensures SeatInv(SellSeats(seats, o), SetOrders(orders, {o}, Paid), t) <==>
      forall x | x in orders[o].items :: x in seats && HeldBy(seats[x], o)
  {
    if forall x | x in orders[o].items :: x in seats && HeldBy(seats[x], o) {
      SellKeeps(seats, orders, t, o);
    } else {
      var x :| x in orders[o].items && !HeldBy(seats[x], o);
      UnheldSeatBreaks(seats, orders, t, o, x);
    }
  }

  lemma UnheldSeatBreaks(seats: map<Id, SeatRow>, orders: map<Id, Order>, t: Time, o: Id, x: Id)
    requires SeatInv(seats, orders, t) && Pending(orders, o)
    requires x in orders[o].items && !HeldBy(seats[x], o)
    ensures !SeatInv(SellSeats(seats, o), SetOrders(orders, {o}, Paid), t)
  {
    var seats', orders' := SellSeats(seats, o), SetOrders(orders, {o}, Paid);
    StatusKeepsOrders(orders, {o}, Paid);
    assert IsPaid(orders', o) && x in orders'[o].items;
    if seats[x].status == SeatSold {
      assert Bought(orders, x);
      var p :| IsPaid(orders, p) && x in orders[p].items;
      assert IsPaid(orders', p) && x in orders'[p].items && p != o;
      assert !OneBuyer(orders');
    } else {
      assert seats'[x].status != SeatSold;
      assert !PaidSeatsSold(seats', orders');
    }
  }

  // ----- a concrete run in which a stale webhook clock sells one seat twice

  const SEAT: Id := 7
  const O1: Id := 1 * Uuid.Pow16(24)
  const O2: Id := 2 * Uuid.Pow16(24)
  const ITEMS: map<Id, nat> := map[SEAT := 100]
  ghost const QUOTE: nat := OrderTotal(ITEMS)
  const FIRST := Order(1, 1, "a", PendingPayment, 10, ITEMS)
  const SECOND := Order(2, 1, "b", PendingPayment, 20, ITEMS)
  const K1 := PaymentKey("FAKE", "fake-1")
  const K2 := PaymentKey("FAKE", "fake-2")

  ghost function Row(status: SeatStatus, holder: Option<Id>, expiry: Option<Time>): map<Id, SeatRow> {
    map[SEAT := SeatRow(1, 100, status, holder, expiry)]
  }

  ghost const S1: State := EMPTY.(seats := Row(SeatAvailable, None, None))
  ghost const S2: State := S1.(seats := Row(SeatHeld, Some(O1), Some(10)), orders := map[O1 := FIRST],
                               keys := map[(1, "a") := O1])
  ghost const S3: State := S2.(issued := {IntentRequest(O1, QUOTE, 0)})
  ghost const S4: State := S3.(payments := map[K1 := Payment(O1, PaymentPending, QUOTE, None)])
  ghost const S5: State := S4.(seats := Row(SeatHeld, Some(O2), Some(20)), orders := map[O1 := FIRST, O2 := SECOND],
                               keys := map[(1, "a") := O1, (2, "b") := O2])
  ghost const S6: State := S5.(issued := {IntentRequest(O1, QUOTE, 0), IntentRequest(O2, QUOTE, 10)})
  ghost const S7: State := S6.(payments := map[K1 := Payment(O1, PaymentPending, QUOTE, None),
                                               K2 := Payment(O2, PaymentPending, QUOTE, None)])

  const E1 := At(0, ReplaceInventory(1, ITEMS))
  const E2 := At(0, PlaceHold(O1, 1, Uuid.Render(1), "a", 10, [Uuid.Render(SEAT)]))
  const E3 := At(0, RequestIntent(O1, 1))
  ghost const E4 :=
    At(0, SaveIntent(IntentRequest(O1, QUOTE, 0), "FAKE", Intent("FAKE", "fake-1", PaymentPending, QUOTE)))
  const E5 := At(10, PlaceHold(O2, 2, Uuid.Render(1), "b", 20, [Uuid.Render(SEAT)]))
  const E6 := At(10, RequestIntent(O2, 2))
  ghost const E7 :=
    At(10, SaveIntent(IntentRequest(O2, QUOTE, 10), "FAKE", Intent("FAKE", "fake-2", PaymentPending, QUOTE)))
  const STALE := At(5, Webhook(WebhookEvent("FAKE", "evt-1", "fake-1", WebhookSucceeded, 5), (x: Id) => "TKT-1"))
  const TIMELY := At(11, Webhook(WebhookEvent("FAKE", "evt-2", "fake-2", WebhookSucceeded, 11), (x: Id) => "TKT-2"))

  /** The two orders' ids differ in their first eight digits, so their booking codes do. */
  lemma DistinctCodes()
    ensures O1 != O2 && BookingCode(O1) != BookingCode(O2)
  {
    Uuid.LeadingOfMultiple(1, 24);
    Uuid.LeadingOfMultiple(2, 24);
    IdsFit();
    hide Uuid.Pow16, Uuid.Leading, BookingCode;
    Holds.CodesCollideIff(O1, O2);
  }

  lemma IdsFit()
    ensures Uuid.Fits(O1) && Uuid.Fits(O2) && Uuid.Fits(1) && Uuid.Fits(SEAT)
  {
    var p := Uuid.Pow16(24);
    assert Uuid.Pow16(25) == 16 * p;
    Uuid.Pow16Grows(25, Uuid.DIGITS);
  }

  lemma TextsDenote()
    ensures Uuid.Parse(Uuid.Render(1)) == Some(1)
    ensures AllParse([Uuid.Render(SEAT)]) && Parsed([Uuid.Render(SEAT)]) == [SEAT]
  {
    hide Uuid.Parse, Uuid.Render, Uuid.Fits;
    IdsFit();
    Uuid.ParseRender(1);
    Uuid.ParseRender(SEAT);
  }

  /** One step of a run that is not a webhook. */
  ghost predicate Leads(s: State, t: Time, e: Event, s': State, t': Time) {
    Enabled(s, e) && !e.op.Webhook? && Step(s, e) == s' && HoldClock(s, t, e) == t'
  }

  lemma Stocked()
    ensures Leads(EMPTY, 0, E1, S1, 0)
  {
    assert ReplaceRows(EMPTY.seats, 1, ITEMS) == S1.seats;
  }

  lemma FirstHold()
    ensures Leads(S1, 0, E2, S2, 0)
  {
    hide O1, O2, Uuid.Parse, Uuid.Render, Uuid.Pow16, BookingCode;
    TextsDenote();
    assert LockedSeats(S1.seats, 1, [SEAT]) == {SEAT};
    assert ItemsFor(S1.seats, {SEAT}) == ITEMS;
    assert HoldSeats(S1.seats, {SEAT}, O1, 10) == S2.seats;
  }

  lemma SecondHold()
    ensures Leads(S4, 0, E5, S5, 10)
  {
    hide O1, O2, Uuid.Parse, Uuid.Render, Uuid.Pow16, BookingCode;
    TextsDenote();
    DistinctCodes();
    assert LockedSeats(S4.seats, 1, [SEAT]) == {SEAT};
    assert ItemsFor(S4.seats, {SEAT}) == ITEMS;
    assert HoldSeats(S4.seats, {SEAT}, O2, 20) == S5.seats;
  }

  lemma AsksIntent(s: State, t: Time, o: Id, user: Id, now: Time)
    requires Pending(s.orders, o) && s.orders[o].user == user && now < s.orders[o].expiresAt
    requires !HasPayment(s.payments, o)
    ensures Leads(s, t, At(now, RequestIntent(o, user)),
                  s.(issued := s.issued + {IntentRequest(o, OrderTotal(s.orders[o].items), now)}), t)
  {
  }

  lemma SavesIntent(s: State, t: Time, r: IntentRequest, reference: string, now: Time)
    requires r in s.issued && Pending(s.orders, r.order) && r.asOf < s.orders[r.order].expiresAt && reference != ""
    requires !HasPayment(s.payments, r.order) && PaymentKey("FAKE", reference) !in s.payments
    ensures Leads(s, t, At(now, SaveIntent(r, "FAKE", Intent("FAKE", reference, PaymentPending, r.amount))),
                  s.(payments := s.payments[PaymentKey("FAKE", reference) :=
                                              Payment(r.order, PaymentPending, r.amount, None)]), t)
  {
  }

  lemma FirstIntent()
    ensures Leads(S2, 0, E3, S3, 0) && Leads(S3, 0, E4, S4, 0)
  {
    hide O1, O2, Uuid.Pow16, Leads;
    assert S2.issued + {IntentRequest(O1, QUOTE, 0)} == S3.issued;
    assert S3.payments[K1 := Payment(O1, PaymentPending, QUOTE, None)] == S4.payments;
    AsksIntent(S2, 0, O1, 1, 0);
    SavesIntent(S3, 0, IntentRequest(O1, QUOTE, 0), "fake-1", 0);
  }

  lemma SecondIntent()
    ensures Leads(S5, 10, E6, S6, 10) && Leads(S6, 10, E7, S7, 10)
  {
    hide O1, O2, Uuid.Pow16, Leads;
    DistinctCodes();
    assert "fake-1"[5] != "fake-2"[5];
    assert S5.issued + {IntentRequest(O2, QUOTE, 10)} == S6.issued;
    assert S6.payments[K2 := Payment(O2, PaymentPending, QUOTE, None)] == S7.payments;
    AsksIntent(S5, 10, O2, 2, 10);
    SavesIntent(S6, 10, IntentRequest(O2, QUOTE, 10), "fake-2", 10);
  }

  lemma RunExtends(s: State, t: Time, e: Event, s': State, t': Time, rest: seq<Event>)
    requires Leads(s, t, e, s', t') && Run(s', t', rest)
    ensures Run(s, t, [e] + rest)
    ensures Exec(s, [e] + rest) == Exec(s', rest)
    ensures LastHoldClock(s, t, [e] + rest) == LastHoldClock(s', t', rest)
  {
    assert ([e] + rest)[1..] == rest;
    hide Step, Enabled, HoldClock;
  }

  lemma NothingMore(s: State, t: Time)
    ensures Run(s, t, []) && Exec(s, []) == s && LastHoldClock(s, t, []) == t
  {
  }

  /** The expired hold of one order is taken over by another while the first is still pending. */
  lemma TakeoverIsReachable()
    ensures Reachable(S7, 10)
  {
    hide *;
    Stocked();
    FirstHold();
    FirstIntent();
    SecondHold();
    SecondIntent();
    NothingMore(S7, 10);
    RunExtends(S6, 10, E7, S7, 10, []);
    RunExtends(S5, 10, E6, S6, 10, [E7] + []);
    RunExtends(S4, 0, E5, S5, 10, [E6] + ([E7] + []));
    RunExtends(S3, 0, E4, S4, 0, [E5] + ([E6] + ([E7] + [])));
    RunExtends(S2, 0, E3, S3, 0, [E4] + ([E5] + ([E6] + ([E7] + []))));
    RunExtends(S1, 0, E2, S2, 0, [E3] + ([E4] + ([E5] + ([E6] + ([E7] + [])))));
    RunExtends(EMPTY, 0, E1, S1, 0, [E2] + ([E3] + ([E4] + ([E5] + ([E6] + ([E7] + []))))));
    ReachedBy([E1] + ([E2] + ([E3] + ([E4] + ([E5] + ([E6] + ([E7] + [])))))), S7, 10);
  }

  lemma ReachedBy(trace: seq<Event>, s: State, t: Time)
    requires Run(EMPTY, 0, trace) && s == Exec(EMPTY, trace) && t == LastHoldClock(EMPTY, 0, trace)
    ensures Reachable(s, t)
  {
    hide Run, Exec, LastHoldClock;
  }

  const T1: map<ItemKey, Ticket> := map[ItemKey(O1, SEAT) := Ticket("TKT-1", TicketIssued, None)]
  const T2: map<ItemKey, Ticket> := T1[ItemKey(O2, SEAT) := Ticket("TKT-2", TicketIssued, None)]

  lemma StaleTickets()
    ensures IssueTickets(map[], O1, ITEMS, STALE.op.codes) == T1 && UniqueCodes(T1)
  {
    hide O1, O2, Uuid.Pow16;
    DistinctCodes();
    assert ItemKeys(O1, ITEMS) == {ItemKey(O1, SEAT)};
  }

  lemma TimelyTickets()
    ensures IssueTickets(T1, O2, ITEMS, TIMELY.op.codes) == T2 && UniqueCodes(T2)
  {
    hide O1, O2, Uuid.Pow16;
    DistinctCodes();
    assert ItemKeys(O2, ITEMS) == {ItemKey(O2, SEAT)};
    assert "TKT-1"[4] != "TKT-2"[4];
  }

  /** Finalising a pending order in time, whatever its seats have become. */
  lemma Finalises(s: State, k: PaymentKey, e: Event)
    requires e.op.Webhook? && e.op.event.status == WebhookSucceeded
    requires k == PaymentKey(e.op.event.provider, e.op.event.reference) && k in s.payments
    requires (e.op.event.provider, e.op.event.eventId) !in s.webhooks
    requires s.payments[k].status == PaymentPending && Pending(s.orders, s.payments[k].order)
    requires e.now < s.orders[s.payments[k].order].expiresAt
    requires UniqueCodes(IssueTickets(s.tickets, s.payments[k].order, s.orders[s.payments[k].order].items, e.op.codes))
    ensures var s' := Step(s, e);
      var o := s.payments[k].order;
      && s'.orders == SetOrders(s.orders, {o}, Paid) && s'.seats == SellSeats(s.seats, o)
      && s'.tickets == IssueTickets(s.tickets, o, s.orders[o].items, e.op.codes)
      && s'.webhooks == s.webhooks + {(e.op.event.provider, e.op.event.eventId)}
      && s'.payments == SettlePayments(s.payments, o, PaymentSucceeded, Some(e.op.event.occurredAt))
  {
    hide UniqueCodes, IssueTickets, SetOrders, SellSeats, SettlePayments, ReleaseSeats;
  }

  lemma OtherPaymentUntouched()
    ensures K2 in SettlePayments(S7.payments, O1, PaymentSucceeded, Some(5))
    ensures SettlePayments(S7.payments, O1, PaymentSucceeded, Some(5))[K2] == S7.payments[K2]
  {
    hide O1, O2, Uuid.Pow16;
    DistinctCodes();
  }

  lemma StaleFinalises()
    ensures var s := Step(S7, STALE);
      && s.orders == map[O1 := FIRST.(status := Paid), O2 := SECOND]
      && K2 in s.payments && s.payments[K2] == S7.payments[K2]
      && s.webhooks == {("FAKE", "evt-1")} && s.tickets == T1
  {
    hide O1, O2, Uuid.Pow16, UniqueCodes, IssueTickets, SellSeats, SettlePayments, Step;
    DistinctCodes();
    StaleTickets();
    assert Pending(S7.orders, O1);
    Finalises(S7, K1, STALE);
    OtherPaymentUntouched();
    assert SetOrders(S7.orders, {O1}, Paid) == map[O1 := FIRST.(status := Paid), O2 := SECOND];
  }

  /** From a reachable state, a webhook with a clock value older than a placed hold leads to two
      paid orders for one seat, each with a ticket. */
  lemma StaleWebhookSellsTwice()
    ensures Reachable(S7, 10) && STALE.now < 10 <= TIMELY.now
    ensures var s := Step(Step(S7, STALE), TIMELY);
      && IsPaid(s.orders, O1) && IsPaid(s.orders, O2)
      && SEAT in s.orders[O1].items && SEAT in s.orders[O2].items
      && ItemKey(O1, SEAT) in s.tickets && ItemKey(O2, SEAT) in s.tickets
  {
    hide O1, O2, Uuid.Pow16, Reachable, UniqueCodes, IssueTickets, SellSeats, SettlePayments, Step;
    DistinctCodes();
    TakeoverIsReachable();
    StaleFinalises();
    TimelyTickets();
    var s := Step(S7, STALE);
    assert "evt-1"[4] != "evt-2"[4];
    Finalises(s, K2, TIMELY);
  }
}
