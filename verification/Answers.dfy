/** Whom the system says yes to. What each request is answered in every reachable state, and that a
    granted hold can be paid for and all its visitors admitted. */
module Answers {
  import opened Acceptance
  import opened Common
  import opened Store
  import opened Machine
  import opened SeatSafety
  import opened MoneySafety
  import opened Safety
  import opened Transitions
  import Holds
  import Totals
  import Uuid

  // ----- cancelling

  /** An order is given up exactly by its own user, in time. To anyone else it does not exist, and a
      refusal changes nothing. */
  lemma CancelAnswersIff(s: State, e: Event)
    requires e.op.CancelOrder?
    ensures var o := e.op.order;
      CancelStep(s, o, e.op.user, e.now).1 ==
        (if Cancels(s, e, o) then Done(o)
         else if o in s.orders && s.orders[o].user == e.op.user then Refused(OrderNotCancellable)
         else Refused(OrderNotFound))
    ensures !Cancels(s, e, e.op.order) ==> Step(s, e) == s
  {
    hide SetOrders, ReleaseSeats;
  }

  // ----- paying

  /** Its own user is quoted a price exactly while the order can be paid and has no payment yet; once
      it has one, whatever became of it, that one is found. */
  lemma QuoteAnswersIff(s: State, o: Id, user: Id, now: Time)
    ensures var (s', reply) := RequestIntentStep(s, o, user, now);
      var own := o in s.orders && s.orders[o].user == user;
      var asked := exists k :: k in s.payments && s.payments[k].order == o;
      && (reply == Refused(OrderNotFound) <==> !own)
      && (reply == Done(None) <==> own && asked)
      && (reply.Done? && reply.value.Some? <==> own && !asked && Payable(s.orders, o, now))
      && (reply == Refused(OrderExpired) <==> own && !asked && Overdue(s.orders, o, now))
      && (reply == Refused(OrderNotPayable) <==> own && !asked && !Pending(s.orders, o))
      && s' == s.(issued := s'.issued)
      && s'.issued == s.issued + if reply.Done? && reply.value.Some? then {reply.value.value} else {}
  {
    hide OrderTotal;
    assert HasPayment(s.payments, o) <==> exists k :: k in s.payments && s.payments[k].order == o;
  }

  /** The provider's reply is one the service takes. */
  predicate Valid(reply: Intent, provider: string) {
    reply.provider == provider && reply.reference != "" && reply.status == PaymentPending
  }

  /** A valid reply is stored as the order's payment exactly when the order has none, can still be paid
      at the instant it was asked about, and the reference is new; a reply that comes second finds the
      payment that came first. Nothing else is written. */
  lemma SaveAnswersIff(s: State, t: Time, request: IntentRequest, provider: string, reply: Intent)
    requires Reachable(s, t) && request in s.issued
    ensures var (s', answer) := SaveIntentStep(s, request, provider, reply);
      var o, k := request.order, PaymentKey(reply.provider, reply.reference);
      var asked := exists j :: j in s.payments && s.payments[j].order == o;
      && (answer == Refused(InvalidProviderReply) <==> !Valid(reply, provider))
      && (Valid(reply, provider) && asked <==>
            answer.Done? && answer.value in s.payments && s.payments[answer.value].order == o)
      && (Valid(reply, provider) && !asked ==>
            if Overdue(s.orders, o, request.asOf) then answer == Refused(OrderExpired)
            else if !Pending(s.orders, o) then answer == Refused(OrderNotPayable)
            else if k in s.payments then answer == Refused(StorageConflict)
            else answer == Done(k))
      && s' == s.(payments :=
           if Valid(reply, provider) && !asked && Payable(s.orders, o, request.asOf) && k !in s.payments
           then s.payments[k := Payment(o, PaymentPending, reply.amount, None)] else s.payments)
  {
    ReachableIsSafe(s, t);
    assert QuotesMatch(s.orders, s.issued);
    hide Reachable, Inv, OrderTotal;
    assert HasPayment(s.payments, request.order) <==>
      exists j :: j in s.payments && s.payments[j].order == request.order;
  }

  // ----- admitting

  /** In every reachable state a code admits the visitor exactly when its ticket is issued, is known to
      be used exactly when its ticket was, and is unknown exactly when no ticket bears it. */
  lemma ScanAnswersIff(s: State, t: Time, code: string, admin: Id, now: Time)
    requires Reachable(s, t)
    ensures var reply := CheckInStep(s, code, admin, now).1;
      && (forall k :: reply == Done(k) <==>
            k in s.tickets && s.tickets[k].code == code && s.tickets[k].status == TicketIssued)
      && (reply == Refused(TicketAlreadyUsed) <==>
            exists k :: k in s.tickets && s.tickets[k].code == code && s.tickets[k].status == TicketUsed)
      && (reply == Refused(TicketNotFound) <==> forall k | k in s.tickets :: s.tickets[k].code != code)
  {
    ReachableIsSafe(s, t);
    TicketCodesUnique(s, t);
    NoVoidTickets(s, t);
    hide *;
    if exists j :: j in s.tickets && s.tickets[j].code == code {
      var j :| j in s.tickets && s.tickets[j].code == code;
      SoleBearer(s.tickets, j);
      ScanOf(s, code, admin, now, j);
    } else {
      NothingScanned(s, At(now, CheckIn(code, admin)));
    }
  }

  lemma NoVoidTickets(s: State, t: Time)
    requires Inv(s, t)
    ensures forall k | k in s.tickets :: s.tickets[k].status != TicketVoid
  {
    assert TicketInv(s.orders, s.tickets);
    hide Inv, UniqueCodes;
  }

  // ----- a run that goes on

  lemma {:induction false} RunAppends(s: State, t: Time, trace: seq<Event>, e: Event)
    requires Run(s, t, trace) && Enabled(Exec(s, trace), e)
    requires e.op.Webhook? ==> LastHoldClock(s, t, trace) <= e.now
    ensures Run(s, t, trace + [e]) && Exec(s, trace + [e]) == Step(Exec(s, trace), e)
    ensures LastHoldClock(s, t, trace + [e]) == HoldClock(Exec(s, trace), LastHoldClock(s, t, trace), e)
    decreases |trace|
  {
    hide Enabled, Step, HoldClock;
    if trace == [] {
      assert trace + [e] == [e] && [e][1..] == [];
      assert Run(Step(s, e), HoldClock(s, t, e), []);
    } else {
      assert (trace + [e])[1..] == trace[1..] + [e];
      RunAppends(Step(s, trace[0]), HoldClock(s, t, trace[0]), trace[1..], e);
    }
  }

  lemma ReachesNext(s: State, t: Time, e: Event)
    requires Reachable(s, t) && Enabled(s, e) && (e.op.Webhook? ==> t <= e.now)
    ensures Reachable(Step(s, e), HoldClock(s, t, e))
  {
    var t0, trace :| Run(EMPTY, t0, trace) && s == Exec(EMPTY, trace) && t == LastHoldClock(EMPTY, t0, trace);
    hide Run, Exec, LastHoldClock, Enabled, Step, HoldClock;
    RunAppends(EMPTY, t0, trace, e);
  }

  /** No scan in the run presents the code. */
  predicate Unscanned(trace: seq<Event>, code: string) {
    forall i | 0 <= i < |trace| && trace[i].op.CheckIn? :: trace[i].op.code != code
  }

  lemma {:induction false} IssuedStays(s: State, t: Time, trace: seq<Event>, k: ItemKey)
    requires Reachable(s, t) && Run(s, t, trace) && k in s.tickets && s.tickets[k].status == TicketIssued
    requires Unscanned(trace, s.tickets[k].code)
    ensures Reachable(Exec(s, trace), LastHoldClock(s, t, trace))
    ensures k in Exec(s, trace).tickets && Exec(s, trace).tickets[k] == s.tickets[k]
    decreases |trace|
  {
    if trace != [] {
      var e, rest := trace[0], trace[1..];
      assert forall i | 0 <= i < |rest| :: rest[i] == trace[i + 1];
      hide Reachable, Step, Enabled, HoldClock, Pays;
      ReachesNext(s, t, e);
      TicketTransitions(s, t, e, k);
      IssuedStays(Step(s, e), HoldClock(s, t, e), rest, k);
    }
  }

  /** Every item of an order has its ticket from the moment the order is paid, and however many scans of
      other codes and whatever else comes in between, the first scan of that ticket admits. */
  lemma FirstScanAdmits(s: State, t: Time, e: Event, o: Id, x: Id, trace: seq<Event>, admin: Id, now: Time)
    requires Reachable(s, t) && Pays(s, e, o) && t <= e.now && x in s.orders[o].items
    requires Run(Step(s, e), t, trace) && Unscanned(trace, e.op.codes(x))
    ensures CheckInStep(Exec(Step(s, e), trace), e.op.codes(x), admin, now).1 == Done(ItemKey(o, x))
  {
    var k := ItemKey(o, x);
    hide Reachable, Inv, Step, Run, Exec, LastHoldClock, FreshCodes;
    ReachableIsSafe(s, t);
    assert Enabled(s, e) && HoldClock(s, t, e) == t;
    UnpaidHasNoTickets(s, t, o);
    TicketTransitions(s, t, e, k);
    ReachesNext(s, t, e);
    IssuedStays(Step(s, e), t, trace, k);
    ScanAnswersIff(Exec(Step(s, e), trace), LastHoldClock(Step(s, e), t, trace), e.op.codes(x), admin, now);
  }

  // ----- from the hold to the door

  /** A hold, the quote for it, the provider's reply saved, and the news of the payment, one after the
      other and in time. */
  ghost predicate Purchase(s: State, t: Time, hold: Event, ask: Event, save: Event, pay: Event) {
    && hold.op.PlaceHold? && Grants(s, hold.op, hold.now)
    && Uuid.Parse(hold.op.showtime).Some? && AllParse(hold.op.seatIds)
    && ask.op == RequestIntent(hold.op.id, hold.op.user) && ask.now < hold.op.expiresAt
    && save.op.SaveIntent? && Valid(save.op.reply, save.op.provider)
    && save.op.request ==
         IntentRequest(hold.op.id, Totals.PricesOf(s.seats, Parsed(hold.op.seatIds)), ask.now)
    && pay.op.Webhook? && pay.op.event.status == WebhookSucceeded && IsNew(s, pay.op.event)
    && KeyOf(pay.op.event) == PaymentKey(save.op.reply.provider, save.op.reply.reference)
    && KeyOf(pay.op.event) !in s.payments
    && HoldClock(s, t, hold) <= pay.now < hold.op.expiresAt
    && (forall x, y | x in Parsed(hold.op.seatIds) && y in Parsed(hold.op.seatIds) && x != y ::
          pay.op.codes(x) != pay.op.codes(y))
    && (forall x, k | x in Parsed(hold.op.seatIds) && k in s.tickets :: s.tickets[k].code != pay.op.codes(x))
  }

  ghost function AfterPurchase(s: State, hold: Event, ask: Event, save: Event, pay: Event): State {
    Step(Step(Step(Step(s, hold), ask), save), pay)
  }

  lemma HoldPart(s: State, t: Time, hold: Event)
    requires Reachable(s, t) && hold.op.PlaceHold? && Grants(s, hold.op, hold.now)
    ensures Uuid.Parse(hold.op.showtime).Some? && AllParse(hold.op.seatIds)
    ensures var s1, o := Step(s, hold), hold.op.id;
      && Reachable(s1, HoldClock(s, t, hold))
      && s1.payments == s.payments && s1.tickets == s.tickets && s1.webhooks == s.webhooks && s1.issued == s.issued
      && Pending(s1.orders, o) && s1.orders[o].user == hold.op.user && s1.orders[o].expiresAt == hold.op.expiresAt
      && s1.orders[o].items.Keys == Elements(Parsed(hold.op.seatIds))
      && (forall x | x in Parsed(hold.op.seatIds) :: x in s1.seats && HeldBy(s1.seats[x], o))
      && (forall k | k in s1.payments :: s1.payments[k].order != o)
      && OrderTotal(s1.orders[o].items) == Totals.PricesOf(s.seats, Parsed(hold.op.seatIds))
  {
    ReachesNext(s, t, hold);
    ReachableIsSafe(s, t);
    NewOrderUnpaid(s, t, hold.op.id);
    hide Reachable, Inv, PlaceHoldStep, Grants, HoldSeats, FreeForHold, OrderTotal, Totals.PricesOf, Parsed;
    GrantCases(s, hold.op, hold.now);
    Holds.FreshHoldEffect(s, hold.op, hold.now);
    Totals.GrantedTotal(s, hold.op, hold.now);
    forall x | x in Parsed(hold.op.seatIds) ensures x in Elements(Parsed(hold.op.seatIds)) {}
  }

  lemma NewOrderUnpaid(s: State, t: Time, o: Id)
    requires Inv(s, t)
    ensures o !in s.orders ==> forall k | k in s.payments :: s.payments[k].order != o
  {
    assert PaymentInv(s.orders, s.payments);
    hide Inv;
  }

  lemma AskPart(s1: State, t1: Time, ask: Event, o: Id, user: Id)
    requires Reachable(s1, t1) && ask.op == RequestIntent(o, user) && Payable(s1.orders, o, ask.now)
    requires s1.orders[o].user == user && forall k | k in s1.payments :: s1.payments[k].order != o
    ensures Reachable(Step(s1, ask), t1)
    ensures Step(s1, ask) == s1.(issued := s1.issued + {IntentRequest(o, OrderTotal(s1.orders[o].items), ask.now)})
  {
    ReachesNext(s1, t1, ask);
    hide Reachable, OrderTotal;
  }

  lemma SavePart(s2: State, t1: Time, save: Event, o: Id, k: PaymentKey)
    requires Reachable(s2, t1) && save.op.SaveIntent? && Valid(save.op.reply, save.op.provider)
    requires save.op.request in s2.issued && save.op.request.order == o && Payable(s2.orders, o, save.op.request.asOf)
    requires k == PaymentKey(save.op.reply.provider, save.op.reply.reference) && k !in s2.payments
    requires forall j | j in s2.payments :: s2.payments[j].order != o
    ensures Reachable(Step(s2, save), t1)
    ensures Step(s2, save) == s2.(payments := s2.payments[k := Payment(o, PaymentPending, save.op.reply.amount, None)])
  {
    ReachesNext(s2, t1, save);
    hide Reachable;
    SaveAnswersIff(s2, t1, save.op.request, save.op.provider, save.op.reply);
  }

  lemma PayPart(s3: State, t1: Time, pay: Event, o: Id, x: Id)
    requires Reachable(s3, t1) && Pays(s3, pay, o) && t1 <= pay.now
    requires x in s3.orders[o].items && x in s3.seats && HeldBy(s3.seats[x], o)
    ensures var s4 := Step(s3, pay);
      && Reachable(s4, t1) && IsPaid(s4.orders, o)
      && x in s4.seats && s4.seats[x].status == SeatSold
      && ItemKey(o, x) in s4.tickets && s4.tickets[ItemKey(o, x)] == Ticket(pay.op.codes(x), TicketIssued, None)
  {
    hide Reachable, Inv, Step, FreshCodes;
    ReachableIsSafe(s3, t1);
    assert Enabled(s3, pay) && HoldClock(s3, t1, pay) == t1;
    ReachesNext(s3, t1, pay);
    OrderTransitions(s3, t1, pay, o);
    SeatTransitions(s3, t1, pay, x);
    TicketTransitions(s3, t1, pay, ItemKey(o, x));
    UnpaidHasNoTickets(s3, t1, o);
  }

  /** A granted hold can be turned into seats and tickets: quoted at the price of the hold, paid for in
      time, its order is PAID, each of its seats is sold, and the code of each admits a visitor. */
  lemma HoldsCanBePaidFor(s: State, t: Time, hold: Event, ask: Event, save: Event, pay: Event, x: Id, admin: Id,
                          now: Time)
    requires Reachable(s, t) && Purchase(s, t, hold, ask, save, pay) && x in Parsed(hold.op.seatIds)
    ensures var end, o := AfterPurchase(s, hold, ask, save, pay), hold.op.id;
      && IsPaid(end.orders, o) && x in end.seats && end.seats[x].status == SeatSold
      && CheckInStep(end, pay.op.codes(x), admin, now).1 == Done(ItemKey(o, x))
  {
    hide Reachable, Step, Parsed, OrderTotal, Totals.PricesOf, Grants, HoldClock;
    var o, t1 := hold.op.id, HoldClock(s, t, hold);
    HoldPart(s, t, hold);
    var s1 := Step(s, hold);
    AskPart(s1, t1, ask, o, hold.op.user);
    var s2 := Step(s1, ask);
    SavePart(s2, t1, save, o, KeyOf(pay.op.event));
    var s3 := Step(s2, save);
    assert x in Elements(Parsed(hold.op.seatIds));
    PaysFor(s3, pay, o, Parsed(hold.op.seatIds));
    PayPart(s3, t1, pay, o, x);
    ScanAnswersIff(Step(s3, pay), t1, pay.op.codes(x), admin, now);
  }

  lemma PaysFor(s3: State, pay: Event, o: Id, ids: seq<Id>)
    requires Succeeds(s3, pay, o) && Payable(s3.orders, o, pay.now) && s3.orders[o].items.Keys == Elements(ids)
    requires forall x, y | x in ids && y in ids && x != y :: pay.op.codes(x) != pay.op.codes(y)
    requires forall x, k | x in ids && k in s3.tickets :: s3.tickets[k].code != pay.op.codes(x)
    ensures Pays(s3, pay, o)
  {
    forall x ensures x in s3.orders[o].items <==> x in ids { assert x in Elements(ids) <==> x in ids; }
  }
}
