/** Reordered and repeated provider events. */
module Webhooks {
  import opened Acceptance
  import opened Common
  import opened Store
  import opened Machine
  import opened SeatSafety
  import opened MoneySafety
  import opened Safety
  import opened Stability
  import Theorems

  // ----- duplicates

  lemma {:induction false} ExecConcat(s: State, a: seq<Event>, b: seq<Event>)
    ensures Exec(s, a + b) == Exec(Exec(s, a), b)
    decreases |a|
  {
    if a == [] {
      assert a + b == b;
    } else {
      assert (a + b)[1..] == a[1..] + b;
      ExecConcat(Step(s, a[0]), a[1..], b);
    }
  }

  lemma AcceptedIsRecorded(s: State, e: Event)
    requires e.op.Webhook? && WebhookStep(s, e.op.event, e.now, e.op.codes).1.Done?
    ensures (e.op.event.provider, e.op.event.eventId) in Step(s, e).webhooks
  {
    hide UniqueCodes, IssueTickets, SetOrders, SellSeats, ReleaseSeats, SettlePayments;
  }

  lemma ExecFirst(s: State, e: Event, rest: seq<Event>)
    ensures Exec(s, [e] + rest) == Exec(Step(s, e), rest)
  {
    assert ([e] + rest)[1..] == rest;
    hide Step;
  }

  lemma SkipIdle(s: State, a: seq<Event>, e: Event, b: seq<Event>)
    requires Step(Exec(s, a), e) == Exec(s, a)
    ensures Exec(s, a + [e] + b) == Exec(s, a + b)
  {
    hide *;
    assert a + [e] + b == a + ([e] + b);
    ExecConcat(s, a, [e] + b);
    ExecFirst(Exec(s, a), e, b);
    ExecConcat(s, a, b);
  }

  lemma RecordedIsIdle(s: State, e: Event)
    requires e.op.Webhook? && (e.op.event.provider, e.op.event.eventId) in s.webhooks
    ensures Step(s, e) == s
  {
  }

  lemma WebhooksStayRecorded(s: State, s': State)
    requires Persists(s, s')
    ensures s.webhooks <= s'.webhooks
  {
    hide OrdersPersist, SalesPersist, PaymentsPersist, TicketsPersist, DeliveriesPersist;
  }

  lemma RedeliveryIsIdle(s: State, t: Time, first: Event, a: seq<Event>, again: Event)
    requires Reachable(s, t) && first.op.Webhook? && again.op.Webhook? && t <= first.now
    requires forall o :: !Collides(s, first, o)
    requires (again.op.event.provider, again.op.event.eventId) == (first.op.event.provider, first.op.event.eventId)
    requires Run(Step(s, first), t, a)
    ensures Step(Exec(Step(s, first), a), again) == Exec(Step(s, first), a)
  {
    hide Reachable, Inv, Run, Exec, Step, WebhookStep, Persists;
    ReachableIsSafe(s, t);
    StepKeeps(s, t, first);
    AcceptedIff(s, t, first);
    AcceptedIsRecorded(s, first);
    RunPersists(Step(s, first), t, a);
    WebhooksStayRecorded(Step(s, first), Exec(Step(s, first), a));
    RecordedIsIdle(Exec(Step(s, first), a), again);
  }

  /** Dropping a redelivered event, whatever it claims and whenever it arrives, changes no run. */
  lemma DuplicatesChangeNothing(s: State, t: Time, first: Event, a: seq<Event>, again: Event, b: seq<Event>)
    requires Reachable(s, t) && first.op.Webhook? && again.op.Webhook? && t <= first.now
    requires forall o :: !Collides(s, first, o)
    requires (again.op.event.provider, again.op.event.eventId) == (first.op.event.provider, first.op.event.eventId)
    requires Run(Step(s, first), t, a)
    ensures Exec(s, [first] + a + [again] + b) == Exec(s, [first] + a + b)
  {
    hide *;
    RedeliveryIsIdle(s, t, first, a, again);
    ExecFirst(s, first, a);
    SkipIdle(s, [first] + a, again, b);
  }

  /** An event that names no stored payment is recorded and does nothing else; redelivered after
      its payment was saved, it still does nothing. */
  lemma EarlyEventIsSwallowed(s: State, t: Time, first: Event, a: seq<Event>, again: Event)
    requires Reachable(s, t) && first.op.Webhook? && again.op.Webhook? && t <= first.now
    requires PaymentKey(first.op.event.provider, first.op.event.reference) !in s.payments
    requires (again.op.event.provider, again.op.event.eventId) == (first.op.event.provider, first.op.event.eventId)
    requires Run(Step(s, first), t, a)
    ensures Step(s, first) == s.(webhooks := s.webhooks + {(first.op.event.provider, first.op.event.eventId)})
    ensures Step(Exec(Step(s, first), a), again) == Exec(Step(s, first), a)
  {
    hide Reachable, Run, Exec, Succeed, Payable, FreshCodes;
    RedeliveryIsIdle(s, t, first, a, again);
  }

  // ----- order of arrival

  /** The payment status after one more event that arrives before the order expires. */
  function After(st: PaymentStatus, status: WebhookStatus): PaymentStatus {
    match status
    case WebhookSucceeded => PaymentSucceeded
    case WebhookFailed => if st == PaymentPending then PaymentFailed else st
    case WebhookExpired => if st == PaymentPending then PaymentExpired else st
  }

  function Verdict(st: PaymentStatus, statuses: seq<WebhookStatus>): PaymentStatus
    decreases |statuses|
  {
    if statuses == [] then st else Verdict(After(st, statuses[0]), statuses[1..])
  }

  /** A success anywhere decides; without one, the first event does. */
  lemma {:induction false} VerdictIsSuccessOrFirst(st: PaymentStatus, statuses: seq<WebhookStatus>)
    ensures Verdict(st, statuses) ==
      if st == PaymentSucceeded || WebhookSucceeded in statuses then PaymentSucceeded
      else if st != PaymentPending || statuses == [] then st
      else if statuses[0] == WebhookFailed then PaymentFailed else PaymentExpired
    decreases |statuses|
  {
    if statuses != [] {
      VerdictIsSuccessOrFirst(After(st, statuses[0]), statuses[1..]);
      assert WebhookSucceeded in statuses <==> statuses[0] == WebhookSucceeded || WebhookSucceeded in statuses[1..];
    }
  }

  /** The order and its payment agree on `st` while the order can still be paid. */
  ghost predicate Standing(s: State, k: PaymentKey, o: Id, st: PaymentStatus, expiresAt: Time) {
    && k in s.payments && s.payments[k].order == o && s.payments[k].status == st
    && o in s.orders && s.orders[o].expiresAt == expiresAt
    && s.orders[o].status == (if st == PaymentSucceeded then Paid else PendingPayment)
    && st != PaymentRefundPending
  }

  /** A new event for the payment; one that would pay its order but for a ticket code that is taken is
      rolled back and does not count. */
  ghost predicate Counts(s: State, k: PaymentKey, e: Event) {
    && e.op.Webhook? && PaymentKey(e.op.event.provider, e.op.event.reference) == k
    && IsNew(s, e.op.event) && forall o :: !Collides(s, e, o)
  }

  /** Its user cancels the order in time, or an expiry takes it. */
  ghost predicate Ends(s: State, e: Event, o: Id) {
    || (e.op.CancelOrder? && e.op.order == o && Payable(s.orders, o, e.now) && s.orders[o].user == e.op.user)
    || (e.op.ExpirePendingHolds? && o in e.op.batch)
  }

  /** Anything may happen meanwhile, except that the order is ended otherwise and that an event for
      its payment counts after its expiry. */
  ghost predicate Undisturbed(s: State, k: PaymentKey, o: Id, expiresAt: Time, trace: seq<Event>)
    decreases |trace|
  {
    trace == [] ||
    (var e := trace[0];
     && (Counts(s, k, e) ==> e.now < expiresAt)
     && !Ends(s, e, o)
     && Undisturbed(Step(s, e), k, o, expiresAt, trace[1..]))
  }

  /** The events that count, in order. */
  ghost function Arrivals(s: State, k: PaymentKey, trace: seq<Event>): seq<WebhookStatus>
    decreases |trace|
  {
    if trace == [] then [] else
      (if Counts(s, k, trace[0]) then [trace[0].op.event.status] else []) + Arrivals(Step(s, trace[0]), k, trace[1..])
  }

  lemma CountedStep(s: State, t: Time, k: PaymentKey, o: Id, st: PaymentStatus, expiresAt: Time, e: Event)
    requires Inv(s, t) && Standing(s, k, o, st, expiresAt) && Counts(s, k, e) && e.now < expiresAt
    ensures Standing(Step(s, e), k, o, After(st, e.op.event.status), expiresAt)
  {
    hide Inv, Step, FreshCodes, IssueTickets, SellSeats, ReleaseSeats;
    assert !Collides(s, e, o);
    if e.op.event.status == WebhookSucceeded { SuccessCases(s, t, e); } else { DeclineCases(s, t, e); }
  }

  /** The tables agree on everything but one order and its payments. */
  ghost predicate SameBut(s: State, s': State, o: Id) {
    && (forall p | p in s.orders && p != o :: p in s'.orders && s'.orders[p] == s.orders[p])
    && (forall k | k in s.payments && s.payments[k].order != o :: k in s'.payments && s'.payments[k] == s.payments[k])
  }

  lemma SucceedTouchesOwn(s: State, k: PaymentKey, event: WebhookEvent, now: Time, codes: Id -> string)
    requires k in s.payments && s.payments[k].order in s.orders && Succeed(s, k, event, now, codes).Some?
    ensures SameBut(s, Succeed(s, k, event, now, codes).value, s.payments[k].order)
  {
    hide Succeed;
    Theorems.SucceedCases(s, k, event, now, codes);
  }

  lemma EventTouchesOwn(s: State, e: Event)
    requires e.op.Webhook?
    ensures var k := PaymentKey(e.op.event.provider, e.op.event.reference);
      if k in s.payments then SameBut(s, Step(s, e), s.payments[k].order)
      else Step(s, e).orders == s.orders && Step(s, e).payments == s.payments
  {
    hide Succeed;
    var k := PaymentKey(e.op.event.provider, e.op.event.reference);
    var r := s.(webhooks := s.webhooks + {(e.op.event.provider, e.op.event.eventId)});
    if k in s.payments && s.payments[k].order in s.orders && Succeed(r, k, e.op.event, e.now, e.op.codes).Some? {
      SucceedTouchesOwn(r, k, e.op.event, e.now, e.op.codes);
    }
  }

  lemma UncountedOwnEvent(s: State, t: Time, e: Event, k: PaymentKey)
    requires Inv(s, t)
    requires e.op.Webhook? && PaymentKey(e.op.event.provider, e.op.event.reference) == k && !Counts(s, k, e)
    ensures Step(s, e) == s
  {
    hide Inv, Collides, WebhookStep;
    AcceptedIff(s, t, e);
    IdleCases(s, e);
  }

  /** An event that does not count for the payment leaves it and its order alone. */
  lemma OtherEventStep(s: State, t: Time, k: PaymentKey, o: Id, e: Event)
    requires Inv(s, t) && k in s.payments && s.payments[k].order == o && o in s.orders
    requires e.op.Webhook? && !Counts(s, k, e)
    ensures k in Step(s, e).payments && Step(s, e).payments[k] == s.payments[k]
    ensures o in Step(s, e).orders && Step(s, e).orders[o] == s.orders[o]
  {
    assert OnePaymentPerOrder(s.payments);
    hide Inv, Step, Counts, OnePaymentPerOrder;
    var other := PaymentKey(e.op.event.provider, e.op.event.reference);
    if other == k {
      UncountedOwnEvent(s, t, e, k);
    } else {
      EventTouchesOwn(s, e);
      if other in s.payments { DistinctOrders(s.payments, k, other); }
    }
  }

  lemma DistinctOrders(payments: map<PaymentKey, Payment>, j: PaymentKey, k: PaymentKey)
    requires OnePaymentPerOrder(payments) && j in payments && k in payments && j != k
    ensures payments[j].order != payments[k].order
  {
  }

  lemma OtherStepLeavesOrder(s: State, e: Event, o: Id)
    requires Enabled(s, e) && !e.op.Webhook? && !Ends(s, e, o) && o in s.orders
    ensures o in Step(s, e).orders && Step(s, e).orders[o] == s.orders[o]
  {
    if e.op.PlaceHold? {
      hide Grants, PlaceHoldStep, HoldSeats, NewOrder;
      GrantCases(s, e.op, e.now);
    } else if e.op.CancelOrder? || e.op.ExpirePendingHolds? {
      hide ReleaseSeats;
    } else {
      hide *;
      Theorems.OtherTablesOnly(s, e);
    }
  }

  lemma OtherStepLeavesPayment(s: State, e: Event, k: PaymentKey)
    requires !e.op.Webhook? && k in s.payments
    ensures k in Step(s, e).payments && Step(s, e).payments[k] == s.payments[k]
  {
    hide Step, HasPayment;
    if e.op.SaveIntent? { SaveIntentCases(s, e); } else { Theorems.OthersLeavePayments(s, e); }
  }

  lemma OtherStep(s: State, t: Time, k: PaymentKey, o: Id, st: PaymentStatus, expiresAt: Time, e: Event)
    requires Inv(s, t) && Enabled(s, e) && Standing(s, k, o, st, expiresAt) && !Counts(s, k, e) && !Ends(s, e, o)
    ensures Standing(Step(s, e), k, o, st, expiresAt)
  {
    hide Inv, Enabled, Counts, Ends, Step;
    if e.op.Webhook? {
      OtherEventStep(s, t, k, o, e);
    } else {
      OtherStepLeavesOrder(s, e, o);
      OtherStepLeavesPayment(s, e, k);
    }
  }

  lemma {:induction false} UndisturbedRun(s: State, t: Time, k: PaymentKey, o: Id, st: PaymentStatus, expiresAt: Time,
                                          trace: seq<Event>)
    requires Inv(s, t) && Run(s, t, trace) && Standing(s, k, o, st, expiresAt) && Undisturbed(s, k, o, expiresAt, trace)
    ensures Standing(Exec(s, trace), k, o, Verdict(st, Arrivals(s, k, trace)), expiresAt)
    decreases |trace|
  {
    if trace != [] {
      var e, rest := trace[0], trace[1..];
      StepKeeps(s, t, e);
      hide Standing, Inv, Enabled, Counts, Ends, Step, HoldClock;
      if Counts(s, k, e) {
        CountedStep(s, t, k, o, st, expiresAt, e);
        UndisturbedRun(Step(s, e), HoldClock(s, t, e), k, o, After(st, e.op.event.status), expiresAt, rest);
        assert Arrivals(s, k, trace)[1..] == Arrivals(Step(s, e), k, rest);
      } else {
        OtherStep(s, t, k, o, st, expiresAt, e);
        UndisturbedRun(Step(s, e), HoldClock(s, t, e), k, o, st, expiresAt, rest);
        assert Arrivals(s, k, trace) == Arrivals(Step(s, e), k, rest);
      }
    }
  }

  /** The arrivals decided a pending order and its payment: a success wherever it comes pays it and
      issues its tickets; without one the first failure decides and the order stays payable. */
  ghost predicate Decided(s: State, s': State, k: PaymentKey, o: Id, arrivals: seq<WebhookStatus>) {
    var success := WebhookSucceeded in arrivals;
    && o in s.orders && k in s'.payments && o in s'.orders
    && s'.orders[o] == s.orders[o].(status := if success then Paid else PendingPayment)
    && s'.payments[k].status == (if success then PaymentSucceeded
         else if arrivals == [] then PaymentPending
         else if arrivals[0] == WebhookFailed then PaymentFailed else PaymentExpired)
    && forall x: Id :: ItemKey(o, x) in s'.tickets <==> success && x in s'.orders[o].items
  }

  /** Over any run in which the order is not ended otherwise, whatever else happens in between: with
      a timely success among the events for its payment the outcome is the paid one, wherever the
      success comes; without one, the first of them decides and the order stays payable. */
  lemma ArrivalOrderOutcome(s: State, t: Time, k: PaymentKey, o: Id, expiresAt: Time, trace: seq<Event>)
    requires Reachable(s, t) && Standing(s, k, o, PaymentPending, expiresAt)
    requires Run(s, t, trace) && Undisturbed(s, k, o, expiresAt, trace)
    ensures Decided(s, Exec(s, trace), k, o, Arrivals(s, k, trace))
  {
    hide Inv, Reachable, Undisturbed, Exec, Run, Arrivals, SalesPersist, PaymentsPersist, TicketsPersist,
      DeliveriesPersist;
    ReachableIsSafe(s, t);
    UndisturbedRun(s, t, k, o, PaymentPending, expiresAt, trace);
    VerdictIsSuccessOrFirst(PaymentPending, Arrivals(s, k, trace));
    RunPersists(s, t, trace);
    RunKeeps(s, t, trace);
    TicketsFollow(Exec(s, trace), LastHoldClock(s, t, trace));
  }

  lemma TicketsFollow(s: State, t: Time)
    requires Inv(s, t)
    ensures TicketInv(s.orders, s.tickets)
  {
    hide SeatInv, KeysMatch, QuotesMatch, PaymentInv, TicketInv, OnceInv, CheckInInv;
  }

  lemma SuccessesAgree(s: State, p: State, q: State, k: PaymentKey, o: Id, a: seq<WebhookStatus>, b: seq<WebhookStatus>)
    requires Decided(s, p, k, o, a) && Decided(s, q, k, o, b) && WebhookSucceeded in a && WebhookSucceeded in b
    ensures o in p.orders && o in q.orders && p.orders[o] == q.orders[o]
    ensures k in p.payments && k in q.payments && p.payments[k].status == q.payments[k].status == PaymentSucceeded
    ensures forall x: Id :: ItemKey(o, x) in p.tickets <==> ItemKey(o, x) in q.tickets
  {
  }

  /** Two runs in which the same events count for the payment, a success among them, end with the
      same order, payment status and tickets, in whatever order the events came and whatever else
      the runs did. */
  lemma PermutedEventsAgree(s: State, t: Time, k: PaymentKey, o: Id, expiresAt: Time, a: seq<Event>, b: seq<Event>)
    requires Reachable(s, t) && Standing(s, k, o, PaymentPending, expiresAt)
    requires Run(s, t, a) && Undisturbed(s, k, o, expiresAt, a) && Run(s, t, b) && Undisturbed(s, k, o, expiresAt, b)
    requires multiset(Arrivals(s, k, a)) == multiset(Arrivals(s, k, b)) && WebhookSucceeded in Arrivals(s, k, a)
    ensures var p, q := Exec(s, a), Exec(s, b);
      && o in p.orders && o in q.orders && p.orders[o] == q.orders[o]
      && k in p.payments && k in q.payments && p.payments[k].status == q.payments[k].status == PaymentSucceeded
      && forall x: Id :: ItemKey(o, x) in p.tickets <==> ItemKey(o, x) in q.tickets
  {
    hide *;
    assert WebhookSucceeded in multiset(Arrivals(s, k, a));
    assert WebhookSucceeded in multiset(Arrivals(s, k, b));
    ArrivalOrderOutcome(s, t, k, o, expiresAt, a);
    ArrivalOrderOutcome(s, t, k, o, expiresAt, b);
    SuccessesAgree(s, Exec(s, a), Exec(s, b), k, o, Arrivals(s, k, a), Arrivals(s, k, b));
  }

  // ----- runs that leave the order alone

  /** An expiry round before the order's expiry does not take it. */
  lemma EarlyRoundSpares(s: State, e: Event, o: Id)
    requires Enabled(s, e) && e.op.ExpirePendingHolds? && o in s.orders && e.now < s.orders[o].expiresAt
    ensures !Ends(s, e, o)
  {
  }

  /** Read off the step alone: it does not cancel the order, and if it is an expiry round or an
      event for the payment, it comes before the order's expiry. */
  predicate Spares(e: Event, k: PaymentKey, o: Id, expiresAt: Time) {
    && !(e.op.CancelOrder? && e.op.order == o)
    && (e.op.ExpirePendingHolds? ==> e.now < expiresAt)
    && (e.op.Webhook? && PaymentKey(e.op.event.provider, e.op.event.reference) == k ==> e.now < expiresAt)
  }

  lemma SparedStep(s: State, k: PaymentKey, o: Id, st: PaymentStatus, expiresAt: Time, e: Event)
    requires Enabled(s, e) && Standing(s, k, o, st, expiresAt) && Spares(e, k, o, expiresAt)
    ensures (Counts(s, k, e) ==> e.now < expiresAt) && !Ends(s, e, o)
  {
    hide WebhookStep, CancelStep;
    if e.op.ExpirePendingHolds? { EarlyRoundSpares(s, e, o); }
  }

  lemma {:induction false} SparedIsUndisturbed(s: State, t: Time, k: PaymentKey, o: Id, st: PaymentStatus,
                                               expiresAt: Time, trace: seq<Event>)
    requires Inv(s, t) && Run(s, t, trace) && Standing(s, k, o, st, expiresAt)
    requires forall i | 0 <= i < |trace| :: Spares(trace[i], k, o, expiresAt)
    ensures Undisturbed(s, k, o, expiresAt, trace)
    decreases |trace|
  {
    if trace != [] {
      var e, rest := trace[0], trace[1..];
      assert forall i | 0 <= i < |rest| :: rest[i] == trace[i + 1];
      SparedStep(s, k, o, st, expiresAt, e);
      StepKeeps(s, t, e);
      hide Standing, Inv, Enabled, Counts, Ends, Step, HoldClock, Spares;
      if Counts(s, k, e) {
        CountedStep(s, t, k, o, st, expiresAt, e);
        SparedIsUndisturbed(Step(s, e), HoldClock(s, t, e), k, o, After(st, e.op.event.status), expiresAt, rest);
      } else {
        OtherStep(s, t, k, o, st, expiresAt, e);
        SparedIsUndisturbed(Step(s, e), HoldClock(s, t, e), k, o, st, expiresAt, rest);
      }
    }
  }

  /** So do the arrivals of any run that does not cancel the order and whose expiry rounds and events
      of the payment all come before its expiry. */
  lemma SparedOrderOutcome(s: State, t: Time, k: PaymentKey, o: Id, expiresAt: Time, trace: seq<Event>)
    requires Reachable(s, t) && Standing(s, k, o, PaymentPending, expiresAt) && Run(s, t, trace)
    requires forall i | 0 <= i < |trace| :: Spares(trace[i], k, o, expiresAt)
    ensures Decided(s, Exec(s, trace), k, o, Arrivals(s, k, trace))
  {
    hide *;
    ReachableIsSafe(s, t);
    SparedIsUndisturbed(s, t, k, o, PaymentPending, expiresAt, trace);
    ArrivalOrderOutcome(s, t, k, o, expiresAt, trace);
  }
}
