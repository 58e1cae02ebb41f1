/** The in-memory payment repository: one payment per order, and a webhook handler that looks for
    its payment by iterating over a map in no particular order. */
module PaymentsMemory {
  import opened Common
  import opened Text
  import Webhooks

  datatype Item = Item(id: string, price: string, currency: string)

  datatype Ticket = Ticket(item: string, code: string)

  datatype Order = Order(user: string, status: OrderStatus, expiresAt: int, items: seq<Item>, tickets: seq<Ticket>)

  datatype Payment = Payment(provider: string, reference: string, status: PaymentStatus,
                             amount: string, currency: string,
                             paidAt: Option<int>)

  datatype Intent = Intent(provider: string, reference: string, status: PaymentStatus, amount: string, currency: string)

  datatype IntentRequest = IntentRequest(order: string, amount: string, currency: string, key: string)

  datatype Error = OrderNotFound | OrderNotPayable | OrderExpired | PaymentNotFound

  datatype Outcome<+T> = Done(value: T) | Refused(error: Error)

  datatype Prepared = Existing(intent: Intent) | Request(request: IntentRequest)

  datatype State = State(orders: map<string, Order>, payments: map<string, Payment>, events: set<string>)

  // ----- specification

  function IntentOf(p: Payment): Intent {
    Intent(p.provider, p.reference, p.status, p.amount, p.currency)
  }

  function PaymentOf(i: Intent): Payment {
    Payment(i.provider, i.reference, i.status, i.amount, i.currency, None)
  }

  /** The price of the first item only. */
  function PaymentAmount(items: seq<Item>): (string, string) {
    if items == [] then ("0.00", "") else (items[0].price, items[0].currency)
  }

  function Prepare(s: State, order: string, user: string, now: int): Outcome<Prepared> {
    if order !in s.orders || s.orders[order].user != user then Refused(OrderNotFound)
    else if order in s.payments then Done(Existing(IntentOf(s.payments[order])))
    else if s.orders[order].status != PendingPayment then Refused(OrderNotPayable)
    else if s.orders[order].expiresAt <= now then Refused(OrderExpired)
    else
      var (amount, currency) := PaymentAmount(s.orders[order].items);
      Done(Request(IntentRequest(order, amount, currency, "payment-intent-" + order)))
  }

  function SaveOutcome(s: State, intent: Intent, order: string, now: int): Outcome<Intent> {
    if order in s.payments then Done(IntentOf(s.payments[order]))
    else if order !in s.orders then Refused(OrderNotFound)
    else if s.orders[order].status != PendingPayment then Refused(OrderNotPayable)
    else if s.orders[order].expiresAt <= now then Refused(OrderExpired)
    else Done(intent)
  }

  function AfterSave(s: State, intent: Intent, order: string, now: int): State {
    if order in s.payments || SaveOutcome(s, intent, order, now).Refused? then s
    else s.(payments := s.payments[order := PaymentOf(intent)])
  }

  predicate Matches(p: Payment, event: WebhookEvent) {
    p.provider == event.provider && p.reference == event.reference
  }

  function TicketsFor(items: seq<Item>): (tickets: seq<Ticket>)
    ensures |tickets| == |items|
  {
    seq(|items|, i requires 0 <= i < |items| => Ticket(items[i].id, "TKT-" + items[i].id))
  }

  /** What the event does to the order it was found to belong to. An order that the repository
      does not know has no status; it is left alone here because a payment always has its order. */
  function Settle(s: State, order: string, event: WebhookEvent, now: int): State
    requires order in s.orders && order in s.payments
  {
    var o, p := s.orders[order], s.payments[order];
    match event.status
    case WebhookSucceeded =>
      if o.status == Paid || p.status == PaymentSucceeded then s
      else if o.status != PendingPayment || o.expiresAt <= now then
        s.(orders := s.orders[order := if o.status == PendingPayment then o.(status := Expired) else o],
           payments := s.payments[order := p.(status := PaymentRefundPending, paidAt := Some(event.occurredAt))])
      else
        s.(orders := s.orders[order := o.(status := Paid, tickets := o.tickets + TicketsFor(o.items))],
           payments := s.payments[order := p.(status := PaymentSucceeded, paidAt := Some(event.occurredAt))])
    case WebhookFailed =>
      if p.status == PaymentPending then s.(payments := s.payments[order := p.(status := PaymentFailed)]) else s
    case WebhookExpired =>
      if p.status == PaymentPending then s.(payments := s.payments[order := p.(status := PaymentExpired)]) else s
  }

  function EventKey(event: WebhookEvent): string {
    Joined(event.provider, event.eventId)
  }

  /** The possible results of handling an event: the map iteration may meet any matching payment. */
  ghost predicate Handles(s: State, event: WebhookEvent, now: int, t: State, outcome: Outcome<()>) {
    if EventKey(event) in s.events then t == s && outcome == Done(())
    else if !exists o :: o in s.payments && Matches(s.payments[o], event) then
      t == s && outcome == Refused(PaymentNotFound)
    else outcome == Done(()) && exists o :: o in s.payments && o in s.orders && Matches(s.payments[o], event)
                                  && t == Settle(s.(events := s.events + {EventKey(event)}), o, event, now)
  }

  ghost predicate PaymentsHaveOrders(s: State) {
    s.payments.Keys <= s.orders.Keys
  }

  // ----- the code

  class MemoryRepository {
    var orders: map<string, Order>
    var payments: map<string, Payment>
    var webhookEvents: set<string>

    ghost function View(): State
      reads this
    {
      State(orders, payments, webhookEvents)
    }

    constructor (initial: map<string, Order>)
      ensures View() == State(initial, map[], {})
    {
      orders, payments, webhookEvents := initial, map[], {};
    }

    method PaymentIntentRequest(orderID: string, userID: string, now: int) returns (r: Outcome<Prepared>)
      ensures r == Prepare(View(), orderID, userID, now)
    {
      if orderID !in orders || orders[orderID].user != userID { return Refused(OrderNotFound); }
      var order := orders[orderID];
      if orderID in payments { return Done(Existing(IntentOf(payments[orderID]))); }
      if order.status != PendingPayment { return Refused(OrderNotPayable); }
      if !(order.expiresAt > now) { return Refused(OrderExpired); }
      var (amount, currency) := PaymentAmount(order.items);
      return Done(Request(IntentRequest(orderID, amount, currency, "payment-intent-" + orderID)));
    }

    method SavePaymentIntent(intent: Intent, orderID: string, now: int) returns (r: Outcome<Intent>)
      modifies this`payments
      ensures r == SaveOutcome(old(View()), intent, orderID, now)
      ensures View() == AfterSave(old(View()), intent, orderID, now)
    {
      if orderID in payments { return Done(IntentOf(payments[orderID])); }
      if orderID !in orders { return Refused(OrderNotFound); }
      var order := orders[orderID];
      if order.status != PendingPayment { return Refused(OrderNotPayable); }
      if !(order.expiresAt > now) { return Refused(OrderExpired); }
      payments := payments[orderID := PaymentOf(intent)];
      return Done(intent);
    }

    method ProcessWebhookEvent(event: WebhookEvent, now: int) returns (r: Outcome<()>)
      requires PaymentsHaveOrders(View())
      modifies this
      ensures Handles(old(View()), event, now, View(), r)
    {
      var key := event.provider + "\0" + event.eventId;
      if key in webhookEvents { return Done(()); }
      var todo := payments.Keys;
      while todo != {}
        invariant todo <= payments.Keys && View() == old(View())
        invariant forall o | o in payments && o !in todo :: !Matches(payments[o], event)
        decreases |todo|
      {
        var orderID :| orderID in todo;
        var payment := payments[orderID];
        todo := todo - {orderID};
        if payment.provider != event.provider || payment.reference != event.reference { continue; }
        webhookEvents := webhookEvents + {key};
        SettleFound(orderID, event, now);
        return Done(());
      }
      return Refused(PaymentNotFound);
    }

    /** The switch on the event's status. */
    method SettleFound(orderID: string, event: WebhookEvent, now: int)
      requires orderID in orders && orderID in payments
      modifies this`orders, this`payments
      ensures View() == Settle(old(View()), orderID, event, now)
    {
      var order, payment := orders[orderID], payments[orderID];
      match event.status {
        case WebhookSucceeded =>
          if order.status == Paid || payment.status == PaymentSucceeded { return; }
          if order.status != PendingPayment || !(order.expiresAt > now) {
            if order.status == PendingPayment { order := order.(status := Expired); }
            orders := orders[orderID := order];
            payment := payment.(status := PaymentRefundPending, paidAt := Some(event.occurredAt));
            payments := payments[orderID := payment];
            return;
          }
          var tickets := order.tickets;
          for i := 0 to |order.items|
            invariant tickets == order.tickets + TicketsFor(order.items)[..i]
          {
            tickets := tickets + [Ticket(order.items[i].id, "TKT-" + order.items[i].id)];
            assert TicketsFor(order.items)[..i + 1] == TicketsFor(order.items)[..i] + [TicketsFor(order.items)[i]];
          }
          assert TicketsFor(order.items)[..|order.items|] == TicketsFor(order.items);
          orders := orders[orderID := order.(status := Paid, tickets := tickets)];
          payments := payments[orderID := payment.(status := PaymentSucceeded, paidAt := Some(event.occurredAt))];
        case WebhookFailed =>
          if payment.status == PaymentPending { payments := payments[orderID := payment.(status := PaymentFailed)]; }
        case WebhookExpired =>
          if payment.status == PaymentPending { payments := payments[orderID := payment.(status := PaymentExpired)]; }
      }
    }
  }

  // ----- determinism

  ghost predicate UniqueReferences(s: State) {
    forall a, b | a in s.payments && b in s.payments
      && s.payments[a].provider == s.payments[b].provider && s.payments[a].reference == s.payments[b].reference ::
        a == b
  }

  /** References of the local provider name their order. */
  ghost predicate NamedAfterOrders(s: State, provider: string) {
    forall o | o in s.payments :: s.payments[o].provider == provider && s.payments[o].reference == "fake-" + o
  }

  lemma NamedReferencesAreUnique(s: State, provider: string)
    requires NamedAfterOrders(s, provider)
    ensures UniqueReferences(s)
  {
    forall a, b | a in s.payments && b in s.payments && s.payments[a].reference == s.payments[b].reference
      ensures a == b
    {
      assert a == ("fake-" + a)[5..] && b == ("fake-" + b)[5..];
    }
  }

  /** Saving what the local provider answers, and handling events, keep references named so. */
  lemma StepKeepsNames(s: State, op: Op, provider: string)
    requires NamedAfterOrders(s, provider) && Enabled(s, op)
    requires op.Save? ==> op.intent.provider == provider && op.intent.reference == "fake-" + op.order
    ensures NamedAfterOrders(Step(s, op), provider)
  {
  }

  /** Unique references leave an event a single result. */
  lemma HandlingIsDeterministic(s: State, event: WebhookEvent, now: int)
    requires UniqueReferences(s)
    ensures SingleValued(s, event, now)
  {
  }

  function PaymentFor(s: State, order: string): Option<Payment> {
    if order in s.payments then Some(s.payments[order]) else None
  }

  lemma SettleTouchesOwn(s: State, order: string, event: WebhookEvent, now: int)
    requires order in s.orders && order in s.payments
    ensures var t := Settle(s, order, event, now);
      && t.orders.Keys == s.orders.Keys && t.payments.Keys == s.payments.Keys
      && forall o | o in s.orders && o != order :: t.orders[o] == s.orders[o] && PaymentFor(t, o) == PaymentFor(s, o)
  {
  }

  /** The event changes neither the order nor its payment. */
  predicate NoEffect(o: Order, p: Payment, event: WebhookEvent, now: int) {
    match event.status
    case WebhookSucceeded =>
      || o.status == Paid || p.status == PaymentSucceeded
      || (o.status != PendingPayment && p.status == PaymentRefundPending && p.paidAt == Some(event.occurredAt))
    case WebhookFailed => p.status != PaymentPending
    case WebhookExpired => p.status != PaymentPending
  }

  lemma NoEffectIff(s: State, o: string, event: WebhookEvent, now: int)
    requires o in s.orders && o in s.payments
    ensures NoEffect(s.orders[o], s.payments[o], event, now) <==>
      Settle(s, o, event, now).orders[o] == s.orders[o] && Settle(s, o, event, now).payments[o] == s.payments[o]
    ensures NoEffect(s.orders[o], s.payments[o], event, now) ==> Settle(s, o, event, now) == s
  {
    assert s.orders[o := s.orders[o]] == s.orders && s.payments[o := s.payments[o]] == s.payments;
  }

  /** Whatever order the map is iterated in, the event has one result. */
  ghost predicate SingleValued(s: State, event: WebhookEvent, now: int) {
    forall t, r, t', r' | Handles(s, event, now, t, r) && Handles(s, event, now, t', r') :: t == t' && r == r'
  }

  function Matching(s: State, event: WebhookEvent): set<string> {
    set o | o in s.payments && Matches(s.payments[o], event)
  }

  lemma TwoResults(s: State, event: WebhookEvent, now: int, a: string, b: string)
    requires PaymentsHaveOrders(s) && EventKey(event) !in s.events && a != b
    requires a in Matching(s, event) && b in Matching(s, event) && !NoEffect(s.orders[a], s.payments[a], event, now)
    ensures !SingleValued(s, event, now)
  {
    var recorded := s.(events := s.events + {EventKey(event)});
    var t, t' := Settle(recorded, a, event, now), Settle(recorded, b, event, now);
    hide Settle;
    NoEffectIff(recorded, a, event, now);
    SettleTouchesOwn(recorded, b, event, now);
    assert PaymentFor(t', a) == PaymentFor(recorded, a) && t'.orders[a] == s.orders[a];
    assert Handles(s, event, now, t, Done(())) && Handles(s, event, now, t', Done(()));
  }

  lemma InertIsSingle(s: State, event: WebhookEvent, now: int)
    requires PaymentsHaveOrders(s) && EventKey(event) !in s.events
    requires forall a | a in Matching(s, event) :: NoEffect(s.orders[a], s.payments[a], event, now)
    ensures SingleValued(s, event, now)
  {
    var recorded := s.(events := s.events + {EventKey(event)});
    forall a | a in Matching(s, event) ensures Settle(recorded, a, event, now) == recorded {
      NoEffectIff(recorded, a, event, now);
    }
    hide Settle, NoEffect;
    forall t, r | Handles(s, event, now, t, r)
      ensures if Matching(s, event) == {} then t == s && r == Refused(PaymentNotFound)
              else t == recorded && r == Done(())
    {
      if exists o :: o in s.payments && Matches(s.payments[o], event) {
        var o :| o in s.payments && Matches(s.payments[o], event);
        assert o in Matching(s, event);
      } else {
        assert Matching(s, event) == {};
      }
    }
  }

  lemma SoleMatchIsSingle(s: State, event: WebhookEvent, now: int)
    requires EventKey(event) !in s.events
    requires forall a, b | a in Matching(s, event) && b in Matching(s, event) :: a == b
    ensures SingleValued(s, event, now)
  {
    assert forall o | o in s.payments && Matches(s.payments[o], event) :: o in Matching(s, event);
    hide Settle;
  }

  /** A new event has a single result exactly when at most one payment bears its reference or none
      of those that do would be changed by it. */
  lemma SingleValuedIff(s: State, event: WebhookEvent, now: int)
    requires PaymentsHaveOrders(s) && EventKey(event) !in s.events
    ensures SingleValued(s, event, now) <==>
      || (forall a, b | a in Matching(s, event) && b in Matching(s, event) :: a == b)
      || (forall a | a in Matching(s, event) :: NoEffect(s.orders[a], s.payments[a], event, now))
  {
    hide SingleValued, NoEffect;
    if forall a, b | a in Matching(s, event) && b in Matching(s, event) :: a == b {
      SoleMatchIsSingle(s, event, now);
    } else if forall a | a in Matching(s, event) :: NoEffect(s.orders[a], s.payments[a], event, now) {
      InertIsSingle(s, event, now);
    } else {
      var a :| a in Matching(s, event) && !NoEffect(s.orders[a], s.payments[a], event, now);
      var b :| b in Matching(s, event) && b != a;
      TwoResults(s, event, now, a, b);
    }
  }

  // ----- runs

  datatype Op =
    | Save(intent: Intent, order: string, now: int)
    | Webhook(event: WebhookEvent, now: int, after: State, outcome: Outcome<()>)

  /** The service lets only pending intents through. */
  ghost predicate Enabled(s: State, op: Op) {
    match op
    case Save(intent, _, _) => intent.status == PaymentPending
    case Webhook(event, now, after, outcome) => Handles(s, event, now, after, outcome)
  }

  function Step(s: State, op: Op): State {
    match op
    case Save(intent, order, now) => AfterSave(s, intent, order, now)
    case Webhook(_, _, after, _) => after
  }

  ghost predicate Run(s: State, ops: seq<Op>)
    decreases |ops|
  {
    ops == [] || (Enabled(s, ops[0]) && Run(Step(s, ops[0]), ops[1..]))
  }

  function Exec(s: State, ops: seq<Op>): State
    decreases |ops|
  {
    if ops == [] then s else Exec(Step(s, ops[0]), ops[1..])
  }

  /** An order is paid exactly when its payment succeeded, and exactly then has one ticket per item;
      a refund is owed only on an order that ended unpaid. */
  ghost predicate Settled(o: Order, p: Option<Payment>) {
    && (o.status == Paid <==> p.Some? && p.value.status == PaymentSucceeded)
    && o.tickets == (if o.status == Paid then TicketsFor(o.items) else [])
    && (p.Some? && p.value.status == PaymentRefundPending ==> o.status == Expired || o.status == Cancelled)
  }

  ghost predicate Inv(s: State) {
    PaymentsHaveOrders(s) && forall o | o in s.orders :: Settled(s.orders[o], PaymentFor(s, o))
  }

  lemma SettleSettles(s: State, order: string, event: WebhookEvent, now: int)
    requires order in s.orders && order in s.payments && Settled(s.orders[order], PaymentFor(s, order))
    ensures var t := Settle(s, order, event, now);
      order in t.orders && order in t.payments && Settled(t.orders[order], PaymentFor(t, order))
  {
  }

  lemma SettleKeeps(s: State, order: string, event: WebhookEvent, now: int)
    requires Inv(s) && order in s.orders && order in s.payments
    ensures Inv(Settle(s, order, event, now))
  {
    assert Settled(s.orders[order], PaymentFor(s, order));
    SettleTouchesOwn(s, order, event, now);
    SettleSettles(s, order, event, now);
    hide Settle, Settled, PaymentFor;
  }

  lemma StepKeeps(s: State, op: Op)
    requires Inv(s) && Enabled(s, op)
    ensures Inv(Step(s, op))
  {
    match op
    case Save(intent, order, now) => {
      var t := AfterSave(s, intent, order, now);
      assert forall o | o in s.orders && o != order :: PaymentFor(t, o) == PaymentFor(s, o);
    }
    case Webhook(event, now, after, _) => {
      if after != s {
        var recorded := s.(events := s.events + {EventKey(event)});
        var o :| o in s.payments && o in s.orders && Matches(s.payments[o], event)
          && after == Settle(recorded, o, event, now);
        assert forall x | x in recorded.orders :: PaymentFor(recorded, x) == PaymentFor(s, x);
        SettleKeeps(recorded, o, event, now);
      }
    }
  }

  /** A settled payment stays settled. */
  ghost predicate StaysSettled(s: State, t: State) {
    forall o | o in s.payments && s.payments[o].status in {PaymentSucceeded, PaymentRefundPending} ::
      o in t.payments && t.payments[o].status == s.payments[o].status
  }

  lemma StepStaysSettled(s: State, op: Op)
    requires Inv(s) && Enabled(s, op)
    ensures StaysSettled(s, Step(s, op))
  {
    forall o | o in s.payments && s.payments[o].status in {PaymentSucceeded, PaymentRefundPending}
      ensures o in Step(s, op).payments && Step(s, op).payments[o].status == s.payments[o].status
    {
      assert Settled(s.orders[o], PaymentFor(s, o));
    }
  }

  /** Over every run from unpaid orders: paid, succeeded and ticketed coincide, refunds are owed only
      on orders that ended unpaid, and settled payments stay as they are. */
  lemma {:induction false} RunsSettle(s: State, ops: seq<Op>)
    requires Inv(s) && Run(s, ops)
    ensures Inv(Exec(s, ops)) && StaysSettled(s, Exec(s, ops))
    decreases |ops|
  {
    if ops != [] {
      StepKeeps(s, ops[0]);
      StepStaysSettled(s, ops[0]);
      RunsSettle(Step(s, ops[0]), ops[1..]);
    }
  }

  ghost predicate Unpaid(orders: map<string, Order>) {
    forall o | o in orders :: orders[o].status != Paid && orders[o].tickets == []
  }

  /** From unpaid orders, in every run: paid, succeeded and ticketed coincide, and refunds are owed
      only on orders that ended unpaid. */
  lemma RunsFromUnpaidSettle(orders: map<string, Order>, ops: seq<Op>)
    requires Unpaid(orders) && Run(State(orders, map[], {}), ops)
    ensures Inv(Exec(State(orders, map[], {}), ops))
  {
    RunsSettle(State(orders, map[], {}), ops);
  }

  /** What the local provider answers: the reference names the order. */
  ghost predicate LocalReplies(ops: seq<Op>, provider: string) {
    forall i | 0 <= i < |ops| && ops[i].Save? ::
      ops[i].intent.provider == provider && ops[i].intent.reference == "fake-" + ops[i].order
  }

  lemma {:induction false} RunKeepsNames(s: State, ops: seq<Op>, provider: string)
    requires NamedAfterOrders(s, provider) && Run(s, ops) && LocalReplies(ops, provider)
    ensures NamedAfterOrders(Exec(s, ops), provider)
    decreases |ops|
  {
    if ops != [] {
      StepKeepsNames(s, ops[0], provider);
      assert forall i | 0 <= i < |ops| - 1 :: ops[1..][i] == ops[i + 1];
      hide NamedAfterOrders, Step, Enabled;
      RunKeepsNames(Step(s, ops[0]), ops[1..], provider);
    }
  }

  /** With the local provider, over every run from unpaid orders references stay unique and every
      event, at every instant, has a single result. */
  lemma LocalRunsAreDeterministic(orders: map<string, Order>, ops: seq<Op>, provider: string, event: WebhookEvent,
                                  now: int)
    requires Unpaid(orders) && Run(State(orders, map[], {}), ops) && LocalReplies(ops, provider)
    ensures UniqueReferences(Exec(State(orders, map[], {}), ops))
    ensures SingleValued(Exec(State(orders, map[], {}), ops), event, now)
  {
    hide Run, Exec, Unpaid, LocalReplies, SingleValued, UniqueReferences;
    RunKeepsNames(State(orders, map[], {}), ops, provider);
    NamedReferencesAreUnique(Exec(State(orders, map[], {}), ops), provider);
    HandlingIsDeterministic(Exec(State(orders, map[], {}), ops), event, now);
  }

  // ----- why an order or a payment changes, and what is answered

  /** The event is new, and of the payments that bear its reference this is the one the handler met. */
  ghost predicate Meets(s: State, op: Op, o: string) {
    && op.Webhook? && o in s.payments && EventKey(op.event) !in s.events
    && s.payments[o].provider == op.event.provider && s.payments[o].reference == op.event.reference
  }

  predicate Payable(o: Order, now: int) {
    o.status == PendingPayment && now < o.expiresAt
  }

  /** A success pays an order that can be paid, and ends a pending one that it comes too late for. */
  function OrderAfter(o: Order, p: Payment, event: WebhookEvent, now: int): Order {
    if event.status != WebhookSucceeded || p.status == PaymentSucceeded then o
    else if Payable(o, now) then o.(status := Paid, tickets := o.tickets + TicketsFor(o.items))
    else if o.status == PendingPayment then o.(status := Expired)
    else o
  }

  /** A success settles a payment once, for its order or for a refund; a pending payment keeps the
      first failure or expiry. */
  function PaymentAfter(o: Order, p: Payment, event: WebhookEvent, now: int): Payment {
    if event.status == WebhookSucceeded then
      if p.status == PaymentSucceeded || o.status == Paid then p
      else p.(status := if Payable(o, now) then PaymentSucceeded else PaymentRefundPending,
              paidAt := Some(event.occurredAt))
    else if p.status == PaymentPending then
      p.(status := if event.status == WebhookFailed then PaymentFailed else PaymentExpired)
    else p
  }

  lemma SettleFollows(s: State, o: string, event: WebhookEvent, now: int)
    requires o in s.orders && o in s.payments && Settled(s.orders[o], PaymentFor(s, o))
    ensures var t := Settle(s, o, event, now);
      && o in t.orders && t.orders[o] == OrderAfter(s.orders[o], s.payments[o], event, now)
      && o in t.payments && t.payments[o] == PaymentAfter(s.orders[o], s.payments[o], event, now)
      && t.events == s.events
  {
  }

  /** A new event for a reference that only this order's payment bears settles the payment and the
      order as said, and leaves every other alone. */
  lemma EventSettles(s: State, op: Op, o: string)
    requires Inv(s) && Enabled(s, op) && Meets(s, op, o) && SoleBearer(s, o)
    ensures var t := Step(s, op);
      && op.outcome == Done(()) && t.events == s.events + {EventKey(op.event)}
      && t.orders == s.orders[o := OrderAfter(s.orders[o], s.payments[o], op.event, op.now)]
      && t.payments == s.payments[o := PaymentAfter(s.orders[o], s.payments[o], op.event, op.now)]
      && (t.orders[o].status == Paid ==> OneTicketPerItem(t.orders[o]))
  {
    StepKeeps(s, op);
    if o in Step(s, op).orders && Step(s, op).orders[o].status == Paid { PaidIsTicketed(Step(s, op), o); }
    assert Settled(s.orders[o], PaymentFor(s, o));
    hide Inv, Settled;
    var recorded := s.(events := s.events + {EventKey(op.event)});
    assert op.after == Settle(recorded, o, op.event, op.now);
    assert Settled(recorded.orders[o], PaymentFor(recorded, o));
    hide Settle, SoleBearer, Enabled, OrderAfter, PaymentAfter;
    SettleFollows(recorded, o, op.event, op.now);
    SettleTouchesOwn(recorded, o, op.event, op.now);
    SameButOne(s.orders, op.after.orders, o);
    forall p | p in s.payments && p != o ensures op.after.payments[p] == s.payments[p] {
      SettleLeavesPayment(recorded, o, op.event, op.now, p);
    }
    SameButOne(s.payments, op.after.payments, o);
  }

  predicate OneTicketPerItem(o: Order) {
    |o.tickets| == |o.items|
    && forall i | 0 <= i < |o.items| :: o.tickets[i] == Ticket(o.items[i].id, "TKT-" + o.items[i].id)
  }

  lemma PaidIsTicketed(s: State, o: string)
    requires Inv(s) && o in s.orders && s.orders[o].status == Paid
    ensures OneTicketPerItem(s.orders[o])
  {
    assert Settled(s.orders[o], PaymentFor(s, o));
  }

  lemma SettleLeavesPayment(s: State, o: string, event: WebhookEvent, now: int, p: string)
    requires o in s.orders && o in s.payments && p in s.payments && p != o
    ensures p in Settle(s, o, event, now).payments && Settle(s, o, event, now).payments[p] == s.payments[p]
  {
  }

  lemma SameButOne<K, V>(a: map<K, V>, b: map<K, V>, o: K)
    requires o in a && b.Keys == a.Keys && forall k | k in a && k != o :: b[k] == a[k]
    ensures b == a[o := b[o]]
  {
  }

  /** Its own user is quoted the price of the first item exactly while the order can be paid and has no
      payment, and finds the payment once it has one. */
  lemma QuoteAnswersIff(s: State, order: string, user: string, now: int)
    ensures var answer, own := Prepare(s, order, user, now), order in s.orders && s.orders[order].user == user;
      && (answer == Refused(OrderNotFound) <==> !own)
      && (answer.Done? && answer.value.Existing? <==> own && order in s.payments)
      && (answer.Done? && answer.value.Request? <==> own && order !in s.payments && Payable(s.orders[order], now))
      && (answer == Refused(OrderExpired) <==>
            own && order !in s.payments && s.orders[order].status == PendingPayment && s.orders[order].expiresAt <= now)
      && (answer.Done? && answer.value.Existing? ==>
            var i, p := answer.value.intent, s.payments[order];
            i.provider == p.provider && i.reference == p.reference && i.status == p.status
            && i.amount == p.amount && i.currency == p.currency)
      && (answer.Done? && answer.value.Request? ==>
            var r, items := answer.value.request, s.orders[order].items;
            r.order == order && r.key == "payment-intent-" + order
            && (items == [] ==> r.amount == "0.00" && r.currency == "")
            && (items != [] ==> r.amount == items[0].price && r.currency == items[0].currency))
  {
  }

  /** A reply becomes the order's payment exactly when the order has none and can be paid; otherwise
      nothing is written. */
  lemma SaveAnswersIff(s: State, intent: Intent, order: string, now: int)
    ensures var answer, t := SaveOutcome(s, intent, order, now), AfterSave(s, intent, order, now);
      && (order in s.payments ==>
            t == s && answer.Done? && answer.value.reference == s.payments[order].reference
            && answer.value.status == s.payments[order].status)
      && (order !in s.payments ==>
            if order in s.orders && Payable(s.orders[order], now) then
              answer == Done(intent)
              && t == s.(payments := s.payments[order := Payment(intent.provider, intent.reference, intent.status,
                                                                 intent.amount, intent.currency, None)])
            else answer.Refused? && t == s)
      && (answer == Refused(OrderNotFound) <==> order !in s.payments && order !in s.orders)
      && (answer == Refused(OrderNotPayable) <==>
            order !in s.payments && order in s.orders && s.orders[order].status != PendingPayment)
  {
  }

  // ----- order of arrival

  /** The payment of order `o` stands at `st`, and the order is as `base`, or paid and ticketed. */
  ghost predicate Standing(s: State, o: string, base: Order, st: PaymentStatus) {
    && o in s.payments && o in s.orders && s.payments[o].status == st && st != PaymentRefundPending
    && base.status == PendingPayment
    && s.orders[o] ==
       (if st == PaymentSucceeded then
         base.(status := Paid, tickets := base.tickets + TicketsFor(base.items)) else base)
  }

  /** A new event for the payment of order `o`. */
  predicate Counts(s: State, o: string, op: Op) {
    op.Webhook? && o in s.payments && EventKey(op.event) !in s.events && Matches(s.payments[o], op.event)
  }

  /** No event for the payment counts at or after the order's expiry. */
  ghost predicate Timely(s: State, o: string, expiresAt: int, ops: seq<Op>)
    decreases |ops|
  {
    ops == [] || ((Counts(s, o, ops[0]) ==> ops[0].now < expiresAt) && Timely(Step(s, ops[0]), o, expiresAt, ops[1..]))
  }

  function Arrivals(s: State, o: string, ops: seq<Op>): seq<WebhookStatus>
    decreases |ops|
  {
    if ops == [] then [] else
      (if Counts(s, o, ops[0]) then [ops[0].event.status] else []) + Arrivals(Step(s, ops[0]), o, ops[1..])
  }

  /** No other payment bears the reference of the payment of order `o`. */
  ghost predicate SoleBearer(s: State, o: string) {
    o in s.payments &&
    forall p | p in s.payments && s.payments[p].provider == s.payments[o].provider
               && s.payments[p].reference == s.payments[o].reference :: p == o
  }

  /** No reply saved for another order repeats that reference. */
  predicate SavesOthers(op: Op, o: string, provider: string, reference: string) {
    op.Save? && op.order != o ==> op.intent.provider != provider || op.intent.reference != reference
  }

  /** References are never changed, and a new one comes from a saved reply. */
  lemma StepKeepsReferences(s: State, op: Op, p: string)
    requires Enabled(s, op) && p in Step(s, op).payments
    ensures if p in s.payments
      then Step(s, op).payments[p].provider == s.payments[p].provider
           && Step(s, op).payments[p].reference == s.payments[p].reference
      else op.Save? && op.order == p && Step(s, op).payments[p] == PaymentOf(op.intent)
  {
  }

  lemma StepKeepsPayment(s: State, op: Op, p: string)
    requires Enabled(s, op) && p in s.payments
    ensures p in Step(s, op).payments
  {
  }

  lemma StepKeepsBearer(s: State, o: string, op: Op)
    requires SoleBearer(s, o) && Enabled(s, op)
      && SavesOthers(op, o, s.payments[o].provider, s.payments[o].reference)
    ensures SoleBearer(Step(s, op), o)
    ensures Step(s, op).payments[o].provider == s.payments[o].provider
      && Step(s, op).payments[o].reference == s.payments[o].reference
  {
    hide Step, Enabled;
    StepKeepsPayment(s, op, o);
    StepKeepsReferences(s, op, o);
    forall p | p in Step(s, op).payments && p != o
      ensures Step(s, op).payments[p].provider != s.payments[o].provider
        || Step(s, op).payments[p].reference != s.payments[o].reference
    {
      StepKeepsReferences(s, op, p);
    }
  }

  lemma CountedStep(s: State, o: string, base: Order, st: PaymentStatus, op: Op)
    requires SoleBearer(s, o) && Enabled(s, op) && Standing(s, o, base, st) && Counts(s, o, op)
      && op.now < base.expiresAt
    ensures Standing(Step(s, op), o, base, Webhooks.After(st, op.event.status))
  {
    var recorded := s.(events := s.events + {EventKey(op.event)});
    assert op.after == Settle(recorded, o, op.event, op.now);
  }

  lemma OtherStep(s: State, o: string, base: Order, st: PaymentStatus, op: Op)
    requires Enabled(s, op) && Standing(s, o, base, st) && !Counts(s, o, op)
    ensures Standing(Step(s, op), o, base, st)
  {
    if op.Webhook? && op.after != s {
      var recorded := s.(events := s.events + {EventKey(op.event)});
      var p :| p in s.payments && p in s.orders && Matches(s.payments[p], op.event)
        && op.after == Settle(recorded, p, op.event, op.now);
      SettleTouchesOwn(recorded, p, op.event, op.now);
      assert p != o && PaymentFor(op.after, o) == PaymentFor(recorded, o);
      hide Settle;
    }
  }

  lemma {:induction false} ArrivalsDecide(s: State, o: string, base: Order, st: PaymentStatus, ops: seq<Op>)
    requires SoleBearer(s, o) && Run(s, ops)
    requires forall i | 0 <= i < |ops| :: SavesOthers(ops[i], o, s.payments[o].provider, s.payments[o].reference)
    requires Standing(s, o, base, st) && Timely(s, o, base.expiresAt, ops)
    ensures Standing(Exec(s, ops), o, base, Webhooks.Verdict(st, Arrivals(s, o, ops)))
    decreases |ops|
  {
    if ops != [] {
      var op, rest := ops[0], ops[1..];
      StepKeepsBearer(s, o, op);
      assert forall i | 0 <= i < |rest| :: rest[i] == ops[i + 1];
      hide SoleBearer, SavesOthers, Step, Enabled, Standing, Counts;
      if Counts(s, o, op) {
        CountedStep(s, o, base, st, op);
        ArrivalsDecide(Step(s, op), o, base, Webhooks.After(st, op.event.status), rest);
        assert Arrivals(s, o, ops)[1..] == Arrivals(Step(s, op), o, rest);
      } else {
        OtherStep(s, o, base, st, op);
        ArrivalsDecide(Step(s, op), o, base, st, rest);
        assert Arrivals(s, o, ops) == Arrivals(Step(s, op), o, rest);
      }
    }
  }

  /** Two runs in which the same events count for a pending payment whose reference is its own, all
      in time and a success among them, end with the same paid order, its tickets included, whatever
      order the events came in and whatever else the runs did. */
  lemma PermutedEventsAgree(s: State, o: string, a: seq<Op>, b: seq<Op>)
    requires SoleBearer(s, o) && o in s.orders && Standing(s, o, s.orders[o], PaymentPending)
    requires Run(s, a) && Timely(s, o, s.orders[o].expiresAt, a) && Run(s, b) && Timely(s, o, s.orders[o].expiresAt, b)
    requires forall op | op in a + b :: SavesOthers(op, o, s.payments[o].provider, s.payments[o].reference)
    requires multiset(Arrivals(s, o, a)) == multiset(Arrivals(s, o, b)) && WebhookSucceeded in Arrivals(s, o, a)
    ensures var p, q := Exec(s, a), Exec(s, b);
      && o in p.orders && o in q.orders && p.orders[o] == q.orders[o] && p.orders[o].status == Paid
      && o in p.payments && o in q.payments && p.payments[o].status == q.payments[o].status == PaymentSucceeded
  {
    assert SoleBearer(s, o) ==> o in s.payments;
    assert forall i | 0 <= i < |a| :: a[i] in a + b;
    assert forall i | 0 <= i < |b| :: b[i] in a + b;
    hide Run, Exec, Timely, Arrivals, SoleBearer, SavesOthers;
    assert WebhookSucceeded in multiset(Arrivals(s, o, a));
    assert WebhookSucceeded in multiset(Arrivals(s, o, b));
    ArrivalsDecide(s, o, s.orders[o], PaymentPending, a);
    ArrivalsDecide(s, o, s.orders[o], PaymentPending, b);
    Webhooks.VerdictIsSuccessOrFirst(PaymentPending, Arrivals(s, o, a));
    Webhooks.VerdictIsSuccessOrFirst(PaymentPending, Arrivals(s, o, b));
  }

  lemma LocalRepliesDiffer(s: State, o: string, provider: string, ops: seq<Op>)
    requires NamedAfterOrders(s, provider) && LocalReplies(ops, provider) && o in s.payments
    ensures SoleBearer(s, o)
    ensures forall i | 0 <= i < |ops| :: SavesOthers(ops[i], o, s.payments[o].provider, s.payments[o].reference)
  {
    NamedReferencesAreUnique(s, provider);
    forall i | 0 <= i < |ops| && ops[i].Save? && ops[i].order != o
      ensures ops[i].intent.reference != s.payments[o].reference
    {
      assert ("fake-" + ops[i].order)[5..] == ops[i].order && ("fake-" + o)[5..] == o;
    }
  }

  /** With the local provider, whose references name their orders, this is so of every payment. */
  lemma LocalEventsAgree(s: State, o: string, provider: string, a: seq<Op>, b: seq<Op>)
    requires NamedAfterOrders(s, provider) && o in s.orders && Standing(s, o, s.orders[o], PaymentPending)
    requires LocalReplies(a, provider) && Run(s, a) && Timely(s, o, s.orders[o].expiresAt, a)
    requires LocalReplies(b, provider) && Run(s, b) && Timely(s, o, s.orders[o].expiresAt, b)
    requires multiset(Arrivals(s, o, a)) == multiset(Arrivals(s, o, b)) && WebhookSucceeded in Arrivals(s, o, a)
    ensures var p, q := Exec(s, a), Exec(s, b);
      && o in p.orders && o in q.orders && p.orders[o] == q.orders[o] && p.orders[o].status == Paid
  {
    assert o in s.payments;
    hide Run, Exec, Timely, Arrivals, NamedAfterOrders, LocalReplies, SoleBearer, SavesOthers, Standing;
    LocalRepliesDiffer(s, o, provider, a);
    LocalRepliesDiffer(s, o, provider, b);
    PermutedEventsAgree(s, o, a, b);
  }

  /** An event that came before its payment was saved leaves no trace: delivered again after the
      payment is saved, it takes effect. */
  lemma EarlyEventCanBeRedelivered(s: State, event: WebhookEvent, early: int, intent: Intent, order: string, saved: int,
                                   now: int,
                                   t: State, r: Outcome<()>, t': State, r': Outcome<()>)
    requires Handles(s, event, early, t, r) && r == Refused(PaymentNotFound)
    requires order in s.orders && AfterSave(t, intent, order, saved) != t && event.status == WebhookSucceeded
    requires intent.provider == event.provider && intent.reference == event.reference && intent.status == PaymentPending
    requires now < s.orders[order].expiresAt && Handles(AfterSave(t, intent, order, saved), event, now, t', r')
    ensures t == s && r' == Done(())
    ensures t'.orders[order].status == Paid && t'.payments[order].status == PaymentSucceeded
  {
  }
}
