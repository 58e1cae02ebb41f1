/** The payment service: an intent is prepared and saved in two transactions, with the provider
    called in between. */
module PaymentService {
  import opened Common
  import opened Store
  import opened Machine
  import Database

  datatype Reply = Existing | Saved(key: PaymentKey) | Failed(error: Error) | ProviderFailed

  /** Service.CreatePaymentIntent when no other transaction comes in between. `answer` is the
      provider: no intent when the call fails. Only the first transaction runs unless it issued a
      request and the provider answered. */
  method CreatePaymentIntent(db: Database.Database, order: Id, user: Id, now: Time, provider: string,
                             answer: IntentRequest -> Option<Intent>) returns (r: Reply)
    requires db.Valid()
    modifies db
    ensures db.Valid()
    ensures var (asked, prepared) := RequestIntentStep(old(db.View()), order, user, now);
      match prepared
      case Refused(error) => r == Failed(error) && db.View() == asked
      case Done(None) => r == Existing && db.View() == asked
      case Done(Some(request)) =>
        match answer(request)
        case None => r == ProviderFailed && db.View() == asked
        case Some(intent) =>
          var (saved, outcome) := SaveIntentStep(asked, request, provider, intent);
          db.View() == saved && r == (if outcome.Done? then Saved(outcome.value) else Failed(outcome.error))
  {
    var prepared := db.PaymentIntentRequest(order, user, now);
    if prepared.Refused? { return Failed(prepared.error); }
    if prepared.value.None? { return Existing; }
    var intent := answer(prepared.value.value);
    if intent.None? { return ProviderFailed; }
    var outcome := db.SavePaymentIntent(prepared.value.value, provider, intent.value);
    if outcome.Refused? { return Failed(outcome.error); }
    return Saved(outcome.value);
  }

  /** A saved intent quoted the order's total and left the order, its seats and tickets alone; asking
      again, at any instant, finds it and changes nothing. */
  lemma AskingAgainChangesNothing(s: State, order: Id, user: Id, now: Time, provider: string, intent: Intent,
                                  later: Time)
    requires var (asked, prepared) := RequestIntentStep(s, order, user, now);
      && prepared.Done? && prepared.value.Some?
      && SaveIntentStep(asked, prepared.value.value, provider, intent).1.Done?
    ensures var (asked, prepared) := RequestIntentStep(s, order, user, now);
      var (saved, outcome) := SaveIntentStep(asked, prepared.value.value, provider, intent);
      && prepared.value.value.amount == OrderTotal(s.orders[order].items)
      && saved.payments == s.payments[outcome.value := Payment(order, PaymentPending, intent.amount, None)]
      && outcome.value !in s.payments && saved.orders == s.orders && saved.tickets == s.tickets
      && saved.seats == s.seats
      && RequestIntentStep(saved, order, user, later) == (saved, Done(None))
  {
    var (asked, prepared) := RequestIntentStep(s, order, user, now);
    var (saved, outcome) := SaveIntentStep(asked, prepared.value.value, provider, intent);
    assert outcome.value in saved.payments && saved.payments[outcome.value].order == order;
    assert HasPayment(saved.payments, order);
  }
}
