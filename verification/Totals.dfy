/** What an order costs: the sum of its seats' prices at the hold, in whatever order they are added. */
module Totals {
  import opened Common
  import opened Store
  import opened Machine
  import opened SeatSafety
  import opened MoneySafety
  import opened Safety
  import opened Stability
  import Holds
  import Uuid

  lemma {:induction false} SumDependsOn(ids: seq<Id>, a: map<Id, nat>, b: map<Id, nat>)
    requires forall x | x in ids :: x in a && x in b && a[x] == b[x]
    ensures SumPrices(ids, a) == SumPrices(ids, b)
  {
    if ids != [] { SumDependsOn(ids[1..], a, b); }
  }

  lemma TotalFromLeast(items: map<Id, nat>)
    requires items.Keys != {}
    ensures var m := Least(items.Keys); m in items && OrderTotal(items) == items[m] + OrderTotal(items - {m})
  {
    var m := Least(items.Keys);
    var rest := items - {m};
    AscendingStep(items.Keys);
    assert rest.Keys == items.Keys - {m};
    AscendingElements(rest.Keys);
    var q := Ascending(rest.Keys);
    assert Ascending(items.Keys)[1..] == q;
    forall x | x in q ensures x in items && x in rest && items[x] == rest[x] { assert x in Elements(q); }
    SumDependsOn(q, items, rest);
  }

  /** An order without items costs nothing, and each further item adds its price. */
  lemma {:induction false} TotalAddsUp(items: map<Id, nat>, x: Id, price: nat)
    requires x !in items
    ensures OrderTotal(map[]) == 0
    ensures OrderTotal(items[x := price]) == OrderTotal(items) + price
    decreases |items|
  {
    var more := items[x := price];
    assert more.Keys == items.Keys + {x};
    hide OrderTotal;
    EmptyTotal();
    TotalFromLeast(more);
    var m := Least(more.Keys);
    if m == x {
      assert more - {m} == items;
    } else {
      assert items.Keys != {};
      LeastOfMore(items.Keys, x);
      TotalFromLeast(items);
      TotalAddsUp(items - {m}, x, price);
      assert more - {m} == (items - {m})[x := price];
    }
  }

  lemma EmptyTotal()
    ensures OrderTotal(map[]) == 0
  {
    var none: map<Id, nat> := map[];
    assert none.Keys == {};
  }

  lemma LeastOfMore(s: set<Id>, x: Id)
    requires s != {} && Least(s + {x}) != x
    ensures Least(s) == Least(s + {x})
  {
    var a, b := Least(s), Least(s + {x});
    assert a <= b <= a;
  }

  // ----- the price of a hold

  /** The prices of the listed rows, added up as they are listed. */
  function PricesOf(seats: map<Id, SeatRow>, ids: seq<Id>): nat {
    if ids == [] then 0 else
      var last := ids[|ids| - 1];
      PricesOf(seats, ids[..|ids| - 1]) + if last in seats then seats[last].price else 0
  }

  lemma {:induction false} TotalOfListed(seats: map<Id, SeatRow>, ids: seq<Id>, items: map<Id, nat>)
    requires forall i, j | 0 <= i < j < |ids| :: ids[i] != ids[j]
    requires items.Keys == Elements(ids) && forall x | x in ids :: x in seats && items[x] == seats[x].price
    ensures OrderTotal(items) == PricesOf(seats, ids)
    decreases |ids|
  {
    hide OrderTotal;
    if ids == [] {
      EmptyTotal();
      assert items == map[];
    } else {
      var front, last := ids[..|ids| - 1], ids[|ids| - 1];
      assert forall i | 0 <= i < |front| :: front[i] == ids[i] && ids[i] != last;
      assert forall x :: x in ids <==> x in front || x == last;
      var fewer := items - {last};
      assert fewer.Keys == Elements(front);
      TotalOfListed(seats, front, fewer);
      TotalAddsUp(fewer, last, items[last]);
      assert fewer[last := items[last]] == items;
    }
  }

  lemma GrantedTotal(s: State, op: Op, now: Time)
    requires op.PlaceHold? && Grants(s, op, now)
    ensures AllParse(op.seatIds)
    ensures var s' := PlaceHoldStep(s, op, now).0;
      op.id in s'.orders && OrderTotal(s'.orders[op.id].items) == PricesOf(s.seats, Parsed(op.seatIds))
  {
    hide PlaceHoldStep, Grants, FreeForHold, LockedSeats, Parsed, OrderTotal, PricesOf;
    GrantCases(s, op, now);
    Holds.FullyLocked(s.seats, Uuid.Parse(op.showtime).value, Parsed(op.seatIds));
    Holds.FreshHoldEffect(s, op, now);
    var ids := Parsed(op.seatIds);
    var items := PlaceHoldStep(s, op, now).0.orders[op.id].items;
    forall x | x in ids ensures x in s.seats && items[x] == s.seats[x].price { assert x in Elements(ids); }
    TotalOfListed(s.seats, ids, items);
  }

  /** Whenever the provider is asked to charge for a granted hold, however prices have changed since,
      it is asked for the sum of its seats' prices at the moment of the hold. */
  lemma QuoteIsPriceAtHold(s: State, t: Time, first: Event, trace: seq<Event>, user: Id, now: Time)
    requires Reachable(s, t) && first.op.PlaceHold? && Grants(s, first.op, first.now)
    requires Run(Step(s, first), HoldClock(s, t, first), trace)
    ensures AllParse(first.op.seatIds)
    ensures var reply := RequestIntentStep(Exec(Step(s, first), trace), first.op.id, user, now).1;
      reply.Done? && reply.value.Some? ==>
        reply.value.value == IntentRequest(first.op.id, PricesOf(s.seats, Parsed(first.op.seatIds)), now)
  {
    hide Reachable, Inv, Run, Exec, Grants, PlaceHoldStep, SalesPersist, PaymentsPersist, TicketsPersist,
      DeliveriesPersist, OrderTotal, PricesOf, Parsed, HasPayment;
    ReachableIsSafe(s, t);
    StepKeeps(s, t, first);
    RunPersists(Step(s, first), HoldClock(s, t, first), trace);
    GrantedTotal(s, first.op, first.now);
  }
}
