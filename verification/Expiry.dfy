/** The bounded expiry worker against the unbounded one. */
module Expiry {
  import opened Common
  import opened Store
  import opened Machine
  import opened SeatSafety
  import opened Safety

  ghost function Due(s: State, now: Time): set<Id> {
    DueOrders(s.orders, now, {})
  }

  /** Two batches in a row do what one batch of both does. */
  lemma BatchesCompose(s: State, a: set<Id>, b: set<Id>)
    ensures ExpireStep(ExpireStep(s, a), b) == ExpireStep(s, a + b)
  {
    assert SetOrders(SetOrders(s.orders, a, Expired), b, Expired) == SetOrders(s.orders, a + b, Expired);
    assert ReleaseSeats(ReleaseSeats(s.seats, a), b) == ReleaseSeats(s.seats, a + b);
  }

  lemma BatchShrinksDue(s: State, now: Time, batch: set<Id>)
    requires batch <= Due(s, now)
    ensures Due(ExpireStep(s, batch), now) == Due(s, now) - batch
    ensures |Due(ExpireStep(s, batch), now)| == |Due(s, now)| - |batch|
  {
    assert Due(ExpireStep(s, batch), now) == Due(s, now) - batch;
  }

  /** Each batch is what the worker's query selects at the fixed instant `now`. */
  ghost predicate Rounds(s: State, now: Time, limit: nat, batches: seq<set<Id>>)
    decreases |batches|
  {
    batches == [] ||
    (&& IsFirst(batches[0], DueOrders(s.orders, now, {}), OrderDueTimes(s.orders), limit)
     && Rounds(ExpireStep(s, batches[0]), now, limit, batches[1..]))
  }

  ghost function RunRounds(s: State, batches: seq<set<Id>>): State
    decreases |batches|
  {
    if batches == [] then s else RunRounds(ExpireStep(s, batches[0]), batches[1..])
  }

  /** A bounded round expires a due order exactly when fewer than `limit` due orders come before it,
      by expiry and then by id, and leaves every order that is not due alone. */
  lemma ExpiresIffAmongFirst(s: State, now: Time, limit: nat, batch: set<Id>, o: Id)
    requires IsFirst(batch, Due(s, now), OrderDueTimes(s.orders), limit) && o in s.orders
    ensures ExpireStep(s, batch).orders[o] ==
      if o in Due(s, now) && |Preceding(s, now, o)| < limit then s.orders[o].(status := Expired) else s.orders[o]
  {
    assert batch <= Due(s, now);
    if o in Due(s, now) {
      RankDecides(batch, Due(s, now), OrderDueTimes(s.orders), limit, o);
      assert Preceding(s, now, o) == set y | y in Due(s, now) && Sooner(OrderDueTimes(s.orders), y, o);
    }
  }

  /** The due orders that the worker's query puts before `o`. */
  ghost function Preceding(s: State, now: Time, o: Id): set<Id>
    requires o in s.orders
  {
    set p | p in Due(s, now) && Sooner(OrderDueTimes(s.orders), p, o)
  }

  lemma HeldByDue(s: State, t: Time, now: Time, locked: set<Id>, batch: set<Id>, x: Id)
    requires Inv(s, t) && batch <= DueOrders(s.orders, now, locked) && x in s.seats
    ensures ExpireStep(s, batch).seats[x] == s.seats[x]
      || (s.seats[x].status == SeatHeld && s.seats[x].holdExpiry.Some? && s.seats[x].holdExpiry.value <= now
          && ExpireStep(s, batch).seats[x].status == SeatAvailable)
  {
    assert SeatInv(s.seats, s.orders, t);
    assert HoldsBacked(s.seats, s.orders);
  }

  /** Expiry is housekeeping: whatever rows the worker takes, from its instant on the public map
      shows and a hold request finds every seat exactly as they would have without it. */
  lemma ExpiryIsInvisible(s: State, t: Time, e: Event, x: Id, at: Time)
    requires Reachable(s, t) && Enabled(s, e) && e.op.ExpirePendingHolds? && x in s.seats && e.now <= at
    ensures x in Step(s, e).seats
    ensures ShownStatus(Step(s, e).seats[x], at) == ShownStatus(s.seats[x], at)
    ensures FreeForHold(Step(s, e).seats[x], at) == FreeForHold(s.seats[x], at)
  {
    hide Reachable, Inv, IsFirst;
    ReachableIsSafe(s, t);
    SelectedAreDue(e.op.batch, s, e.now, e.op.locked, e.op.limit);
    HeldByDue(s, t, e.now, e.op.locked, e.op.batch, x);
  }

  lemma SelectedAreDue(batch: set<Id>, s: State, now: Time, locked: set<Id>, limit: nat)
    requires IsFirst(batch, DueOrders(s.orders, now, locked), OrderDueTimes(s.orders), limit)
    ensures batch <= DueOrders(s.orders, now, locked)
  {
  }

  lemma OneRoundLess(due: nat, limit: nat, n: nat)
    requires n > 0
    ensures Max(0, due - Min(limit, due) - (n - 1) * limit) == Max(0, due - n * limit)
  {
    assert n * limit == limit + (n - 1) * limit;
    assert (n - 1) * limit >= 0;
  }

  lemma FirstRound(s: State, now: Time, limit: nat, batches: seq<set<Id>>)
    requires Rounds(s, now, limit, batches) && batches != []
    ensures |batches[0]| == Min(limit, |Due(s, now)|) && batches[0] <= Due(s, now)
    ensures Rounds(ExpireStep(s, batches[0]), now, limit, batches[1..])
    ensures RunRounds(s, batches) == RunRounds(ExpireStep(s, batches[0]), batches[1..])
  {
    hide ExpireStep, DueOrders;
  }

  lemma NoProduct(n: nat, limit: nat, due: nat)
    requires n == 0
    ensures due == Max(0, due - n * limit)
  {
  }

  /** Repeating bounded rounds at a fixed instant leaves max(0, due - n * limit) due orders. */
  lemma {:induction false} RoundsCount(s: State, now: Time, limit: nat, batches: seq<set<Id>>)
    requires Rounds(s, now, limit, batches)
    ensures |Due(RunRounds(s, batches), now)| == Max(0, |Due(s, now)| - |batches| * limit)
    decreases |batches|
  {
    if batches == [] {
      NoProduct(|batches|, limit, |Due(s, now)|);
    } else {
      hide *;
      FirstRound(s, now, limit, batches);
      BatchShrinksDue(s, now, batches[0]);
      RoundsCount(ExpireStep(s, batches[0]), now, limit, batches[1..]);
      OneRoundLess(|Due(s, now)|, limit, |batches|);
    }
  }

  function Union(batches: seq<set<Id>>): set<Id> {
    if batches == [] then {} else batches[0] + Union(batches[1..])
  }

  lemma {:induction false} RoundsCompose(s: State, batches: seq<set<Id>>)
    ensures RunRounds(s, batches) == ExpireStep(s, Union(batches))
    decreases |batches|
  {
    if batches == [] {
      assert SetOrders(s.orders, {}, Expired) == s.orders && ReleaseSeats(s.seats, {}) == s.seats;
    } else {
      hide ExpireStep;
      RoundsCompose(ExpireStep(s, batches[0]), batches[1..]);
      BatchesCompose(s, batches[0], Union(batches[1..]));
    }
  }

  lemma {:induction false} RoundsWithinDue(s: State, now: Time, limit: nat, batches: seq<set<Id>>)
    requires Rounds(s, now, limit, batches)
    ensures Union(batches) <= Due(s, now)
    decreases |batches|
  {
    if batches != [] {
      assert batches[0] <= Due(s, now);
      BatchShrinksDue(s, now, batches[0]);
      hide Due, ExpireStep, IsFirst, DueOrders;
      RoundsWithinDue(ExpireStep(s, batches[0]), now, limit, batches[1..]);
    }
  }

  /** Enough bounded rounds at a fixed instant reach the state of a single unbounded expiry. */
  lemma RoundsRefineExpireAll(s: State, now: Time, limit: nat, batches: seq<set<Id>>)
    requires Rounds(s, now, limit, batches)
    requires |Due(s, now)| <= |batches| * limit
    ensures RunRounds(s, batches) == ExpireStep(s, Due(s, now))
    ensures Due(RunRounds(s, batches), now) == {}
  {
    hide Due, ExpireStep, RunRounds, Rounds, Union;
    RoundsCount(s, now, limit, batches);
    RoundsCompose(s, batches);
    RoundsWithinDue(s, now, limit, batches);
    BatchShrinksDue(s, now, Union(batches));
    NothingLeft(Due(s, now), Union(batches));
  }

  lemma NothingLeft(all: set<Id>, taken: set<Id>)
    requires taken <= all && |all - taken| == 0
    ensures taken == all && all - taken == {}
  {
    assert all == taken + (all - taken);
  }
}
