/** The in-memory booking repository: seats, orders, and a second order map keyed by user and
    idempotency key that every change must keep in step with the first. */
module BookingMemory {
  import opened Common
  import opened Sorting
  import opened Text

  datatype SeatStatus = Available | Held | Sold

  datatype Seat = Seat(showtime: string, status: SeatStatus, holdOrder: string, holdExpires: int)

  datatype Order = Order(id: string, user: string, showtime: string, key: string, status: OrderStatus,
                         expiresAt: int, createdAt: int, seatIds: seq<string>)

  datatype Error = InvalidHoldInput | KeyReused | SeatUnavailable | OrderNotFound | OrderNotCancellable

  datatype Outcome = Done(order: Order) | Refused(error: Error)

  datatype State = State(seats: map<string, Seat>, orders: map<string, Order>, byKey: map<string, Order>)

  // ----- specification

  predicate AvailableForHold(seat: Seat, now: int) {
    seat.status == Available || (seat.status == Held && seat.holdExpires <= now)
  }

  predicate CanHold(seats: map<string, Seat>, order: Order, now: int) {
    forall i | 0 <= i < |order.seatIds| :: CanHoldSeat(seats, order, order.seatIds[i], now)
  }

  predicate CanHoldSeat(seats: map<string, Seat>, order: Order, seat: string, now: int) {
    seat in seats && seats[seat].showtime == order.showtime && AvailableForHold(seats[seat], now)
  }

  function HoldSeats(seats: map<string, Seat>, order: Order, ids: set<string>): map<string, Seat> {
    map x | x in seats ::
      if x in ids then seats[x].(status := Held, holdOrder := order.id, holdExpires := order.expiresAt) else seats[x]
  }

  predicate SameHoldRequest(order: Order, showtime: string, seatIds: seq<string>) {
    order.showtime == showtime && order.seatIds == seatIds
  }

  function MapKey(order: Order): string {
    Joined(order.user, order.key)
  }

  function Store(s: State, order: Order): State {
    s.(orders := s.orders[order.id := order], byKey := s.byKey[MapKey(order) := order])
  }

  function AfterHold(s: State, order: Order, now: int): State {
    if MapKey(order) in s.byKey || !CanHold(s.seats, order, now) then s
    else Store(s.(seats := HoldSeats(s.seats, order, Elements(order.seatIds))), order)
  }

  function HoldOutcome(s: State, order: Order, now: int): Outcome {
    if MapKey(order) in s.byKey then
      if SameHoldRequest(s.byKey[MapKey(order)], order.showtime, order.seatIds) then Done(s.byKey[MapKey(order)])
      else Refused(KeyReused)
    else if CanHold(s.seats, order, now) then Done(order) else Refused(SeatUnavailable)
  }

  /** Frees the seats that the given orders still hold. */
  function Release(seats: map<string, Seat>, ids: set<string>): map<string, Seat> {
    map x | x in seats ::
      if seats[x].status == Held && seats[x].holdOrder in ids then Seat(seats[x].showtime, Available, "", 0)
      else seats[x]
  }

  function Restatus(orders: map<string, Order>, ids: set<string>, status: OrderStatus): map<string, Order> {
    map k | k in orders :: if orders[k].id in ids then orders[k].(status := status) else orders[k]
  }

  /** The given orders end, in both maps, and their seats are freed. */
  function Close(s: State, ids: set<string>, status: OrderStatus): State {
    State(Release(s.seats, ids), Restatus(s.orders, ids, status), Restatus(s.byKey, ids, status))
  }

  predicate IsDue(order: Order, now: int) {
    order.status == PendingPayment && order.expiresAt <= now
  }

  function Due(s: State, now: int): set<string> {
    set id | id in s.orders && IsDue(s.orders[id], now)
  }

  /** `batch` holds the earliest-expiring of the due orders, `limit` of them if there are as many. */
  ghost predicate IsEarliest(batch: set<string>, s: State, now: int, limit: int) {
    && batch <= Due(s, now)
    && |batch| == Min(Max(limit, 0), |Due(s, now)|)
    && forall a, b | a in batch && b in Due(s, now) - batch :: s.orders[a].expiresAt <= s.orders[b].expiresAt
  }

  /** Expiring everything due is the first act of a cancellation, whether or not it goes on. */
  function AfterCancel(s: State, orderID: string, user: string, now: int): State {
    var expired := Close(s, Due(s, now), Expired);
    if CancelOutcome(s, orderID, user, now).Done? then Close(expired, {orderID}, Cancelled) else expired
  }

  function CancelOutcome(s: State, orderID: string, user: string, now: int): Outcome {
    var orders := Restatus(s.orders, Due(s, now), Expired);
    if orderID !in orders || orders[orderID].user != user then Refused(OrderNotFound)
    else if orders[orderID].status != PendingPayment then Refused(OrderNotCancellable)
    else Done(orders[orderID].(status := Cancelled))
  }

  // ----- the two order maps agree

  ghost predicate Agree(orders: map<string, Order>, byKey: map<string, Order>) {
    && (forall id | id in orders ::
          orders[id].id == id && MapKey(orders[id]) in byKey && byKey[MapKey(orders[id])] == orders[id])
    && (forall k | k in byKey :: MapKey(byKey[k]) == k && byKey[k].id in orders && orders[byKey[k].id] == byKey[k])
  }

  ghost predicate Valid(s: State) {
    Agree(s.orders, s.byKey)
  }

  lemma HoldKeepsAgreement(s: State, order: Order, now: int)
    requires Valid(s) && order.id !in s.orders
    ensures Valid(AfterHold(s, order, now))
  {
  }

  lemma CloseKeepsAgreement(s: State, ids: set<string>, status: OrderStatus)
    requires Valid(s)
    ensures Valid(Close(s, ids, status))
  {
    var t := Close(s, ids, status);
    forall id | id in t.orders
      ensures t.orders[id].id == id && MapKey(t.orders[id]) in t.byKey
              && t.byKey[MapKey(t.orders[id])] == t.orders[id]
    {
      assert MapKey(t.orders[id]) == MapKey(s.orders[id]);
    }
    forall k | k in t.byKey
      ensures MapKey(t.byKey[k]) == k && t.byKey[k].id in t.orders && t.orders[t.byKey[k].id] == t.byKey[k]
    {
      assert MapKey(t.byKey[k]) == MapKey(s.byKey[k]);
    }
  }

  /** Ending two groups of orders one after the other is ending them together. */
  lemma ClosesCompose(s: State, a: set<string>, b: set<string>, status: OrderStatus)
    ensures Close(Close(s, a, status), b, status) == Close(s, a + b, status)
  {
  }

  /** Storing one order's new status is closing it. */
  lemma StoreIsClose(s: State, id: string, status: OrderStatus)
    requires Valid(s) && id in s.orders
    ensures Store(s.(seats := Release(s.seats, {id})), s.orders[id].(status := status)) == Close(s, {id}, status)
  {
    var order := s.orders[id];
    assert forall k | k in s.byKey :: s.byKey[k].id == id <==> k == MapKey(order);
  }

  // ----- the code

  /** `list` holds the orders with these identifiers, each once. */
  ghost predicate Lists(list: seq<Order>, orders: map<string, Order>, ids: set<string>) {
    && ids <= orders.Keys && |list| == |ids|
    && (forall o | o in list :: o.id in ids && orders[o.id] == o)
    && (forall id | id in ids :: orders[id].id == id && orders[id] in list)
  }

  function Ids(list: seq<Order>): seq<string> {
    seq(|list|, i requires 0 <= i < |list| => list[i].id)
  }

  lemma ListedIds(list: seq<Order>, orders: map<string, Order>, ids: set<string>)
    requires Lists(list, orders, ids)
    ensures Elements(Ids(list)) == ids
    ensures forall i, j | 0 <= i < j < |list| :: Ids(list)[i] != Ids(list)[j]
  {
    forall id | id in ids ensures id in Ids(list) {
      var i :| 0 <= i < |list| && list[i] == orders[id];
      assert Ids(list)[i] == id;
    }
    forall id | id in Ids(list) ensures id in ids {
      var i :| 0 <= i < |list| && Ids(list)[i] == id;
      assert list[i] in list;
    }
    DistinctIffFullCount(Ids(list));
  }

  lemma PrefixLists(sorted: seq<Order>, orders: map<string, Order>, ids: set<string>, n: nat)
    requires Lists(sorted, orders, ids) && n <= |sorted|
    ensures Lists(sorted[..n], orders, FirstIds(sorted, n)) && FirstIds(sorted, n) <= ids && |FirstIds(sorted, n)| == n
  {
    ListedIds(sorted, orders, ids);
    var first := sorted[..n];
    assert Ids(first) == Ids(sorted)[..n];
    DistinctIffFullCount(Ids(first));
    forall id | id in FirstIds(sorted, n) ensures id in ids && orders[id].id == id && orders[id] in first {
      var i :| 0 <= i < n && Ids(first)[i] == id;
      assert sorted[i] in sorted && first[i] == sorted[i];
    }
    forall o | o in first ensures o.id in FirstIds(sorted, n) && orders[o.id] == o {
      var i :| 0 <= i < n && first[i] == o;
      assert Ids(first)[i] == o.id && sorted[i] in sorted;
    }
  }

  lemma PrefixIsEarliest(sorted: seq<Order>, orders: map<string, Order>, ids: set<string>, n: nat, a: string, b: string)
    requires Lists(sorted, orders, ids) && Ordered(sorted, ExpiresBefore) && n <= |sorted|
    requires a in ids && b in ids && a in FirstIds(sorted, n) && b !in FirstIds(sorted, n)
    ensures orders[a].expiresAt <= orders[b].expiresAt
  {
    var first := sorted[..n];
    var i :| 0 <= i < n && Ids(first)[i] == a;
    assert orders[b] in sorted;
    var j :| 0 <= j < |sorted| && sorted[j] == orders[b];
    assert sorted[i] in sorted && sorted[i].id == a;
    assert forall k | 0 <= k < n :: Ids(first)[k] in FirstIds(sorted, n) && Ids(first)[k] == sorted[k].id;
    assert !ExpiresBefore(sorted[j], sorted[i]);
  }

  /** Sorting a listing and cutting it after `n` orders lists the `n` that expire first. */
  lemma FirstListed(sorted: seq<Order>, orders: map<string, Order>, ids: set<string>, n: nat)
    returns (batch: set<string>)
    requires Lists(sorted, orders, ids) && Ordered(sorted, ExpiresBefore) && n <= |sorted|
    ensures Lists(sorted[..n], orders, batch) && batch <= ids && |batch| == n
    ensures forall a, b | a in batch && b in ids - batch :: orders[a].expiresAt <= orders[b].expiresAt
  {
    hide Ordered, FirstIds;
    batch := FirstIds(sorted, n);
    PrefixLists(sorted, orders, ids, n);
    forall a, b | a in batch && b in ids - batch ensures orders[a].expiresAt <= orders[b].expiresAt {
      PrefixIsEarliest(sorted, orders, ids, n, a, b);
    }
  }

  predicate ExpiresBefore(a: Order, b: Order) {
    a.expiresAt < b.expiresAt
  }

  lemma StillLists(p: seq<Order>, q: seq<Order>, orders: map<string, Order>, ids: set<string>)
    requires Lists(p, orders, ids) && multiset(p) == multiset(q)
    ensures Lists(q, orders, ids)
  {
    assert |p| == |multiset(p)| == |multiset(q)| == |q|;
    assert forall o :: o in q <==> o in multiset(q);
    assert forall o :: o in p <==> o in multiset(p);
  }

  lemma ListsOneMore(list: seq<Order>, orders: map<string, Order>, ids: set<string>, id: string)
    requires Lists(list, orders, ids) && id in orders && id !in ids && orders[id].id == id
    ensures Lists(list + [orders[id]], orders, ids + {id})
  {
  }

  function FirstIds(list: seq<Order>, n: nat): set<string>
    requires n <= |list|
  {
    Elements(Ids(list[..n]))
  }

  lemma FirstIdsEnds(list: seq<Order>, orders: map<string, Order>, ids: set<string>)
    requires Lists(list, orders, ids)
    ensures FirstIds(list, 0) == {} && FirstIds(list, |list|) == ids
  {
    ListedIds(list, orders, ids);
    assert list[..|list|] == list;
  }

  /** Up to its status, the order is the stored one. */
  ghost predicate IsStored(s: State, order: Order) {
    Valid(s) && order.id in s.orders && s.orders[order.id].(status := Expired) == order.(status := Expired)
  }

  lemma ExpireNext(s: State, list: seq<Order>, batch: set<string>, i: nat)
    requires Valid(s) && Lists(list, s.orders, batch) && i < |list|
    ensures var t, order := Close(s, FirstIds(list, i), Expired), list[i];
      && IsStored(t, order)
      && Close(t, {order.id}, Expired) == Close(s, FirstIds(list, i + 1), Expired)
  {
    var done, order := FirstIds(list, i), list[i];
    assert order in list;
    CloseKeepsAgreement(s, done, Expired);
    ClosesCompose(s, done, {order.id}, Expired);
    assert Ids(list[..i + 1]) == Ids(list[..i]) + [order.id];
    assert FirstIds(list, i + 1) == done + {order.id};
  }

  class MemoryRepository {
    var seats: map<string, Seat>
    var orders: map<string, Order>
    var ordersByIdempotency: map<string, Order>

    ghost function View(): State
      reads this
    {
      State(seats, orders, ordersByIdempotency)
    }

    constructor (inventory: map<string, Seat>)
      ensures View() == State(inventory, map[], map[]) && Valid(View())
    {
      seats, orders, ordersByIdempotency := inventory, map[], map[];
    }

    method FindOrderByIdempotency(userID: string, key: string) returns (order: Option<Order>)
      ensures order ==
        if Joined(userID, key) in ordersByIdempotency then Some(ordersByIdempotency[Joined(userID, key)]) else None
    {
      var k := userID + "\0" + key;
      if k in ordersByIdempotency { return Some(ordersByIdempotency[k]); }
      return None;
    }

    method CreateHold(order: Order, now: int) returns (r: Outcome)
      modifies this
      ensures View() == AfterHold(old(View()), order, now) && r == HoldOutcome(old(View()), order, now)
    {
      var key := MapKey(order);
      if key in ordersByIdempotency {
        var existing := ordersByIdempotency[key];
        if SameHoldRequest(existing, order.showtime, order.seatIds) { return Done(existing); }
        return Refused(KeyReused);
      }
      for i := 0 to |order.seatIds|
        invariant forall k | 0 <= k < i :: CanHoldSeat(seats, order, order.seatIds[k], now)
      {
        var id := order.seatIds[i];
        if id !in seats || seats[id].showtime != order.showtime || !AvailableForHold(seats[id], now) {
          assert !CanHoldSeat(seats, order, order.seatIds[i], now);
          return Refused(SeatUnavailable);
        }
      }
      ghost var before := seats;
      assert HoldSeats(before, order, {}) == before;
      for i := 0 to |order.seatIds|
        invariant orders == old(orders) && ordersByIdempotency == old(ordersByIdempotency)
        invariant seats == HoldSeats(before, order, Elements(order.seatIds[..i]))
      {
        var id := order.seatIds[i];
        assert CanHoldSeat(before, order, id, now);
        seats := seats[id := seats[id].(status := Held, holdOrder := order.id, holdExpires := order.expiresAt)];
        assert order.seatIds[..i + 1] == order.seatIds[..i] + [id];
      }
      assert order.seatIds[..|order.seatIds|] == order.seatIds;
      ordersByIdempotency := ordersByIdempotency[key := order];
      orders := orders[order.id := order];
      return Done(order);
    }

    method CancelOrder(orderID: string, userID: string, now: int) returns (r: Outcome)
      requires Valid(View())
      modifies this
      ensures View() == AfterCancel(old(View()), orderID, userID, now)
      ensures r == CancelOutcome(old(View()), orderID, userID, now)
    {
      var n, batch := ExpireLocked(now, |orders|);
      EverythingDue(old(View()), now, batch);
      if orderID !in orders || orders[orderID].user != userID { return Refused(OrderNotFound); }
      var order := orders[orderID];
      if order.status != PendingPayment { return Refused(OrderNotCancellable); }
      CloseKeepsAgreement(old(View()), batch, Expired);
      StoreIsClose(View(), orderID, Cancelled);
      order := order.(status := Cancelled);
      ReleaseLocked(order.id);
      StoreLocked(order);
      return Done(order);
    }

    method ExpirePendingHolds(now: int, limit: int) returns (n: nat, ghost batch: set<string>)
      requires Valid(View())
      modifies this
      ensures IsEarliest(batch, old(View()), now, limit) && n == |batch|
      ensures View() == Close(old(View()), batch, Expired)
    {
      n, batch := ExpireLocked(now, limit);
    }

    method ExpireLocked(now: int, limit: int) returns (n: nat, ghost batch: set<string>)
      requires Valid(View())
      modifies this
      ensures IsEarliest(batch, old(View()), now, limit) && n == |batch|
      ensures View() == Close(old(View()), batch, Expired)
    {
      if limit <= 0 {
        NothingCloses(View());
        return 0, {};
      }
      var due := DueOrders(now);
      var sorted := Sorted(due, ExpiresBefore);
      StillLists(due, sorted, orders, Due(View(), now));
      var n' := if |sorted| > limit then limit else |sorted|;
      batch := FirstListed(sorted, orders, Due(View(), now), n');
      ExpireAll(sorted[..n'], batch);
      return n', batch;
    }

    method DueOrders(now: int) returns (due: seq<Order>)
      requires Valid(View())
      ensures Lists(due, orders, Due(View(), now))
    {
      due := [];
      var todo := orders.Keys;
      ghost var listed: set<string> := {};
      while todo != {}
        invariant todo <= orders.Keys && Lists(due, orders, listed)
        invariant forall id :: id in listed <==> id in orders && id !in todo && IsDue(orders[id], now)
        decreases |todo|
      {
        var id :| id in todo;
        if IsDue(orders[id], now) {
          ListsOneMore(due, orders, listed, id);
          due := due + [orders[id]];
          listed := listed + {id};
        }
        todo := todo - {id};
      }
      assert listed == Due(View(), now);
    }

    method ExpireAll(list: seq<Order>, ghost batch: set<string>)
      requires Valid(View()) && Lists(list, View().orders, batch)
      modifies this
      ensures View() == Close(old(View()), batch, Expired)
    {
      hide *;
      ghost var before := View();
      NothingCloses(before);
      FirstIdsEnds(list, before.orders, batch);
      for i := 0 to |list|
        invariant View() == Close(before, FirstIds(list, i), Expired)
      {
        ExpireNext(before, list, batch, i);
        ExpireOne(list[i]);
      }
    }

    method ExpireOne(order: Order)
      requires IsStored(View(), order)
      modifies this
      ensures View() == Close(old(View()), {order.id}, Expired)
    {
      StoreIsClose(View(), order.id, Expired);
      ReleaseLocked(order.id);
      StoreLocked(order.(status := Expired));
    }

    method ReleaseLocked(orderID: string)
      modifies this`seats
      ensures seats == Release(old(seats), {orderID})
    {
      var todo := seats.Keys;
      while todo != {}
        invariant todo <= old(seats).Keys == seats.Keys
        invariant forall x | x in seats ::
          seats[x] == if x in todo then old(seats)[x] else Release(old(seats), {orderID})[x]
        decreases |todo|
      {
        var id :| id in todo;
        if seats[id].status == Held && seats[id].holdOrder == orderID {
          seats := seats[id := Seat(seats[id].showtime, Available, "", 0)];
        }
        todo := todo - {id};
      }
    }

    method StoreLocked(order: Order)
      modifies this`orders, this`ordersByIdempotency
      ensures View() == Store(old(View()), order)
    {
      orders := orders[order.id := order];
      ordersByIdempotency := ordersByIdempotency[MapKey(order) := order];
    }
  }

  lemma NothingCloses(s: State)
    ensures Close(s, {}, Expired) == s
  {
  }

  /** As many as there are orders: all the due ones. */
  lemma EverythingDue(s: State, now: int, batch: set<string>)
    requires IsEarliest(batch, s, now, |s.orders|)
    ensures batch == Due(s, now)
  {
    SubsetSizes(Due(s, now), s.orders.Keys);
    SubsetSizes(batch, Due(s, now));
  }
}
