/** The booking service over the in-memory repository: canonical seat lists and idempotent holds. */
module BookingService {
  import opened BookingMemory
  import opened Common
  import opened Sorting
  import opened Text

  datatype HoldInput = HoldInput(user: string, showtime: string, seatIds: seq<string>, key: string)

  predicate Blank(s: string) {
    TrimSpace(s) == []
  }

  function Trimmed(ids: seq<string>): (r: seq<string>)
    ensures |r| == |ids|
  {
    seq(|ids|, i requires 0 <= i < |ids| => TrimSpace(ids[i]))
  }

  predicate ValidSeats(ids: seq<string>) {
    && ids != []
    && (forall i | 0 <= i < |ids| :: !Blank(ids[i]))
    && forall i, j | 0 <= i < j < |ids| :: TrimSpace(ids[i]) != TrimSpace(ids[j])
  }

  predicate ValidInput(input: HoldInput) {
    !Blank(input.user) && !Blank(input.showtime) && !Blank(input.key) && ValidSeats(input.seatIds)
  }

  function Canonical(ids: seq<string>): seq<string> {
    SortedBy(Trimmed(ids), Less)
  }

  method ValidateAndSortSeatIDs(input: HoldInput) returns (r: Option<seq<string>>)
    ensures r == if ValidInput(input) then Some(Canonical(input.seatIds)) else None
  {
    if TrimSpace(input.user) == [] || TrimSpace(input.showtime) == [] || TrimSpace(input.key) == []
       || |input.seatIds| == 0 {
      return None;
    }
    var seen: set<string> := {};
    var seatIds: seq<string> := [];
    for i := 0 to |input.seatIds|
      invariant |seatIds| == i && forall k | 0 <= k < i :: seatIds[k] == TrimSpace(input.seatIds[k])
      invariant forall s :: s in seen <==> s in seatIds
      invariant forall k | 0 <= k < i :: !Blank(input.seatIds[k])
      invariant forall k, l | 0 <= k < l < i :: seatIds[k] != seatIds[l]
    {
      var seatId := TrimSpace(input.seatIds[i]);
      if seatId == [] { assert Blank(input.seatIds[i]); return None; }
      if seatId in seen {
        var k :| 0 <= k < i && seatIds[k] == seatId;
        assert TrimSpace(input.seatIds[k]) == TrimSpace(input.seatIds[i]);
        return None;
      }
      seen := seen + {seatId};
      seatIds := seatIds + [seatId];
    }
    assert seatIds == Trimmed(input.seatIds);
    LessSorts();
    var sorted := Sorted(seatIds, Less);
    SortedBySorts(seatIds, Less);
    OrderedIsUnique(sorted, SortedBy(seatIds, Less), Less);
    return Some(sorted);
  }

  function NewOrder(input: HoldInput, id: string, now: int, holdDuration: int): Order {
    Order(id, input.user, input.showtime, input.key, PendingPayment, now + holdDuration, now, Canonical(input.seatIds))
  }

  function AfterRequest(s: State, input: HoldInput, id: string, now: int, holdDuration: int): State {
    if !ValidInput(input) || Joined(input.user, input.key) in s.byKey then s
    else AfterHold(s, NewOrder(input, id, now, holdDuration), now)
  }

  function RequestOutcome(s: State, input: HoldInput, id: string, now: int, holdDuration: int): Outcome {
    if !ValidInput(input) then Refused(InvalidHoldInput)
    else HoldOutcome(s, NewOrder(input, id, now, holdDuration), now)
  }

  /** Service.CreateHold; `id` is the identifier drawn for a new order. */
  method CreateHold(repository: MemoryRepository, input: HoldInput, id: string, now: int, holdDuration: int)
    returns (r: Outcome)
    modifies repository
    ensures repository.View() == AfterRequest(old(repository.View()), input, id, now, holdDuration)
    ensures r == RequestOutcome(old(repository.View()), input, id, now, holdDuration)
  {
    var seatIds := ValidateAndSortSeatIDs(input);
    if seatIds.None? { return Refused(InvalidHoldInput); }
    var existing := repository.FindOrderByIdempotency(input.user, input.key);
    if existing.Some? {
      if SameHoldRequest(existing.value, input.showtime, seatIds.value) { return Done(existing.value); }
      return Refused(KeyReused);
    }
    var order :=
      Order(id, input.user, input.showtime, input.key, PendingPayment, now + holdDuration, now, seatIds.value);
    r := repository.CreateHold(order, now);
  }

  // ----- canonical seat lists

  /** Two requests name the same seats, in whatever order and padding, exactly when their
      canonical lists coincide. */
  lemma SameSeatsIffSameList(a: seq<string>, b: seq<string>)
    ensures Canonical(a) == Canonical(b) <==> multiset(Trimmed(a)) == multiset(Trimmed(b))
  {
    LessSorts();
    SortsAlikeIffRearranged(Trimmed(a), Trimmed(b), Less);
  }

  /** Padding every name of a trimmed list, and any rearrangement, leaves the canonical list alone. */
  lemma PaddingIsIgnored(names: seq<string>, sent: seq<string>, lefts: seq<string>, rights: seq<string>,
                         order: seq<string>)
    requires |sent| == |names| == |lefts| == |rights|
    requires forall i | 0 <= i < |names| :: IsTrimmed(names[i]) && AllSpace(lefts[i]) && AllSpace(rights[i])
    requires forall i | 0 <= i < |names| :: sent[i] == lefts[i] + names[i] + rights[i]
    requires multiset(order) == multiset(sent)
    ensures Canonical(order) == Canonical(names)
  {
    forall i | 0 <= i < |names| ensures TrimSpace(sent[i]) == names[i] && TrimSpace(names[i]) == names[i] {
      TrimPadded(lefts[i], names[i], rights[i]);
      TrimmedIsFixed(names[i]);
    }
    assert Trimmed(sent) == names && Trimmed(names) == names;
    TrimmedRearranged(order, sent);
    SameSeatsIffSameList(order, names);
  }

  lemma TrimmedWithout(q: seq<string>, i: nat)
    requires i < |q|
    ensures multiset(q[..i] + q[i + 1..]) == multiset(q) - multiset{q[i]}
    ensures multiset(Trimmed(q)) == multiset(Trimmed(q[..i] + q[i + 1..])) + multiset{TrimSpace(q[i])}
  {
    assert q == q[..i] + [q[i]] + q[i + 1..];
    assert Trimmed(q) == Trimmed(q[..i]) + [TrimSpace(q[i])] + Trimmed(q[i + 1..]);
    assert Trimmed(q[..i] + q[i + 1..]) == Trimmed(q[..i]) + Trimmed(q[i + 1..]);
  }

  lemma FirstOccurs(p: seq<string>, q: seq<string>) returns (i: nat)
    requires multiset(p) == multiset(q) && p != []
    ensures |p| == |q| && i < |q| && q[i] == p[0] && p[..0] + p[0 + 1..] == p[1..]
  {
    assert |p| == |multiset(p)| == |multiset(q)| == |q|;
    assert p[0] in multiset(q);
    i :| 0 <= i < |q| && q[i] == p[0];
  }

  lemma {:induction false} TrimmedRearranged(p: seq<string>, q: seq<string>)
    requires multiset(p) == multiset(q)
    ensures multiset(Trimmed(p)) == multiset(Trimmed(q))
  {
    if p == [] {
      assert |q| == |multiset(q)| == 0;
    } else {
      hide *;
      var i := FirstOccurs(p, q);
      TrimmedWithout(p, 0);
      TrimmedWithout(q, i);
      TrimmedRearranged(p[1..], q[..i] + q[i + 1..]);
    }
  }

  // ----- runs

  datatype Op =
    | Hold(input: HoldInput, id: string, now: int, holdDuration: int)
    | Cancel(orderID: string, user: string, now: int)
    | Expire(now: int, limit: int, batch: set<string>)

  /** New orders get identifiers that no stored order has. */
  ghost predicate Enabled(s: State, op: Op) {
    match op
    case Hold(_, id, _, _) => id !in s.orders
    case Cancel(_, _, _) => true
    case Expire(now, limit, batch) => IsEarliest(batch, s, now, limit)
  }

  function Step(s: State, op: Op): State {
    match op
    case Hold(input, id, now, holdDuration) => AfterRequest(s, input, id, now, holdDuration)
    case Cancel(orderID, user, now) => AfterCancel(s, orderID, user, now)
    case Expire(_, _, batch) => Close(s, batch, Expired)
  }

  ghost predicate Run(s: State, ops: seq<Op>)
    decreases |ops|
  {
    ops == [] || (Enabled(s, ops[0]) && Run(Step(s, ops[0]), ops[1..]))
  }

  function Exec(s: State, ops: seq<Op>): State
    decreases |ops|
  {
    if ops == [] then s else Exec(Step(s, ops[0]), ops[1..])
  }

  lemma StepKeepsAgreement(s: State, op: Op)
    requires Valid(s) && Enabled(s, op)
    ensures Valid(Step(s, op))
  {
    match op
    case Hold(input, id, now, holdDuration) => HoldKeepsAgreement(s, NewOrder(input, id, now, holdDuration), now);
    case Cancel(orderID, user, now) => {
      CloseKeepsAgreement(s, Due(s, now), Expired);
      CloseKeepsAgreement(Close(s, Due(s, now), Expired), {orderID}, Cancelled);
    }
    case Expire(_, _, batch) => CloseKeepsAgreement(s, batch, Expired);
  }

  /** An order as it was when placed: everything but its status. */
  function Placed(order: Order): Order {
    order.(status := PendingPayment)
  }

  lemma StepKeepsKeys(s: State, op: Op, key: string)
    requires key in s.byKey
    ensures key in Step(s, op).byKey && Placed(Step(s, op).byKey[key]) == Placed(s.byKey[key])
  {
  }

  /** In every run the two order maps agree, and a key once taken stays with its order. */
  lemma {:induction false} RunsAgree(s: State, ops: seq<Op>, key: string)
    requires Valid(s) && Run(s, ops)
    ensures Valid(Exec(s, ops))
    ensures key in s.byKey ==> key in Exec(s, ops).byKey && Placed(Exec(s, ops).byKey[key]) == Placed(s.byKey[key])
    decreases |ops|
  {
    if ops != [] {
      StepKeepsAgreement(s, ops[0]);
      if key in s.byKey { StepKeepsKeys(s, ops[0], key); }
      RunsAgree(Step(s, ops[0]), ops[1..], key);
    }
  }

  // ----- idempotency

  /** After a hold was granted, and whatever happened since, another request with the same user and
      key changes nothing: it returns the stored order if it names the same showtime and seats in
      any order and padding, and is refused otherwise. */
  lemma RetriesAreIdempotent(s: State, first: HoldInput, id: string, now: int, holdDuration: int, ops: seq<Op>,
                             again: HoldInput, id': string, now': int, holdDuration': int)
    requires Valid(s) && id !in s.orders && ValidInput(first) && ValidInput(again)
    requires RequestOutcome(s, first, id, now, holdDuration).Done?
    requires Run(AfterRequest(s, first, id, now, holdDuration), ops)
    requires first.user == again.user && first.key == again.key
    ensures var t, key := Exec(AfterRequest(s, first, id, now, holdDuration), ops), Joined(first.user, first.key);
      && key in t.byKey && AfterRequest(t, again, id', now', holdDuration') == t
      && Placed(t.byKey[key]) == Placed(RequestOutcome(s, first, id, now, holdDuration).order)
      && RequestOutcome(t, again, id', now', holdDuration')
        == if again.showtime == first.showtime && multiset(Trimmed(again.seatIds)) == multiset(Trimmed(first.seatIds))
           then Done(t.byKey[key]) else Refused(KeyReused)
  {
    var key, granted := Joined(first.user, first.key), AfterRequest(s, first, id, now, holdDuration);
    var order := NewOrder(first, id, now, holdDuration);
    assert MapKey(order) == key;
    GrantedIsStored(s, first, id, now, holdDuration);
    if key !in s.byKey { HoldKeepsAgreement(s, order, now); }
    RunsAgree(granted, ops, key);
    SameSeatsIffSameList(again.seatIds, first.seatIds);
  }

  /** A granted request finds its order stored under its key, with the requested showtime and seats. */
  lemma GrantedIsStored(s: State, input: HoldInput, id: string, now: int, holdDuration: int)
    requires RequestOutcome(s, input, id, now, holdDuration).Done?
    ensures var key := Joined(input.user, input.key);
      && key in AfterRequest(s, input, id, now, holdDuration).byKey
      && AfterRequest(s, input, id, now, holdDuration).byKey[key] ==
        RequestOutcome(s, input, id, now, holdDuration).order
      && RequestOutcome(s, input, id, now, holdDuration).order.showtime == input.showtime
      && RequestOutcome(s, input, id, now, holdDuration).order.seatIds == Canonical(input.seatIds)
  {
    assert MapKey(NewOrder(input, id, now, holdDuration)) == Joined(input.user, input.key);
  }

  lemma CanonicalNames(ids: seq<string>, x: string)
    ensures x in Canonical(ids) <==> x in Trimmed(ids)
  {
    LessSorts();
    SortedBySorts(Trimmed(ids), Less);
    assert x in Canonical(ids) <==> x in multiset(Canonical(ids));
    assert x in Trimmed(ids) <==> x in multiset(Trimmed(ids));
  }

  lemma CanHoldByName(seats: map<string, Seat>, order: Order, ids: seq<string>, now: int)
    requires order.seatIds == Canonical(ids)
    ensures CanHold(seats, order, now) <==> forall x | x in Trimmed(ids) :: CanHoldSeat(seats, order, x, now)
  {
    forall x ensures x in order.seatIds <==> x in Trimmed(ids) { CanonicalNames(ids, x); }
    hide CanHoldSeat, Canonical, Trimmed;
  }

  /** A new key is granted exactly when every named seat is in the showtime and free; then exactly
      those seats are held for the new order. */
  lemma NewKeyHoldsExactlyItsSeats(s: State, input: HoldInput, id: string, now: int, holdDuration: int)
    requires ValidInput(input) && Joined(input.user, input.key) !in s.byKey
    ensures RequestOutcome(s, input, id, now, holdDuration).Done? <==>
      forall x | x in Trimmed(input.seatIds) ::
        x in s.seats && s.seats[x].showtime == input.showtime && AvailableForHold(s.seats[x], now)
    ensures !RequestOutcome(s, input, id, now, holdDuration).Done? ==>
      AfterRequest(s, input, id, now, holdDuration) == s
    ensures RequestOutcome(s, input, id, now, holdDuration).Done? ==>
      forall x | x in s.seats :: x in AfterRequest(s, input, id, now, holdDuration).seats
        && AfterRequest(s, input, id, now, holdDuration).seats[x]
          == if x in Trimmed(input.seatIds) then Seat(input.showtime, Held, id, now + holdDuration) else s.seats[x]
  {
    var order := NewOrder(input, id, now, holdDuration);
    assert MapKey(order) == Joined(input.user, input.key);
    CanHoldByName(s.seats, order, input.seatIds, now);
    forall x ensures x in order.seatIds <==> x in Trimmed(input.seatIds) { CanonicalNames(input.seatIds, x); }
    forall x | x in Trimmed(input.seatIds) ensures CanHoldSeat(s.seats, order, x, now)
      <==> x in s.seats && s.seats[x].showtime == input.showtime && AvailableForHold(s.seats[x], now) {
    }
    hide Canonical, Trimmed, CanHold, Joined, ValidSeats;
  }

  // ----- the composite key

  ghost predicate NulFreeUsers(s: State) {
    forall id | id in s.orders :: '\0' !in s.orders[id].user
  }

  /** The key map finds exactly the stored order of that user and key, users holding no NUL. */
  lemma KeyFindsOwnOrder(s: State, user: string, key: string)
    requires Valid(s) && NulFreeUsers(s) && '\0' !in user
    ensures Joined(user, key) in s.byKey <==>
      exists id :: id in s.orders && s.orders[id].user == user && s.orders[id].key == key
    ensures Joined(user, key) in s.byKey ==>
      s.byKey[Joined(user, key)].user == user && s.byKey[Joined(user, key)].key == key
  {
    var k := Joined(user, key);
    if k in s.byKey {
      var order := s.byKey[k];
      assert Joined(order.user, order.key) == k;
      JoinedIsInjective(order.user, order.key, user, key);
    }
  }

  /** Two users' keys can never coincide exactly when neither name, followed by NUL, begins the other. */
  lemma KeysNeverCollideIff(u: string, v: string)
    requires u != v
    ensures (forall k, l :: Joined(u, k) != Joined(v, l)) <==> !(u + "\0" <= v) && !(v + "\0" <= u)
  {
    if u + "\0" <= v { Collide(u, v); }
    if v + "\0" <= u { Collide(v, u); }
    if !(u + "\0" <= v) && !(v + "\0" <= u) {
      forall k, l ensures Joined(u, k) != Joined(v, l) {
        if Joined(u, k) == Joined(v, l) {
          if |u| < |v| { BeginsLonger(u, k, v, l); }
          else if |v| < |u| { BeginsLonger(v, l, u, k); }
          else { SameLength(u, k, v, l); }
        }
      }
    }
  }

  lemma SameLength(u: string, k: string, v: string, l: string)
    requires |u| == |v| && Joined(u, k) == Joined(v, l)
    ensures u == v
  {
    assert u == Joined(u, k)[..|u|] && v == Joined(v, l)[..|v|];
  }

  lemma BeginsLonger(u: string, k: string, v: string, l: string)
    requires |u| < |v| && Joined(u, k) == Joined(v, l)
    ensures u + "\0" <= v
  {
    assert u + "\0" == Joined(u, k)[..|u| + 1] && v[..|u| + 1] == Joined(v, l)[..|u| + 1];
  }

  lemma Collide(u: string, v: string)
    requires u + "\0" <= v
    ensures exists k, l :: Joined(u, k) == Joined(v, l)
    ensures exists k, l :: Joined(v, k) == Joined(u, l)
  {
    assert Joined(u, Joined(v[|u| + 1..], "k")) == Joined(v, "k");
  }

  lemma VisibleIsNotBlank(s: string, i: nat)
    requires i < |s| && !IsSpace(s[i])
    ensures !Blank(s)
  {
    var left, right := TrimSplits(s);
    assert Blank(s) ==> s == left + right;
  }

  lemma NulIsVisible(a: string, b: string)
    ensures !Blank(Joined(a, b))
  {
    VisibleIsNotBlank(Joined(a, b), |a|);
  }

  /** When one user's name followed by NUL begins another's, there are keys for which the second is
      handed the first one's order, at any later point of any run. */
  lemma CollidingUserGetsOthersOrder(s: State, u: string, v: string, l: string, showtime: string, seatIds: seq<string>,
                                     id: string, now: int, holdDuration: int, ops: seq<Op>,
                                     id': string, now': int, holdDuration': int)
    requires u + "\0" <= v && !Blank(u) && !Blank(l) && !Blank(showtime) && ValidSeats(seatIds)
    requires var mine := HoldInput(u, showtime, seatIds, Joined(v[|u| + 1..], l));
      && Valid(s) && id !in s.orders && Joined(u, mine.key) !in s.byKey
      && RequestOutcome(s, mine, id, now, holdDuration).Done?
      && Run(AfterRequest(s, mine, id, now, holdDuration), ops)
    ensures var mine, theirs :=
        HoldInput(u, showtime, seatIds, Joined(v[|u| + 1..], l)), HoldInput(v, showtime, seatIds, l);
      var outcome :=
        RequestOutcome(Exec(AfterRequest(s, mine, id, now, holdDuration), ops), theirs, id', now', holdDuration');
      && ValidInput(mine) && ValidInput(theirs) && u != v
      && outcome.Done? && outcome.order.user == u && outcome.order.id == id
  {
    var rest := v[|u| + 1..];
    var mine, theirs := HoldInput(u, showtime, seatIds, Joined(rest, l)), HoldInput(v, showtime, seatIds, l);
    assert v == Joined(u, rest) && Joined(u, mine.key) == Joined(v, l);
    NulIsVisible(u, rest);
    NulIsVisible(rest, l);
    var granted, key := AfterRequest(s, mine, id, now, holdDuration), Joined(u, mine.key);
    assert MapKey(NewOrder(mine, id, now, holdDuration)) == key;
    assert MapKey(NewOrder(theirs, id', now', holdDuration')) == key;
    hide ValidSeats, Joined, Blank;
    GrantedIsStored(s, mine, id, now, holdDuration);
    HoldKeepsAgreement(s, NewOrder(mine, id, now, holdDuration), now);
    RunsAgree(granted, ops, key);
  }

  // ----- bounded expiry

  lemma ExpiryShrinksDue(s: State, now: int, limit: int, batch: set<string>)
    requires Valid(s) && IsEarliest(batch, s, now, limit)
    ensures Due(Close(s, batch, Expired), now) == Due(s, now) - batch
    ensures |Due(Close(s, batch, Expired), now)| == |Due(s, now)| - Min(Max(limit, 0), |Due(s, now)|)
  {
    SubsetSizes(batch, Due(s, now));
  }

  ghost predicate Batches(s: State, now: int, limit: int, batches: seq<set<string>>)
    decreases |batches|
  {
    batches != [] ==>
      IsEarliest(batches[0], s, now, limit) && Batches(Close(s, batches[0], Expired), now, limit, batches[1..])
  }

  function AfterBatches(s: State, batches: seq<set<string>>): State
    decreases |batches|
  {
    if batches == [] then s else AfterBatches(Close(s, batches[0], Expired), batches[1..])
  }

  lemma OneRoundLess(rounds: nat, limit: nat, due: nat)
    requires rounds > 0 && rounds * limit >= due
    ensures (rounds - 1) * limit >= due - Min(limit, due)
  {
    assert rounds * limit == (rounds - 1) * limit + limit;
  }

  lemma BatchUnfolds(s: State, now: int, limit: nat, batches: seq<set<string>>)
    requires Batches(s, now, limit, batches) && batches != []
    ensures IsEarliest(batches[0], s, now, limit) && batches[0] <= Due(s, now)
    ensures Batches(Close(s, batches[0], Expired), now, limit, batches[1..])
    ensures AfterBatches(s, batches) == AfterBatches(Close(s, batches[0], Expired), batches[1..])
  {
    hide Close;
  }

  lemma BatchStep(s: State, now: int, limit: nat, batches: seq<set<string>>)
    requires Valid(s) && limit > 0 && Batches(s, now, limit, batches) && batches != []
    requires |batches| * limit >= |Due(s, now)|
    ensures var t, rest := Close(s, batches[0], Expired), batches[1..];
      && Valid(t) && Batches(t, now, limit, rest) && |rest| * limit >= |Due(t, now)|
      && AfterBatches(s, batches) == AfterBatches(t, rest)
      && Close(t, Due(t, now), Expired) == Close(s, Due(s, now), Expired)
  {
    hide *;
    BatchUnfolds(s, now, limit, batches);
    CloseKeepsAgreement(s, batches[0], Expired);
    ExpiryShrinksDue(s, now, limit, batches[0]);
    OneRoundLess(|batches|, limit, |Due(s, now)|);
    assert Max(limit, 0) == limit by { LimitIsMax(limit); }
    ClosesCompose(s, batches[0], Due(s, now) - batches[0], Expired);
    assert batches[0] + (Due(s, now) - batches[0]) == Due(s, now);
  }

  lemma LimitIsMax(limit: nat)
    ensures Max(limit, 0) == limit
  {
  }

  /** Enough bounded expiries at one instant add up to expiring everything due at once. */
  lemma {:induction false} BatchesExpireAll(s: State, now: int, limit: nat, batches: seq<set<string>>)
    requires Valid(s) && limit > 0 && Batches(s, now, limit, batches)
    requires |batches| * limit >= |Due(s, now)|
    ensures AfterBatches(s, batches) == Close(s, Due(s, now), Expired)
    ensures Due(AfterBatches(s, batches), now) == {}
    decreases |batches|
  {
    if batches == [] {
      assert Due(s, now) == {};
      NothingCloses(s);
    } else {
      hide *;
      BatchStep(s, now, limit, batches);
      BatchesExpireAll(Close(s, batches[0], Expired), now, limit, batches[1..]);
    }
  }
}
