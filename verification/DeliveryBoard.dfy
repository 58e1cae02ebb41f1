/** Many workers sharing the ticket delivery outbox. A worker claims a batch under a lease, tries to
    deliver each claimed event, and then completes it or schedules a retry; its steps interleave
    freely with those of other workers, and a worker may stop at any point. */
module DeliveryBoard {
  import opened Common
  import opened Store
  import Outbox

  datatype ClaimRecord = ClaimRecord(id: nat, at: Time)

  /** What became of a claim: the worker that made it, whether LoadDelivery and Deliver succeeded
      once they were tried, and whether the worker is done with it. */
  datatype Work = Work(worker: nat, delivered: Option<bool>, closed: bool)

  /** The outbox, the history of successful claims, and the work on each of them. */
  datatype Board = Board(outbox: seq<Delivery>, log: seq<ClaimRecord>, work: seq<Work>)

  /** What any worker, or a payment, may do next; `claim` is a position in the history. */
  datatype Op =
    | ClaimBatch(worker: nat, now: Time, limit: nat, locked: set<nat>, batch: set<nat>)
    | Deliver(worker: nat, claim: nat, ok: bool)
    | Complete(worker: nat, claim: nat)
    | Retry(worker: nat, claim: nat)
    | Enqueue(order: Id, availableAt: Time)

  ghost predicate Consistent(b: Board) {
    |b.work| == |b.log| && forall n | 0 <= n < |b.log| :: b.log[n].id < |b.outbox|
  }

  /** The claim is the worker's own, still open, and its delivery came out so. */
  predicate Working(b: Board, worker: nat, claim: nat, delivered: Option<bool>) {
    claim < |b.work| && claim < |b.log| && b.work[claim] == Work(worker, delivered, false)
  }

  /** Completing follows a successful delivery, retrying a failed one. */
  ghost predicate Enabled(b: Board, op: Op) {
    match op
    case ClaimBatch(_, now, limit, locked, batch) => Outbox.ClaimBatch(b.outbox, now, locked, limit, batch)
    case Deliver(worker, claim, _) => Working(b, worker, claim, None)
    case Complete(worker, claim) => Working(b, worker, claim, Some(true))
    case Retry(worker, claim) => Working(b, worker, claim, Some(false))
    case Enqueue(_, _) => true
  }

  /** RETURNING lists the claimed rows. */
  ghost function Records(batch: set<nat>, now: Time): seq<ClaimRecord> {
    var q := Ascending(batch);
    seq(|q|, i requires 0 <= i < |q| => ClaimRecord(q[i], now))
  }

  function Opened(n: nat, worker: nat): seq<Work> {
    seq(n, _ => Work(worker, None, false))
  }

  function Kept(outbox: seq<Delivery>, next: Outcome<seq<Delivery>>): seq<Delivery> {
    if next.Done? then next.value else outbox
  }

  ghost function Step(b: Board, op: Op, delay: int): Board
    requires Enabled(b, op)
  {
    match op
    case ClaimBatch(worker, now, _, _, batch) =>
      Board(Outbox.Claim(b.outbox, batch, now + delay), b.log + Records(batch, now),
            b.work + Opened(|Records(batch, now)|, worker))
    case Deliver(worker, claim, ok) => b.(work := b.work[claim := Work(worker, Some(ok), false)])
    case Complete(worker, claim) =>
      b.(work := b.work[claim := Work(worker, Some(true), true)],
         outbox := Kept(b.outbox, Outbox.Complete(b.outbox, b.log[claim].id)))
    case Retry(worker, claim) =>
      b.(work := b.work[claim := Work(worker, Some(false), true)],
         outbox := Kept(b.outbox, Outbox.Reschedule(b.outbox, b.log[claim].id, b.log[claim].at + delay)))
    case Enqueue(order, availableAt) => b.(outbox := b.outbox + [Delivery(order, DeliveryPending, 0, availableAt)])
  }

  /** A run of any interleaving of workers and payments. */
  ghost predicate Run(b: Board, delay: int, ops: seq<Op>)
    decreases |ops|
  {
    ops == [] || (Enabled(b, ops[0]) && Run(Step(b, ops[0], delay), delay, ops[1..]))
  }

  ghost function Exec(b: Board, delay: int, ops: seq<Op>): Board
    requires Run(b, delay, ops)
    decreases |ops|
  {
    if ops == [] then b else Exec(Step(b, ops[0], delay), delay, ops[1..])
  }

  // ----- claims

  lemma {:induction false} CountConcat(a: seq<ClaimRecord>, b: seq<ClaimRecord>, id: nat)
    ensures Count(a + b, id) == Count(a, id) + Count(b, id)
    decreases |b|
  {
    if b == [] {
      assert a + b == a;
    } else {
      assert (a + b)[..|a + b| - 1] == a + b[..|b| - 1];
      CountConcat(a, b[..|b| - 1], id);
    }
  }

  lemma {:induction false} CountDistinct(log: seq<ClaimRecord>, id: nat)
    requires forall i, j | 0 <= i < j < |log| :: log[i].id != log[j].id
    ensures Count(log, id) == if exists i :: 0 <= i < |log| && log[i].id == id then 1 else 0
    decreases |log|
  {
    if log != [] {
      var front := log[..|log| - 1];
      CountDistinct(front, id);
      if exists i :: 0 <= i < |front| && front[i].id == id {
        var i :| 0 <= i < |front| && front[i].id == id;
        assert log[i].id == id;
      }
      if exists i :: 0 <= i < |log| && log[i].id == id {
        var i :| 0 <= i < |log| && log[i].id == id;
        assert i < |front| ==> front[i].id == id;
      }
    }
  }

  lemma RecordsOf(batch: set<nat>, now: Time)
    ensures var q := Records(batch, now);
      && (forall i, j | 0 <= i < j < |q| :: q[i].id != q[j].id)
      && (forall i | 0 <= i < |q| :: q[i].id in batch && q[i].at == now)
      && (forall id | id in batch :: exists i :: 0 <= i < |q| && q[i].id == id)
  {
    AscendingLists(batch);
    var p, q := Ascending(batch), Records(batch, now);
    forall i | 0 <= i < |q| ensures q[i].id in batch {
      assert p[i] in Elements(p);
    }
    forall id | id in batch ensures exists i :: 0 <= i < |q| && q[i].id == id {
      assert id in Elements(p);
      var i :| 0 <= i < |p| && p[i] == id;
      assert q[i].id == id;
    }
  }

  function Count(log: seq<ClaimRecord>, id: nat): nat {
    if log == [] then 0 else Count(log[..|log| - 1], id) + if log[|log| - 1].id == id then 1 else 0
  }

  ghost predicate AttemptsCounted(b: Board) {
    Consistent(b) && forall i | 0 <= i < |b.outbox| :: b.outbox[i].attempts == Count(b.log, i)
  }

  lemma {:induction false} NeverClaimed(log: seq<ClaimRecord>, id: nat)
    requires forall n | 0 <= n < |log| :: log[n].id < id
    ensures Count(log, id) == 0
    decreases |log|
  {
    if log != [] { NeverClaimed(log[..|log| - 1], id); }
  }

  lemma StepKeepsConsistent(b: Board, op: Op, delay: int)
    requires Consistent(b) && Enabled(b, op)
    ensures Consistent(Step(b, op, delay))
  {
    if op.ClaimBatch? { RecordsOf(op.batch, op.now); }
  }

  /** attempts is the number of successful claims, whatever workers do. */
  lemma AttemptsStayCounted(b: Board, op: Op, delay: int)
    requires AttemptsCounted(b) && Enabled(b, op)
    ensures AttemptsCounted(Step(b, op, delay))
  {
    var b' := Step(b, op, delay);
    StepKeepsConsistent(b, op, delay);
    match op
    case ClaimBatch(_, now, _, _, batch) =>
      RecordsOf(batch, now);
      var q := Records(batch, now);
      forall i | 0 <= i < |b'.outbox| ensures b'.outbox[i].attempts == Count(b'.log, i) {
        CountConcat(b.log, q, i);
        CountDistinct(q, i);
      }
    case Enqueue(order, availableAt) => NeverClaimed(b.log, |b.outbox|);
    case _ =>
  }

  // ----- completion

  /** Every completed event was delivered under one of its claims. */
  ghost predicate CompletedDelivered(b: Board) {
    forall i | 0 <= i < |b.outbox| && b.outbox[i].status == DeliveryCompleted :: DeliveredOnce(b, i)
  }

  ghost predicate DeliveredOnce(b: Board, id: nat) {
    exists n :: 0 <= n < |b.log| && n < |b.work| && b.log[n].id == id && b.work[n].delivered == Some(true)
  }

  lemma DeliveriesStayKnown(b: Board, op: Op, delay: int, id: nat)
    requires Consistent(b) && Enabled(b, op) && DeliveredOnce(b, id)
    ensures DeliveredOnce(Step(b, op, delay), id)
  {
    var n :| 0 <= n < |b.log| && n < |b.work| && b.log[n].id == id && b.work[n].delivered == Some(true);
    var b' := Step(b, op, delay);
    assert b'.log[n].id == id && b'.work[n].delivered == Some(true);
  }

  lemma NewlyCompleted(b: Board, op: Op, delay: int, id: nat)
    requires Consistent(b) && Enabled(b, op) && id < |Step(b, op, delay).outbox|
    requires Step(b, op, delay).outbox[id].status == DeliveryCompleted
    requires id < |b.outbox| ==> b.outbox[id].status != DeliveryCompleted
    ensures op.Complete? && b.log[op.claim].id == id && DeliveredOnce(b, id)
  {
    if op.Complete? {
      assert b.log[op.claim].id == id && b.work[op.claim].delivered == Some(true);
    }
  }

  lemma StepKeepsDelivered(b: Board, op: Op, delay: int)
    requires Consistent(b) && CompletedDelivered(b) && Enabled(b, op)
    ensures CompletedDelivered(Step(b, op, delay))
  {
    hide Step, DeliveredOnce, Enabled;
    var b' := Step(b, op, delay);
    forall i | 0 <= i < |b'.outbox| && b'.outbox[i].status == DeliveryCompleted ensures DeliveredOnce(b', i) {
      if i < |b.outbox| && b.outbox[i].status == DeliveryCompleted {
      } else {
        NewlyCompleted(b, op, delay, i);
      }
      DeliveriesStayKnown(b, op, delay, i);
    }
  }

  /** In every run every COMPLETED event has a successful delivery on record, made under one of its
      claims by the worker that held it; and the attempts counter is the number of claims. */
  lemma {:induction false} CompletedWasDelivered(b: Board, delay: int, ops: seq<Op>)
    requires AttemptsCounted(b) && CompletedDelivered(b) && Run(b, delay, ops)
    ensures CompletedDelivered(Exec(b, delay, ops)) && AttemptsCounted(Exec(b, delay, ops))
    decreases |ops|
  {
    if ops != [] {
      AttemptsStayCounted(b, ops[0], delay);
      StepKeepsDelivered(b, ops[0], delay);
      hide Step, AttemptsCounted, CompletedDelivered;
      CompletedWasDelivered(Step(b, ops[0], delay), delay, ops[1..]);
    }
  }

  /** COMPLETED is absorbing, ids are never reused and no event disappears. */
  lemma {:induction false} NoEventLost(b: Board, delay: int, ops: seq<Op>, id: nat)
    requires Run(b, delay, ops) && id < |b.outbox|
    ensures var end := Exec(b, delay, ops);
      && id < |end.outbox| && end.outbox[id].order == b.outbox[id].order
      && (b.outbox[id].status == DeliveryCompleted ==> end.outbox[id] == b.outbox[id])
    decreases |ops|
  {
    if ops != [] {
      var next := Step(b, ops[0], delay);
      assert id < |next.outbox| && next.outbox[id].order == b.outbox[id].order;
      assert b.outbox[id].status == DeliveryCompleted ==> next.outbox[id] == b.outbox[id];
      hide Step;
      NoEventLost(next, delay, ops[1..], id);
    }
  }

  // ----- leases

  /** Claims of one event are at least a lease apart. */
  ghost predicate Apart(log: seq<ClaimRecord>, delay: int) {
    forall m, n | 0 <= m < n < |log| && log[m].id == log[n].id :: log[m].at + delay <= log[n].at
  }

  /** And an uncompleted event stays unavailable for a lease after each of its claims. */
  ghost predicate Leased(b: Board, delay: int) {
    && Consistent(b) && Apart(b.log, delay)
    && forall n | 0 <= n < |b.log| && b.outbox[b.log[n].id].status != DeliveryCompleted ::
         b.log[n].at + delay <= b.outbox[b.log[n].id].availableAt
  }

  /** No later claim of the same event has superseded the claim. */
  ghost predicate IsLatest(b: Board, claim: nat)
    requires claim < |b.log|
  {
    forall i | 0 <= i < |b.log| && b.log[i].id == b.log[claim].id :: b.log[i].at <= b.log[claim].at
  }

  /** A retry does no harm when its event is no longer being processed, in which case it fails, or
      when it comes from the latest claim. */
  ghost predicate Harmless(b: Board, op: Op) {
    op.Retry? ==> op.claim < |b.log| && (!Outbox.Claimed(b.outbox, b.log[op.claim].id) || IsLatest(b, op.claim))
  }

  lemma ClaimsKeepLeases(b: Board, op: Op, delay: int)
    requires Leased(b, delay) && Enabled(b, op) && op.ClaimBatch? && delay > 0
    ensures Leased(Step(b, op, delay), delay)
  {
    var b' := Step(b, op, delay);
    RecordsOf(op.batch, op.now);
    StepKeepsConsistent(b, op, delay);
    var q := Records(op.batch, op.now);
    forall m, n | 0 <= m < n < |b'.log| && b'.log[m].id == b'.log[n].id
      ensures b'.log[m].at + delay <= b'.log[n].at
    {
      if m < |b.log| <= n {
        assert b'.log[n] == q[n - |b.log|];
        assert b.log[m].id in op.batch;
      }
    }
  }

  lemma StaleRetryBreaksLease(b: Board, op: Op, delay: int)
    requires Leased(b, delay) && Enabled(b, op) && op.Retry? && !Harmless(b, op)
    ensures !Leased(Step(b, op, delay), delay)
  {
    var id := b.log[op.claim].id;
    var m :| 0 <= m < |b.log| && b.log[m].id == id && b.log[m].at > b.log[op.claim].at;
    var b' := Step(b, op, delay);
    assert b'.outbox[id].availableAt == b.log[op.claim].at + delay && b'.log[m] == b.log[m];
  }

  /** A step keeps leases exactly when it is not a retry that a later claim has superseded. */
  lemma StepKeepsLeasesIff(b: Board, op: Op, delay: int)
    requires Leased(b, delay) && Enabled(b, op) && delay > 0
    ensures Leased(Step(b, op, delay), delay) <==> Harmless(b, op)
  {
    if op.ClaimBatch? {
      ClaimsKeepLeases(b, op, delay);
    } else if !Harmless(b, op) {
      StaleRetryBreaksLease(b, op, delay);
    }
  }

  ghost predicate NoStaleRetry(b: Board, delay: int, ops: seq<Op>)
    requires Run(b, delay, ops)
    decreases |ops|
  {
    ops == [] || (Harmless(b, ops[0]) && NoStaleRetry(Step(b, ops[0], delay), delay, ops[1..]))
  }

  /** Leases hold before and after every step. */
  ghost predicate AlwaysLeased(b: Board, delay: int, ops: seq<Op>)
    requires Run(b, delay, ops)
    decreases |ops|
  {
    Leased(b, delay) && (ops != [] ==> AlwaysLeased(Step(b, ops[0], delay), delay, ops[1..]))
  }

  lemma LeasedAtStart(b: Board, delay: int, ops: seq<Op>)
    requires Run(b, delay, ops) && AlwaysLeased(b, delay, ops)
    ensures Leased(b, delay)
  {
  }

  /** A run keeps claims of one event a lease apart throughout exactly when none of its retries was
      superseded by a later claim. */
  lemma {:induction false} RunLeasedIff(b: Board, delay: int, ops: seq<Op>)
    requires Leased(b, delay) && Run(b, delay, ops) && delay > 0
    ensures AlwaysLeased(b, delay, ops) <==> NoStaleRetry(b, delay, ops)
    ensures NoStaleRetry(b, delay, ops) ==> Apart(Exec(b, delay, ops).log, delay)
    decreases |ops|
  {
    if ops != [] {
      StepKeepsLeasesIff(b, ops[0], delay);
      hide Step, Harmless;
      if Harmless(b, ops[0]) { RunLeasedIff(Step(b, ops[0], delay), delay, ops[1..]); }
      else if AlwaysLeased(b, delay, ops) { LeasedAtStart(Step(b, ops[0], delay), delay, ops[1..]); }
    }
  }

  /** Whatever workers do from here on without stale retries, claims stay a lease apart. */
  ghost predicate StaysApart(b: Board, delay: int) {
    forall ops | Run(b, delay, ops) && NoStaleRetry(b, delay, ops) :: Apart(Exec(b, delay, ops).log, delay)
  }

  lemma ReclaimTooSoon(b: Board, delay: int, id: nat, m: nat)
    requires Consistent(b) && delay > 0 && m < |b.log| && b.log[m].id == id && id < |b.outbox|
    requires b.outbox[id].status != DeliveryCompleted && b.outbox[id].availableAt <= b.log[m].at
    ensures !StaysApart(b, delay)
  {
    var others := Outbox.DueDeliveries(b.outbox, b.log[m].at, {}) - {id};
    var op := ClaimBatch(0, b.log[m].at, 1, others, {id});
    assert Outbox.DueDeliveries(b.outbox, op.now, others) == {id};
    assert Enabled(b, op);
    RecordsOf({id}, op.now);
    var q := Records({id}, op.now);
    var i :| 0 <= i < |q| && q[i].id == id;
    var b' := Step(b, op, delay);
    assert b'.log[m] == b.log[m] && b'.log[|b.log| + i] == q[i];
    assert !Apart(b'.log, delay);
    assert [op][1..] == [];
    assert Run(b', delay, []) && Exec(b', delay, []) == b';
    assert Run(b, delay, [op]) && NoStaleRetry(b, delay, [op]) && Exec(b, delay, [op]) == b';
  }

  /** After a retry, every continuation keeps claims a lease apart exactly when the retry was not
      superseded: a stale one lets the event be claimed again within another worker's lease. */
  lemma RetrySafeIff(b: Board, op: Op, delay: int)
    requires Leased(b, delay) && Enabled(b, op) && op.Retry? && delay > 0
    ensures StaysApart(Step(b, op, delay), delay) <==> Harmless(b, op)
  {
    var b' := Step(b, op, delay);
    StepKeepsLeasesIff(b, op, delay);
    if Harmless(b, op) {
      forall ops | Run(b', delay, ops) && NoStaleRetry(b', delay, ops) ensures Apart(Exec(b', delay, ops).log, delay) {
        RunLeasedIff(b', delay, ops);
      }
    } else {
      var id := b.log[op.claim].id;
      var m :| 0 <= m < |b.log| && b.log[m].id == id && b.log[m].at > b.log[op.claim].at;
      ReclaimTooSoon(b', delay, id, m);
    }
  }

  /** From an empty outbox, whatever workers and payments do: completed events were delivered,
      attempts counts claims, and claims stay a lease apart exactly when no retry is stale. */
  lemma OutboxRunSafe(delay: int, ops: seq<Op>)
    requires delay > 0 && Run(Board([], [], []), delay, ops)
    ensures CompletedDelivered(Exec(Board([], [], []), delay, ops))
      && AttemptsCounted(Exec(Board([], [], []), delay, ops))
    ensures AlwaysLeased(Board([], [], []), delay, ops) <==> NoStaleRetry(Board([], [], []), delay, ops)
  {
    var b := Board([], [], []);
    assert AttemptsCounted(b) && CompletedDelivered(b) && Leased(b, delay);
    hide *;
    CompletedWasDelivered(b, delay, ops);
    RunLeasedIff(b, delay, ops);
  }

  // ----- a stale retry can happen

  const LEASE := 60
  const B0 := Board([Delivery(1, DeliveryPending, 0, 0)], [], [])
  const B1 := Board([Delivery(1, DeliveryProcessing, 1, 60)], [ClaimRecord(0, 0)], [Work(1, None, false)])
  const B2 := Board([Delivery(1, DeliveryProcessing, 2, 120)], [ClaimRecord(0, 0), ClaimRecord(0, 60)],
                    [Work(1, None, false), Work(2, None, false)])
  const B3 := B2.(work := [Work(1, Some(false), false), Work(2, None, false)])

  lemma SoleClaim(b: Board, worker: nat, now: Time, next: Board)
    requires |b.outbox| == 1 && b.outbox[0].status != DeliveryCompleted && b.outbox[0].availableAt <= now
    requires next.outbox ==
      [b.outbox[0].(status := DeliveryProcessing, attempts := b.outbox[0].attempts + 1, availableAt := now + LEASE)]
    requires next.log == b.log + [ClaimRecord(0, now)] && next.work == b.work + [Work(worker, None, false)]
    ensures Enabled(b, ClaimBatch(worker, now, 1, {}, {0}))
    ensures Step(b, ClaimBatch(worker, now, 1, {}, {0}), LEASE) == next
  {
    assert Outbox.DueDeliveries(b.outbox, now, {}) == {0};
    AscendingLists({0});
    AscendingIsUnique(Ascending({0}), [0]);
    assert Records({0}, now) == [ClaimRecord(0, now)];
  }

  lemma RunExtends(b: Board, op: Op, next: Board, rest: seq<Op>, end: Board)
    requires Enabled(b, op) && Step(b, op, LEASE) == next && Run(next, LEASE, rest) && Exec(next, LEASE, rest) == end
    ensures Run(b, LEASE, [op] + rest) && Exec(b, LEASE, [op] + rest) == end
  {
    assert ([op] + rest)[1..] == rest;
    hide Enabled, Step;
  }

  lemma StaleSituation()
    ensures Leased(B3, LEASE) && Enabled(B3, Retry(1, 0)) && !Harmless(B3, Retry(1, 0))
  {
    assert B3.log[1].at > B3.log[0].at;
  }

  lemma SituationArises()
    ensures exists ops :: Run(B0, LEASE, ops) && Exec(B0, LEASE, ops) == B3
  {
    SoleClaim(B0, 1, 0, B1);
    SoleClaim(B1, 2, 60, B2);
    var deliver := Deliver(1, 0, false);
    assert Enabled(B2, deliver) && Step(B2, deliver, LEASE) == B3;
    assert Run(B3, LEASE, []) && Exec(B3, LEASE, []) == B3;
    hide *;
    RunExtends(B2, deliver, B3, [], B3);
    RunExtends(B1, ClaimBatch(2, 60, 1, {}, {0}), B2, [deliver] + [], B3);
    RunExtends(B0, ClaimBatch(1, 0, 1, {}, {0}), B1, [ClaimBatch(2, 60, 1, {}, {0})] + ([deliver] + []), B3);
  }

  /** A worker that takes longer than its lease over a failing delivery retries an event that another
      worker has claimed since; what follows may then claim it a third time within that lease. */
  lemma StaleRetryDefeatsLease()
    ensures exists ops :: Run(B0, LEASE, ops) && Exec(B0, LEASE, ops) == B3
    ensures Enabled(B3, Retry(1, 0)) && !StaysApart(Step(B3, Retry(1, 0), LEASE), LEASE)
  {
    hide B0, B1, B2, B3, Leased, Enabled, Harmless, Step, StaysApart, Run, Exec;
    SituationArises();
    StaleSituation();
    RetrySafeIff(B3, Retry(1, 0), LEASE);
  }
}
