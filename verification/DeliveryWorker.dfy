/** The ticket delivery worker: one batch, and its fairness over many batches. */
module DeliveryWorker {
  import opened Common
  import opened Store
  import opened Outbox
  import Database

  // ----- one batch

  /** What a batch leaves behind: a delivered event is completed, a failed one is back to
      PENDING after the retry delay, and every other row is untouched. */
  function AfterBatch(outbox: seq<Delivery>, batch: set<nat>, now: Time, delay: int,
                      delivered: nat -> bool): seq<Delivery> {
    seq(|outbox|, i requires 0 <= i < |outbox| =>
      if i !in batch then outbox[i]
      else if delivered(i) then
        outbox[i].(status := DeliveryCompleted, attempts := outbox[i].attempts + 1, availableAt := now + delay)
      else outbox[i].(status := DeliveryPending, attempts := outbox[i].attempts + 1, availableAt := now + delay))
  }

  /** The batch with the events in `todo` still merely claimed. */
  ghost predicate Partway(outbox: seq<Delivery>, start: seq<Delivery>, batch: set<nat>, todo: set<nat>, now: Time,
                          delay: int, delivered: nat -> bool) {
    && |outbox| == |start|
    && forall i | 0 <= i < |start| ::
         (i in todo ==> outbox[i] == Claim(start, batch, now + delay)[i])
         && (i !in todo ==> outbox[i] == AfterBatch(start, batch, now, delay, delivered)[i])
  }

  function Successes(batch: set<nat>, delivered: nat -> bool): set<nat> {
    set i | i in batch && delivered(i)
  }

  lemma OneEvent(outbox: seq<Delivery>, start: seq<Delivery>, batch: set<nat>, todo: set<nat>, now: Time,
                 delay: int, delivered: nat -> bool, id: nat)
    requires Partway(outbox, start, batch, todo, now, delay, delivered)
    requires id in todo && todo <= batch && id < |start|
    ensures Claimed(outbox, id)
    ensures delivered(id) ==>
      Partway(Complete(outbox, id).value, start, batch, todo - {id}, now, delay, delivered)
    ensures !delivered(id) ==>
      Partway(Reschedule(outbox, id, now + delay).value, start, batch, todo - {id}, now, delay, delivered)
  {
  }

  lemma CountOne(batch: set<nat>, todo: set<nat>, delivered: nat -> bool, id: nat)
    requires id in todo && todo <= batch
    ensures |Successes(batch - (todo - {id}), delivered)| ==
      |Successes(batch - todo, delivered)| + if delivered(id) then 1 else 0
  {
    var before, after := Successes(batch - todo, delivered), Successes(batch - (todo - {id}), delivered);
    if delivered(id) {
      assert after == before + {id};
    } else {
      assert after == before;
    }
  }

  /** Service.DeliverPending. `delivered(id)` tells whether LoadDelivery and the notifier both
      succeed for an event. The lease equals the retry delay, as NewService sets it. With no
      other worker in between, no repository call fails. */
  method DeliverPending(db: Database.Database, now: Time, limit: int, delay: int, delivered: nat -> bool)
      returns (completed: nat, failed: bool, ghost batch: set<nat>)
    requires db.Valid()
    modifies db
    ensures db.Valid() && !failed
    ensures limit < 1 ==> batch == {}
    ensures limit >= 1 ==> ClaimBatch(old(db.outbox), now, {}, limit, batch)
    ensures db.View() == old(db.View()).(outbox := AfterBatch(old(db.outbox), batch, now, delay, delivered))
    ensures completed == |Successes(batch, delivered)|
  {
    completed, failed, batch := 0, false, {};
    ghost var start, before := db.outbox, db.View();
    if limit < 1 {
      assert AfterBatch(start, {}, now, delay, delivered) == start;
      assert Successes({}, delivered) == {};
      return;
    }
    var events := db.ClaimTicketDeliveries(now, limit, delay, {});
    batch := events;
    assert forall i | i in events :: i < |start|;
    assert before.(outbox := start) == before;
    var todo := events;
    assert Successes(events - todo, delivered) == {};
    hide ClaimBatch, AfterBatch, Successes;
    while todo != {}
      invariant todo <= events && db.Valid() && !failed
      invariant db.View() == before.(outbox := db.outbox)
      invariant Partway(db.outbox, start, events, todo, now, delay, delivered)
      invariant completed == |Successes(events - todo, delivered)|
      decreases |todo|
    {
      var event :| event in todo;
      OneEvent(db.outbox, start, events, todo, now, delay, delivered, event);
      CountOne(events, todo, delivered, event);
      hide Partway;
      if delivered(event) {
        var ok := db.CompleteTicketDelivery(event);
        if !ok {
          failed := true;
          return;
        }
        completed := completed + 1;
      } else {
        var ok := db.RetryTicketDelivery(event, now, delay);
        if !ok {
          failed := true;
          return;
        }
      }
      todo := todo - {event};
    }
    assert events - todo == events;
    AllDone(db.outbox, start, events, now, delay, delivered);
  }

  lemma AllDone(outbox: seq<Delivery>, start: seq<Delivery>, batch: set<nat>, now: Time, delay: int,
                delivered: nat -> bool)
    requires Partway(outbox, start, batch, {}, now, delay, delivered)
    ensures outbox == AfterBatch(start, batch, now, delay, delivered)
  {
  }

  /** Row by row: a delivered event is completed and a failed one due again after the delay, each with
      one more attempt on record; no other row changes. */
  lemma BatchWorks(outbox: seq<Delivery>, batch: set<nat>, now: Time, delay: int, delivered: nat -> bool, i: nat)
    requires i < |outbox|
    ensures var after := AfterBatch(outbox, batch, now, delay, delivered);
      && |after| == |outbox| && after[i].order == outbox[i].order
      && (i !in batch ==> after[i] == outbox[i])
      && (i in batch ==> after[i].attempts == outbox[i].attempts + 1 && after[i].availableAt == now + delay
                         && after[i].status == if delivered(i) then DeliveryCompleted else DeliveryPending)
  {
  }

  // ----- fairness over batches

  /** One batch of the worker, followed by the events that payments enqueue before the next. */
  datatype Round = Round(now: Time, batch: set<nat>, delivered: nat -> bool, enqueued: seq<Delivery>)

  function AfterRound(outbox: seq<Delivery>, r: Round, delay: int): seq<Delivery> {
    AfterBatch(outbox, r.batch, r.now, delay, r.delivered) + r.enqueued
  }

  /** A single worker's rounds; the clock does not run backwards below `from`, and what is
      enqueued becomes available no earlier than the event under observation. */
  ghost predicate Rounds(outbox: seq<Delivery>, from: Time, limit: nat, delay: int, horizon: Time, rounds: seq<Round>)
    decreases |rounds|
  {
    rounds == [] ||
    (var r := rounds[0];
     && from <= r.now
     && ClaimBatch(outbox, r.now, {}, limit, r.batch)
     && (forall i | 0 <= i < |r.enqueued| :: horizon <= r.enqueued[i].availableAt)
     && Rounds(AfterRound(outbox, r, delay), r.now, limit, delay, horizon, rounds[1..]))
  }

  predicate Before(outbox: seq<Delivery>, i: nat, j: nat)
    requires i < |outbox| && j < |outbox|
  {
    outbox[i].availableAt < outbox[j].availableAt || (outbox[i].availableAt == outbox[j].availableAt && i < j)
  }

  /** The uncompleted events the claim query orders before `target`. */
  function Ahead(outbox: seq<Delivery>, target: nat): set<nat>
    requires target < |outbox|
  {
    set i | 0 <= i < |outbox| && outbox[i].status != DeliveryCompleted && Before(outbox, i, target)
  }

  /** A round that passes over a due event takes a full batch from the events ahead of it, and
      puts none ahead of it. */
  lemma PassingCosts(outbox: seq<Delivery>, target: nat, limit: nat, delay: int, r: Round)
    requires target < |outbox| && outbox[target].status != DeliveryCompleted && outbox[target].availableAt <= r.now
    requires delay > 0 && ClaimBatch(outbox, r.now, {}, limit, r.batch) && target !in r.batch
    requires forall i | 0 <= i < |r.enqueued| :: outbox[target].availableAt <= r.enqueued[i].availableAt
    ensures var next := AfterRound(outbox, r, delay);
      && target < |next| && next[target] == outbox[target]
      && Ahead(next, target) <= Ahead(outbox, target) - r.batch
      && |r.batch| == limit && |Ahead(next, target)| + limit <= |Ahead(outbox, target)|
  {
    var next := AfterRound(outbox, r, delay);
    var due := DueDeliveries(outbox, r.now, {});
    assert target in due - r.batch;
    FullBatch(r.batch, due, limit, target);
    assert r.batch <= Ahead(outbox, target) by {
      forall i | i in r.batch ensures i in Ahead(outbox, target) {
        assert i in due && target in due - r.batch;
      }
    }
    assert Ahead(next, target) <= Ahead(outbox, target) - r.batch;
    SubsetSizes(Ahead(next, target), Ahead(outbox, target) - r.batch);
    SubsetSizes(r.batch, Ahead(outbox, target));
  }

  /** A due event with k events ahead of it is claimed within any number n of rounds with
      n * limit > k, that is within k / limit + 1 rounds, whatever fails. */
  lemma {:induction false} ClaimedWithin(outbox: seq<Delivery>, target: nat, from: Time, limit: nat, delay: int,
                                         rounds: seq<Round>)
    requires target < |outbox| && outbox[target].status != DeliveryCompleted && outbox[target].availableAt <= from
    requires delay > 0 && Rounds(outbox, from, limit, delay, outbox[target].availableAt, rounds)
    requires |rounds| * limit > |Ahead(outbox, target)|
    ensures exists n :: 0 <= n < |rounds| && target in rounds[n].batch
    decreases |rounds|
  {
    var r := rounds[0];
    if target !in r.batch {
      PassingCosts(outbox, target, limit, delay, r);
      var rest := rounds[1..];
      assert |rounds| * limit == limit + |rest| * limit;
      ClaimedWithin(AfterRound(outbox, r, delay), target, r.now, limit, delay, rest);
      var n :| 0 <= n < |rest| && target in rest[n].batch;
      assert rounds[n + 1] == rest[n];
    }
  }

  /** An uncompleted event is claimable from its available_at on: a claim that does not skip its
      row takes it unless the whole limit is spent on events before it. */
  lemma UncompletedIsClaimable(outbox: seq<Delivery>, id: nat, now: Time, locked: set<nat>, limit: nat, batch: set<nat>)
    requires id < |outbox| && outbox[id].status != DeliveryCompleted && outbox[id].availableAt <= now && id !in locked
    requires ClaimBatch(outbox, now, locked, limit, batch)
    ensures id in batch <==>
      |set i | i in DueDeliveries(outbox, now, locked) && Sooner(DueTimes(outbox), i, id)| < limit
  {
    RankDecides(batch, DueDeliveries(outbox, now, locked), DueTimes(outbox), limit, id);
  }
}
