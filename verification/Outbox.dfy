/** The leased outbox of ticket deliveries: claim, complete and reschedule, as the three
    UPDATE statements of the PostgreSQL repository perform them on one table. */
module Outbox {
  import opened Common
  import opened Store

  function DueTimes(outbox: seq<Delivery>): map<nat, int> {
    map i | 0 <= i < |outbox| :: outbox[i].availableAt
  }

  /** Rows a worker may claim: uncompleted, available, and not locked by another worker. */
  function DueDeliveries(outbox: seq<Delivery>, now: Time, locked: set<nat>): set<nat> {
    set i | 0 <= i < |outbox| && outbox[i].status != DeliveryCompleted
            && outbox[i].availableAt <= now && i !in locked
  }

  ghost predicate ClaimBatch(outbox: seq<Delivery>, now: Time, locked: set<nat>, limit: nat, batch: set<nat>) {
    IsFirst(batch, DueDeliveries(outbox, now, locked), DueTimes(outbox), limit)
  }

  function Claim(outbox: seq<Delivery>, batch: set<nat>, leaseUntil: Time): seq<Delivery> {
    seq(|outbox|, i requires 0 <= i < |outbox| =>
      if i in batch
      then outbox[i].(status := DeliveryProcessing, attempts := outbox[i].attempts + 1, availableAt := leaseUntil)
      else outbox[i])
  }

  predicate Claimed(outbox: seq<Delivery>, id: nat) {
    id < |outbox| && outbox[id].status == DeliveryProcessing
  }

  function Complete(outbox: seq<Delivery>, id: nat): Outcome<seq<Delivery>> {
    if Claimed(outbox, id) then Done(outbox[id := outbox[id].(status := DeliveryCompleted)])
    else Refused(EventNotClaimed)
  }

  function Reschedule(outbox: seq<Delivery>, id: nat, availableAt: Time): Outcome<seq<Delivery>> {
    if Claimed(outbox, id)
    then Done(outbox[id := outbox[id].(status := DeliveryPending, availableAt := availableAt)])
    else Refused(EventNotClaimed)
  }
}
