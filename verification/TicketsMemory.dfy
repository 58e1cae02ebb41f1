/** The in-memory ticket repository: deliveries claimed in no particular order and without a status
    guard on completion or retry, and check-in by scanning a slice for the token. */
module TicketsMemory {
  import opened Common

  datatype TicketStatus = TicketIssued | TicketUsed | TicketVoid

  datatype Ticket = Ticket(id: string, token: string, order: string, status: TicketStatus, checkedInAt: Option<int>)

  datatype DeliveryStatus = DeliveryPending | DeliveryProcessing | DeliveryCompleted

  datatype Delivery = Delivery(order: string, status: DeliveryStatus, attempts: nat, availableAt: int)

  datatype Error = EventNotFound | TicketNotFound | TicketAlreadyUsed

  datatype Outcome = Done(ticket: Ticket) | Refused(error: Error)

  // ----- deliveries

  predicate Claimable(d: Delivery, now: int) {
    (d.status == DeliveryPending || d.status == DeliveryProcessing) && d.availableAt <= now
  }

  function Due(events: map<nat, Delivery>, now: int): set<nat> {
    set id | id in events && Claimable(events[id], now)
  }

  function Taken(d: Delivery, leaseUntil: int): Delivery {
    d.(status := DeliveryProcessing, attempts := d.attempts + 1, availableAt := leaseUntil)
  }

  function Claim(events: map<nat, Delivery>, batch: set<nat>, leaseUntil: int): map<nat, Delivery> {
    map id | id in events :: if id in batch then Taken(events[id], leaseUntil) else events[id]
  }

  lemma ClaimOneMore(events: map<nat, Delivery>, batch: set<nat>, id: nat, leaseUntil: int)
    requires id in events && id !in batch
    ensures Claim(events, batch, leaseUntil)[id := Taken(events[id], leaseUntil)] ==
      Claim(events, batch + {id}, leaseUntil)
    ensures Claim(events, {}, leaseUntil) == events
  {
  }

  /** A batch that misses something due is full. */
  lemma FullOrAll(events: map<nat, Delivery>, batch: set<nat>, now: int, limit: nat)
    requires batch <= Due(events, now) && |batch| <= limit && (|batch| < limit ==> Due(events, now) <= batch)
    ensures IsBatch(batch, events, now, limit)
  {
    SubsetSizes(batch, Due(events, now));
    if |batch| < limit { assert batch == Due(events, now); }
  }

  /** Any due deliveries, as many as the limit allows. */
  ghost predicate IsBatch(batch: set<nat>, events: map<nat, Delivery>, now: int, limit: nat) {
    batch <= Due(events, now) && |batch| == Min(limit, |Due(events, now)|)
  }

  function Completed(events: map<nat, Delivery>): set<nat> {
    set id | id in events && events[id].status == DeliveryCompleted
  }

  function Retried(events: map<nat, Delivery>, id: nat, availableAt: int): map<nat, Delivery> {
    if id in events then events[id := events[id].(status := DeliveryPending, availableAt := availableAt)] else events
  }

  function Complete(events: map<nat, Delivery>, id: nat): map<nat, Delivery> {
    if id in events then events[id := events[id].(status := DeliveryCompleted)] else events
  }

  // ----- check-in

  /** The position of the first ticket with this token, or |tickets|. */
  function FirstWith(tickets: seq<Ticket>, token: string): (i: nat)
    ensures i <= |tickets| && (i < |tickets| ==> tickets[i].token == token)
    ensures forall k | 0 <= k < i :: tickets[k].token != token
  {
    if tickets == [] || tickets[0].token == token then 0 else
      var rest := FirstWith(tickets[1..], token);
      assert forall k | 1 <= k < rest + 1 :: tickets[k] == tickets[1..][k - 1];
      1 + rest
  }

  function CheckInOutcome(tickets: seq<Ticket>, token: string, now: int): Outcome {
    var i := FirstWith(tickets, token);
    if i == |tickets| then Refused(TicketNotFound)
    else match tickets[i].status
      case TicketUsed => Refused(TicketAlreadyUsed)
      case TicketVoid => Refused(TicketNotFound)
      case TicketIssued => Done(tickets[i].(status := TicketUsed, checkedInAt := Some(now)))
  }

  function AfterCheckIn(tickets: seq<Ticket>, token: string, now: int): (r: seq<Ticket>)
    ensures |r| == |tickets|
  {
    match CheckInOutcome(tickets, token, now)
    case Done(used) => tickets[FirstWith(tickets, token) := used]
    case Refused(_) => tickets
  }

  // ----- the code

  class MemoryRepository {
    var tickets: seq<Ticket>
    var events: map<nat, Delivery>
    var nextEvent: nat

    constructor (initial: seq<Ticket>)
      ensures tickets == initial && events == map[] && nextEvent == 0
    {
      tickets, events, nextEvent := initial, map[], 0;
    }

    method EnqueueDelivery(order: string)
      modifies this`events, this`nextEvent
      ensures nextEvent == old(nextEvent) + 1
      ensures events == old(events)[nextEvent := Delivery(order, DeliveryPending, 0, 0)]
    {
      nextEvent := nextEvent + 1;
      events := events[nextEvent := Delivery(order, DeliveryPending, 0, 0)];
    }

    method ClaimTicketDeliveries(now: int, limit: nat, lease: int)
      returns (claimed: seq<(nat, Delivery)>, ghost batch: set<nat>)
      modifies this`events
      ensures IsBatch(batch, old(events), now, limit) && events == Claim(old(events), batch, now + lease)
      ensures |claimed| == |batch| && forall c | c in claimed ::
        c.0 in batch && c.1 == Taken(old(events)[c.0], now + lease)
    {
      claimed, batch := [], {};
      ghost var before := events;
      assert Claim(before, {}, now + lease) == before;
      var todo := events.Keys;
      while todo != {}
        invariant todo <= before.Keys && batch !! todo && events == Claim(before, batch, now + lease)
        invariant batch <= Due(before, now) && |claimed| == |batch| <= limit
        invariant |batch| < limit ==> forall id | id in Due(before, now) && id !in todo :: id in batch
        invariant forall c | c in claimed :: c.0 in batch && c.1 == Taken(before[c.0], now + lease)
        decreases |todo|
      {
        var id :| id in todo;
        var event := events[id];
        todo := todo - {id};
        if |claimed| == limit || (event.status != DeliveryPending && event.status != DeliveryProcessing)
           || event.availableAt > now {
          continue;
        }
        ClaimOneMore(before, batch, id, now + lease);
        event := event.(status := DeliveryProcessing, attempts := event.attempts + 1, availableAt := now + lease);
        events := events[id := event];
        claimed := claimed + [(id, event)];
        batch := batch + {id};
      }
      FullOrAll(before, batch, now, limit);
    }

    method CompleteTicketDelivery(id: nat) returns (error: Option<Error>)
      modifies this`events
      ensures events == Complete(old(events), id) && (error == None <==> id in old(events))
    {
      if id !in events { return Some(EventNotFound); }
      events := events[id := events[id].(status := DeliveryCompleted)];
      return None;
    }

    method RetryTicketDelivery(id: nat, now: int, delay: int) returns (error: Option<Error>)
      modifies this`events
      ensures events == Retried(old(events), id, now + delay) && (error == None <==> id in old(events))
    {
      if id !in events { return Some(EventNotFound); }
      events := events[id := events[id].(status := DeliveryPending, availableAt := now + delay)];
      return None;
    }

    method CheckInTicket(token: string, now: int) returns (r: Outcome)
      modifies this`tickets
      ensures r == CheckInOutcome(old(tickets), token, now) && tickets == AfterCheckIn(old(tickets), token, now)
    {
      for index := 0 to |tickets|
        invariant tickets == old(tickets) && forall k | 0 <= k < index :: tickets[k].token != token
      {
        var ticket := tickets[index];
        if ticket.token != token { continue; }
        assert index == FirstWith(tickets, token);
        if ticket.status == TicketUsed { return Refused(TicketAlreadyUsed); }
        if ticket.status != TicketIssued { return Refused(TicketNotFound); }
        ticket := ticket.(status := TicketUsed, checkedInAt := Some(now));
        tickets := tickets[index := ticket];
        return Done(ticket);
      }
      return Refused(TicketNotFound);
    }
  }

  // ----- what holds

  /** Completed deliveries stay completed under a claim, and under a retry exactly when the retried
      delivery was not itself completed: this repository has no guard against that. */
  lemma RetryKeepsCompletedIff(events: map<nat, Delivery>, id: nat, availableAt: int, batch: set<nat>, now: int,
                               limit: nat, leaseUntil: int)
    requires IsBatch(batch, events, now, limit)
    ensures Completed(Claim(events, batch, leaseUntil)) == Completed(events)
    ensures Completed(events) <= Completed(Complete(events, id))
    ensures Completed(events) <= Completed(Retried(events, id, availableAt)) <==> id !in Completed(events)
  {
    forall x ensures x in Completed(Claim(events, batch, leaseUntil)) <==> x in Completed(events) {
      if x in batch { assert x in Due(events, now); }
    }
    if id in Completed(events) { assert id !in Completed(Retried(events, id, availableAt)); }
  }

  /** A claim leases the events it takes, which were open and due, as many as the limit allows; every
      operation leaves all other events alone. */
  lemma DeliveryTransitions(events: map<nat, Delivery>, batch: set<nat>, now: int, limit: nat, leaseUntil: int,
                            closed: nat, availableAt: int, id: nat)
    requires IsBatch(batch, events, now, limit) && id in events
    ensures id in batch ==> events[id].status != DeliveryCompleted && events[id].availableAt <= now
    ensures |batch| <= limit
    ensures id !in batch && events[id].status != DeliveryCompleted && events[id].availableAt <= now ==> |batch| == limit
    ensures id in Claim(events, batch, leaseUntil) && Claim(events, batch, leaseUntil)[id] ==
      if id in batch then Delivery(events[id].order, DeliveryProcessing, events[id].attempts + 1, leaseUntil)
      else events[id]
    ensures id in Complete(events, closed) && Complete(events, closed)[id] ==
      Delivery(events[id].order, if id == closed then DeliveryCompleted else events[id].status, events[id].attempts,
               events[id].availableAt)
    ensures id in Retried(events, closed, availableAt) && Retried(events, closed, availableAt)[id] ==
      if id == closed then Delivery(events[id].order, DeliveryPending, events[id].attempts, availableAt) else events[id]
  {
    SubsetSizes(batch, Due(events, now));
    if id !in batch && id in Due(events, now) { assert id in Due(events, now) - batch; }
  }

  datatype Scan = Scan(token: string, now: int)

  function AfterScans(tickets: seq<Ticket>, scans: seq<Scan>): seq<Ticket> {
    if scans == [] then tickets
    else AfterCheckIn(AfterScans(tickets, scans[..|scans| - 1]), scans[|scans| - 1].token, scans[|scans| - 1].now)
  }

  /** Successful check-ins with this token. */
  function Admissions(tickets: seq<Ticket>, scans: seq<Scan>, token: string): nat {
    if scans == [] then 0 else
      var before, last := scans[..|scans| - 1], scans[|scans| - 1];
      Admissions(tickets, before, token)
      + if last.token == token && CheckInOutcome(AfterScans(tickets, before), token, last.now).Done? then 1 else 0
  }

  lemma CheckInKeepsTokens(tickets: seq<Ticket>, token: string, now: int, other: string)
    ensures FirstWith(AfterCheckIn(tickets, token, now), other) == FirstWith(tickets, other)
  {
    var r := AfterCheckIn(tickets, token, now);
    assert forall k | 0 <= k < |tickets| :: r[k].token == tickets[k].token;
    var i, j := FirstWith(r, other), FirstWith(tickets, other);
    assert i < |tickets| ==> r[i].token == tickets[i].token;
    assert j < |tickets| ==> r[j].token == tickets[j].token;
  }

  /** The first ticket with the token exists and was issued. */
  predicate Admits(tickets: seq<Ticket>, token: string) {
    FirstWith(tickets, token) < |tickets| && tickets[FirstWith(tickets, token)].status == TicketIssued
  }

  lemma CheckInAdmits(tickets: seq<Ticket>, token: string, now: int)
    ensures CheckInOutcome(tickets, token, now).Done? <==> Admits(tickets, token)
  {
  }

  /** A scan is answered by the first ticket that bears the token: it admits, and is dated, when that
      ticket is issued, is known to be used when that ticket was, and is unknown otherwise. */
  lemma ScanAnswersIff(tickets: seq<Ticket>, token: string, now: int, i: nat)
    requires i < |tickets| && tickets[i].token == token && forall k | 0 <= k < i :: tickets[k].token != token
    ensures CheckInOutcome(tickets, token, now) ==
      match tickets[i].status
      case TicketIssued => Done(tickets[i].(status := TicketUsed, checkedInAt := Some(now)))
      case TicketUsed => Refused(TicketAlreadyUsed)
      case TicketVoid => Refused(TicketNotFound)
    ensures AfterCheckIn(tickets, token, now) ==
      if tickets[i].status == TicketIssued
      then tickets[i := tickets[i].(status := TicketUsed, checkedInAt := Some(now))] else tickets
  {
    assert FirstWith(tickets, token) == i;
  }

  /** A check-in uses up its own token and no other. */
  lemma CheckInUses(tickets: seq<Ticket>, scanned: string, now: int, token: string)
    ensures Admits(AfterCheckIn(tickets, scanned, now), token) <==> Admits(tickets, token) && scanned != token
  {
    hide FirstWith;
    CheckInKeepsTokens(tickets, scanned, now, token);
    if FirstWith(tickets, scanned) < |tickets| && FirstWith(tickets, token) < |tickets| && scanned != token {
      assert FirstWith(tickets, scanned) != FirstWith(tickets, token);
    }
  }

  /** Some scan presents the token. */
  predicate Presented(scans: seq<Scan>, token: string) {
    exists i :: 0 <= i < |scans| && scans[i].token == token
  }

  lemma PresentedByLast(scans: seq<Scan>, token: string)
    requires scans != []
    ensures Presented(scans, token) <==> Presented(scans[..|scans| - 1], token) || scans[|scans| - 1].token == token
  {
    var before, last := scans[..|scans| - 1], scans[|scans| - 1];
    if Presented(before, token) {
      var i :| 0 <= i < |before| && before[i].token == token;
      assert scans[i].token == token;
    }
    if Presented(scans, token) {
      var i :| 0 <= i < |scans| && scans[i].token == token;
      assert i < |before| ==> before[i].token == token;
    }
  }

  /** However often and with whatever clocks it is scanned, and however many tickets share it, a
      token admits at most one visitor; it admits one exactly when the first ticket bearing it was
      issued and some scan presents it. */
  lemma {:induction false} TokenAdmitsOnce(tickets: seq<Ticket>, scans: seq<Scan>, token: string)
    ensures Admissions(tickets, scans, token) == if Admits(tickets, token) && Presented(scans, token) then 1 else 0
    ensures Admits(AfterScans(tickets, scans), token) <==> Admits(tickets, token) && !Presented(scans, token)
  {
    if scans != [] {
      var before, last := scans[..|scans| - 1], scans[|scans| - 1];
      PresentedByLast(scans, token);
      hide Admits, Presented, CheckInOutcome, AfterCheckIn;
      TokenAdmitsOnce(tickets, before, token);
      CheckInAdmits(AfterScans(tickets, before), token, last.now);
      CheckInUses(AfterScans(tickets, before), last.token, last.now, token);
    }
  }

  /** The ticket is the first to bear its token, was issued, and some scan presents the token. */
  predicate UsedUp(tickets: seq<Ticket>, scans: seq<Scan>, i: nat)
    requires i < |tickets|
  {
    i == FirstWith(tickets, tickets[i].token) && tickets[i].status == TicketIssued && Presented(scans, tickets[i].token)
  }

  lemma CheckInUsesAt(tickets: seq<Ticket>, token: string, now: int, i: nat)
    requires i < |tickets|
    ensures var r := AfterCheckIn(tickets, token, now);
      && r[i].token == tickets[i].token
      && r[i].status == if i == FirstWith(tickets, token) && tickets[i].status == TicketIssued then TicketUsed
                        else tickets[i].status
  {
  }

  lemma ScansUnfold(tickets: seq<Ticket>, scans: seq<Scan>)
    requires scans != []
    ensures var before, last := scans[..|scans| - 1], scans[|scans| - 1];
      AfterScans(tickets, scans) == AfterCheckIn(AfterScans(tickets, before), last.token, last.now)
  {
  }

  /** Any scans leave every ticket in its place under its token, and use up exactly the
      issued tickets that are the first to bear a presented token. */
  lemma {:induction false} ScansUseFirst(tickets: seq<Ticket>, scans: seq<Scan>, i: nat)
    requires i < |tickets|
    ensures var r := AfterScans(tickets, scans);
      && |r| == |tickets| && r[i].token == tickets[i].token
      && FirstWith(r, tickets[i].token) == FirstWith(tickets, tickets[i].token)
      && r[i].status == if UsedUp(tickets, scans, i) then TicketUsed else tickets[i].status
  {
    if scans != [] {
      var before, last := scans[..|scans| - 1], scans[|scans| - 1];
      ScansUseFirst(tickets, before, i);
      PresentedByLast(scans, tickets[i].token);
      ScansUnfold(tickets, scans);
      hide FirstWith, Presented, AfterScans, AfterCheckIn;
      var t := AfterScans(tickets, before);
      CheckInKeepsTokens(t, last.token, last.now, tickets[i].token);
      CheckInUsesAt(t, last.token, last.now, i);
    }
  }
}
