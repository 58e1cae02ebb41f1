# Verified model of the cinema ticketing system

This project models the core of the cinema ticketing back end in Dafny and proves what it is relied on
for: no seat is ever sold or admitted twice although expired holds may be taken over, money that came in
is accounted for, the seat inventory of every showtime matches the physical layout, and the smaller
algorithms (paging, rate limiting, price normalisation, idempotency keys, the delivery outbox) do what
their callers assume.

`dafny verify dfyconfig.toml` checks everything.

## Structure

| files | what they hold |
|---|---|
| `Common`, `Sorting`, `Text` | statuses, ordered enumerations, `ORDER BY ... LIMIT`, `sort.Slice`, `strings.TrimSpace`, byte order of strings |
| `Store`, `Outbox`, `Machine` | the tables and the step relation of the PostgreSQL repositories, one step per transaction |
| `SeatSafety`, `MoneySafety`, `Safety`, `Stability` | the joint invariant over seats, orders, payments, tickets, outbox, audit trail and clock; what no later step takes back |
| `Acceptance`, `Transitions`, `Answers`, `Totals` | why each row of each table changes, for every step at once; what each request is answered; what an order costs |
| `Uuid` | the texts PostgreSQL reads as a `uuid` and the one it writes |
| `Theorems`, `Holds`, `Webhooks`, `Expiry`, `ClockAssumption`, `AnyClock` | the main results over runs: sales, money and tickets; hold requests and their repetition; provider events; the expiry worker; what the clocks must keep |
| `Database`, `PaymentService`, `DeliveryWorker` | the repository methods, intent creation and the delivery worker as imperative code, proved equal to the steps; fairness |
| `DeliveryBoard` | many delivery workers at once: who completes what, and when leases hold |
| `LayoutLocks`, `LayoutProgress` | the studio locks of migration 000006 with every SQL statement as a step of its own; that they let work through |
| `AdminMemory`, `AdminSafety`, `AdminAnswers`, `AdminService` | the administration repository, what it keeps and what it accepts, and its service |
| `BookingMemory`, `BookingService`, `BookingAnswers`, `BookingIndex` | the in-memory booking repository, the booking service, why rows change and what is answered, and seats as an index of the orders |
| `PaymentsMemory`, `TicketsMemory` | the in-memory payment and ticket repositories |
| `Catalog`, `RateLimiter`, `Price` | keyset paging, the fixed-window limiter, decimal prices |

Time is an integer. An identifier is a number where only equality and order matter and a text where the
code looks at its text: the showtime and the seats of a hold request are texts that PostgreSQL parses to
rows and writes back in canonical form. A database transaction is one step, except in `LayoutLocks`, where
interleaving is the point.

## Assumptions

- Clocks: the services read the clock before their transaction. The runs of `Machine.Run` assume only that
  a webhook is not processed with an instant older than one at which an earlier hold was granted.
  `ClockAssumption` shows that without this one seat is sold to two orders, and `AnyClock` which runs with
  arbitrary clocks are safe all the same (`AnyClock.SoldOnceIffHoldersPay`).
- New order, showtime and seat identifiers are not in use. `AdminSafety.InventoryMatchesIff` says exactly
  which reuse of a seat's identifier matters.
- In `LayoutLocks`, different studios have different advisory lock keys.
- Statements that need more are stated with their exact condition: repeating a hold request
  (`Holds.RetryAnsweredIffCanonical`), finalisation under any clock (`AnyClock.SoldOnceIffHoldersPay`),
  inventory under reused identifiers (`AdminSafety.InventoryKeptIff`), leases among many workers
  (`DeliveryBoard.StepKeepsLeasesIff`, `DeliveryBoard.RetrySafeIff`), amounts charged (`Theorems.AmountsCharged`), the map iteration of the
  in-memory webhook handler (`PaymentsMemory.SingleValuedIff`), the limiter's bound
  (`RateLimiter.BoundHoldsIffClockAfterZero`), composite map keys (`BookingService.KeysNeverCollideIff`),
  re-acceptance of a normalised price (`Price.NormalizedPrice`), completion in the unguarded in-memory
  outbox (`TicketsMemory.RetryKeepsCompletedIff`).

## Where code and documents disagree

The model follows the code.

- A hold request is accepted with any text PostgreSQL reads as a uuid, but its repetition is compared as
  text with the canonical form the database writes (`internal/postgres/booking_repository.go:366-376`), so
  the very same request in upper case is granted once and then refused
  (`Holds.UpperCaseRetryRefused`, `Holds.IdempotencyFailsForUpperCase`).
- A booking code is the first eight digits of the order's id under a unique constraint, so two ids that
  agree in them cannot both be booked (`Holds.CodesCollideIff`).
- `docs/architecture.md:90` lets the outbox start the refund of a late payment; the code writes an audit
  row only (`internal/postgres/payments_repository.go:191-198`).
- `docs/architecture.md:74-77` lists the statuses PAYMENT_FAILED and REFUNDED; no code assigns them.
- An event for an unknown payment reference is recorded and swallowed by PostgreSQL and refused without a
  trace by the in-memory repository (`Webhooks.EarlyEventIsSwallowed`, `PaymentsMemory.EarlyEventCanBeRedelivered`).
- PostgreSQL charges the sum of an order's items, the in-memory repository the price of the first item.
- Prices of eleven and twelve whole digits pass validation but do not fit `NUMERIC(12,2)`
  (`Price.LongWholesAreLost`).
- A retry after the lease has run out is accepted although another worker has claimed the event since
  (`DeliveryBoard.StaleRetryDefeatsLease`).

## Model

| member | source | states |
|---|---|---|
| Theorems.SoldIffBoughtOnce | internal/postgres/payments_repository.go:246-258 | in every reachable state a seat is SOLD exactly when a PAID order lists it, every item seat of a PAID order exists, and no seat is listed by two PAID orders |
| Theorems.SaleIsFinal | internal/postgres/booking_repository.go:92-94 | whatever happens later, a bought seat stays sold, to the same order and no other |
| Theorems.SeatMapMatchesOrders | internal/postgres/seat_map_repository.go:46-50 | from the hold clock on, the public map shows a seat unavailable exactly when an order listing it is PAID or pending and unexpired |
| Holds.FreshHoldSucceedsIff | internal/postgres/booking_repository.go:58-107 | a request with a new key is granted exactly when its texts are uuids, they denote distinct rows of the showtime that no paid or live order lists, its id is not stored and no stored id begins with the same eight digits; otherwise the first of these that fails is the answer and nothing changes |
| Holds.FreeSeatsGrantedIff | internal/postgres/booking_repository.go:96-107 | free seats are granted to every new id of 128 bits unless a stored one has the same leading 32 bits |
| Holds.FreshHoldEffect | internal/postgres/booking_repository.go:96-125 | a granted hold is a pending order of its user, showtime, key and expiry that lists exactly the rows its texts denote at their current prices; exactly those rows are held for it until then, and nothing else in any table changes |
| Holds.CancelUndoesHold | internal/postgres/booking_repository.go:171-201 | cancelling a granted hold in time leaves every other order and seat as before the hold, and the public map at every later instant as it would have been without it |
| Holds.RetryAnsweredIffCanonical | internal/postgres/booking_repository.go:257-269 | at any later point of any run a request under a granted one's user and key returns the stored order exactly when its texts are the canonical ones in sorted order, and is refused otherwise; either way nothing changes |
| Holds.SameRequestAnsweredIff | internal/postgres/booking_repository.go:366-376 | the very same request is answered again exactly when its own texts were canonical |
| Holds.ServiceRetryAnsweredIff | internal/booking/service.go:57-71 | through the service a retry is answered exactly when its showtime text is canonical and its trimmed seat texts are, as a multiset, the canonical ones of the stored order |
| Holds.UpperCaseRetryRefused | internal/postgres/booking_repository.go:279-300 | whatever request would be granted with a canonical showtime text holding a letter is granted in upper case too, and then refused when repeated |
| Holds.IdempotencyFailsForUpperCase | internal/postgres/booking_repository.go:366-376 | such a request is reachable |
| Holds.CodesCollideIff | internal/postgres/booking_repository.go:378-380 | two ids have one booking code exactly when their first eight digits agree as numbers |
| Uuid.ParseRender | internal/postgres/booking_repository.go:279-300 | what the database writes for a row is read back as that row |
| Uuid.RenderAscends | internal/postgres/booking_repository.go:287-291 | canonical texts sort as their rows do, so that the service's sorted list can equal the stored one |
| Uuid.ParseIgnoresCase | internal/postgres/booking_repository.go:60-64 | upper-case text denotes the same row |
| Uuid.ParsesIff | internal/postgres/booking_repository.go:60-64 | a text denotes a row exactly when it is 32 hexadecimal digits of either case, hyphens between groups of four or not, in braces or not |
| Theorems.FinalisedExactlyOnce | internal/postgres/payments_repository.go:246-276 | at most one payment per order; PAID, payment SUCCEEDED, one ticket per item, one delivery event and one success audit coincide, and no other order has any of them |
| Theorems.OnlyWebhooksPay | internal/payments/service.go:26-75 | an order becomes PAID only by a new success event for a payment of that order, processed while the order is pending and unexpired |
| Theorems.MoneyConserved | internal/postgres/payments_repository.go:176-215 | a new success event, unless a ticket code it would issue is taken, leaves its payment SUCCEEDED with a PAID order or REFUND_PENDING with an ended one, decided by the order's state at that moment, forever after |
| Acceptance.RefusedIffCollides | internal/postgres/payments_repository.go:132-223 | in every reachable state an event is refused, and leaves nothing written, exactly when it would pay its order with a ticket code that is taken; no status of the payment stops it |
| Transitions.OrderTransitions | internal/postgres/payments_repository.go:176-223 | in every reachable state and for every step: an order becomes PAID exactly by a new success event in time with free ticket codes, CANCELLED exactly by its own user in time, EXPIRED exactly when overdue and an expiry round gets to it or its money comes late |
| Transitions.SeatTransitions | internal/postgres/booking_repository.go:171-244 | every step but a hold or a replaced inventory: a held seat is sold when its order becomes PAID, freed when it is cancelled or expires, and no other seat changes |
| Transitions.InventoryReplacedIff | internal/postgres/admin_repository.go:552-578 | a showtime's inventory is replaced, by exactly the new rows, exactly when no order lists one of its seats and no new row's identifier is in use |
| Transitions.PaymentTransitions | internal/postgres/payments_repository.go:176-215 | a stored payment changes only by a new event for it: a success settles any payment that has not succeeded, for its order or a refund, and dates it; the first failure or expiry of a pending one is kept |
| Transitions.TicketTransitions | internal/postgres/payments_repository.go:259-269 | an item gets its ticket, issued under the code drawn for it, exactly when its order becomes PAID; a ticket is used exactly by the scan of its code while issued |
| Transitions.DeliveryTransitions | internal/postgres/tickets_repository.go:44-143 | the outbox grows by one event, claimable at once, exactly when an order becomes PAID; a claim takes exactly the first claimable events, and only a claimed one is completed or put off |
| Transitions.AuditTransitions | internal/postgres/payments_repository.go:191-199 | one audit row for each paid order, each refund owed and each admission, and none otherwise |
| Answers.CancelAnswersIff | internal/postgres/booking_repository.go:171-186 | an order is cancelled exactly by its own user in time, is unknown to everyone else, and a refusal changes nothing |
| Answers.QuoteAnswersIff | internal/postgres/payments_repository.go:23-75 | its own user is quoted a price exactly while the order can be paid and has no payment, and finds the payment once there is one |
| Answers.SaveAnswersIff | internal/postgres/payments_repository.go:77-128 | a valid reply is stored exactly when the order has no payment and could be paid at the instant asked, under a new reference; a second reply finds the first one's payment |
| Answers.ScanAnswersIff | internal/postgres/tickets_repository.go:153-192 | in every reachable state a code admits exactly when its ticket is issued, is known to be used exactly when it was, and is unknown exactly when no ticket bears it |
| Answers.FirstScanAdmits | internal/postgres/tickets_repository.go:164-191 | every item of an order has a ticket from the moment the order is paid, and its first scan admits at any later point of any run |
| Answers.HoldsCanBePaidFor | internal/payments/service.go:28-75 | any granted hold, quoted, replied to and paid in time, ends with a PAID order, each seat sold and each ticket admitting |
| Totals.TotalAddsUp | internal/postgres/payments_repository.go:62-66 | an order without items costs nothing and each further item adds its price |
| Totals.QuoteIsPriceAtHold | internal/postgres/payments_repository.go:62-75 | at any later point of any run the provider is asked for the sum of the seats' prices at the moment of the hold |
| Theorems.WebhookTouchesOwnSeatsOnly | internal/postgres/payments_repository.go:177-202 | a webhook changes only seats that its own order still holds: in time it sells them, late it frees them, and seats taken over by others are left alone |
| Theorems.AmountsCharged | internal/postgres/payments_repository.go:60-75 | under interleaved two-phase intent creation every stored payment charges the sum of the price snapshots of its order if and only if every reply that was stored echoed the amount it was asked for, which the service does not check |
| Theorems.StepKeepsAmounts | internal/payments/service.go:44-51 | any step keeps all amounts right exactly when it does not store a reply that charges other than the quote |
| Theorems.OneCheckInPerSeat | internal/postgres/tickets_repository.go:153-192 | over a whole run each seat is checked in at most once, and then only for the order that bought it |
| Theorems.SecondScanRefused | internal/postgres/tickets_repository.go:164-178 | a second scan of a code is refused at any later point of any run and the first check-in time stays |
| Safety.StepKeeps | internal/postgres/payments_repository.go:132-223 | every step of the system keeps the joint invariant of seats, orders, payments, tickets, outbox, audit trail and clock |
| Safety.RunKeeps | internal/payments/service.go:60-75 | the joint invariant holds at the end of every run |
| Stability.RunPersists | internal/postgres/booking_repository.go:171-244 | across any run settled orders, sales, settled payments, used tickets, completed deliveries and recorded events are never taken back |
| Webhooks.DuplicatesChangeNothing | internal/postgres/payments_repository.go:139-150 | deleting a redelivered event from any run leaves its result unchanged |
| Webhooks.EarlyEventIsSwallowed | internal/postgres/payments_repository.go:152-171 | an event that names no stored payment is only recorded, and its redelivery after any run still does nothing |
| Webhooks.ArrivalOrderOutcome | internal/postgres/payments_repository.go:176-215 | in any run that neither cancels nor expires the order, whatever else it does, the new events of its payment, all in time and not rolled back for a taken ticket code, decide: one success wherever it comes settles order, payment and tickets; without one the first failed or expired event decides and the order stays payable |
| Webhooks.SparedOrderOutcome | internal/postgres/payments_repository.go:176-215 | the same outcome in any run that does not cancel the order and whose expiry rounds and events of its payment all come before its expiry, a condition on the steps alone |
| Webhooks.PermutedEventsAgree | internal/postgres/payments_repository.go:176-215 | two such runs in which the same events arrive in different orders, a success among them, end with the same order, payment status and ticket items |
| Expiry.ExpiresIffAmongFirst | internal/postgres/booking_repository.go:204-244 | a bounded round expires an order exactly when it is due and fewer than `limit` due orders come before it by expiry and id |
| Expiry.ExpiryIsInvisible | internal/postgres/booking_repository.go:204-244 | in every reachable state, whatever rows a round takes, from its instant on the public map shows and hold requests find every seat as they would have without it |
| Expiry.RoundsCount | internal/postgres/booking_repository.go:204-244 | after n rounds at one instant exactly max(0, due - n * limit) orders are still due |
| Expiry.RoundsRefineExpireAll | internal/postgres/booking_repository.go:204-244 | enough bounded rounds reach the very state of one unbounded expiry |
| ClockAssumption.FinalisationSafeIff | internal/postgres/payments_repository.go:246-258 | finalising a pending order keeps seats and orders consistent exactly when the order still holds each of its seats |
| ClockAssumption.TakeoverIsReachable | internal/postgres/booking_repository.go:345-356 | an expired hold taken over while its order is still pending is reachable |
| ClockAssumption.StaleWebhookSellsTwice | internal/payments/service.go:66-75 | from that state a webhook with an old clock value ends in two PAID orders and two tickets for one seat |
| AnyClock.SoldOnceIffHoldersPay | internal/postgres/payments_repository.go:246-258 | in every run from the empty database, whatever clocks its steps read, held rows are backed and sold rows bought; every paid seat is sold and has one buyer at the end exactly when each order held all its seats at the moment it became PAID |
| AnyClock.ClockedRunsPayHolders | internal/payments/service.go:66-75 | under the clock assumption only such orders become PAID |
| Database.Database.CreateHold | internal/postgres/booking_repository.go:41-131 | the transaction's statements commit and answer exactly what the step says, and leave everything else |
| Database.Database.CancelOrder | internal/postgres/booking_repository.go:171-201 | as above, for cancellation |
| Database.Database.ExpirePendingHolds | internal/postgres/booking_repository.go:204-244 | expires what the query selects and reports how many |
| Database.Database.SavePaymentIntent | internal/postgres/payments_repository.go:77-128 | the saved or existing intent, or the error, as the step says |
| Database.Database.ProcessWebhookEvent | internal/postgres/payments_repository.go:132-223 | the whole webhook transaction commits what the step says, or nothing |
| Database.Database.CheckInTicket | internal/postgres/tickets_repository.go:153-192 | the check-in transaction commits and answers what the step says |
| Database.SameOrderRequest | internal/postgres/booking_repository.go:366-376 | true exactly for the same showtime and the same seat list |
| Database.AllSeatsAvailable | internal/postgres/booking_repository.go:345-356 | true exactly when every locked row is free at that instant |
| PaymentService.CreatePaymentIntent | internal/payments/service.go:28-56 | the two transactions run in sequence with the provider in between; each early exit leaves exactly what had been committed by then |
| PaymentService.AskingAgainChangesNothing | internal/postgres/payments_repository.go:23-75 | a saved intent quoted the order's total and changed no order, seat or ticket; asking again finds it and changes nothing |
| DeliveryWorker.DeliverPending | internal/tickets/service.go:39-69 | a batch leaves each claimed event COMPLETED, or PENDING at now + delay, leaves every other row unchanged, and returns the number newly completed |
| DeliveryWorker.BatchWorks | internal/tickets/service.go:52-67 | row by row: a delivered event is completed and a failed one due again after the delay, each with one more attempt on record; no other row changes |
| DeliveryWorker.PassingCosts | internal/postgres/tickets_repository.go:51-65 | a round that passes over a due event takes a full batch of events ahead of it and puts none ahead |
| DeliveryWorker.ClaimedWithin | internal/postgres/tickets_repository.go:51-65 | a due event with k due events ahead is claimed within any n rounds with n * limit > k, whatever fails |
| DeliveryBoard.CompletedWasDelivered | internal/tickets/service.go:51-66 | in every interleaving of workers each COMPLETED event has a successful delivery on record, made under one of its claims by the worker that held it, and the attempts counter is the number of claims |
| DeliveryBoard.StepKeepsLeasesIff | internal/postgres/tickets_repository.go:131-143 | a step keeps the claims of each event a lease apart, and claimed events unavailable for it, exactly when it is not a retry of a processing event from a superseded claim |
| DeliveryBoard.RetrySafeIff | internal/postgres/tickets_repository.go:131-143 | after a retry every continuation without further superseded retries keeps claims a lease apart exactly when a later claim had not superseded it |
| DeliveryBoard.RunLeasedIff | internal/postgres/tickets_repository.go:44-82 | a run keeps leases throughout exactly when none of its retries was superseded |
| DeliveryBoard.OutboxRunSafe | internal/postgres/tickets_repository.go:44-82 | all of this from an empty outbox |
| DeliveryBoard.NoEventLost | internal/postgres/tickets_repository.go:117-143 | over every run events are never lost, keep their order, and COMPLETED is absorbing |
| DeliveryWorker.UncompletedIsClaimable | internal/postgres/tickets_repository.go:51-65 | an uncompleted, available, unlocked event is claimed exactly when fewer than `limit` due events come before it |
| DeliveryBoard.StaleRetryDefeatsLease | internal/postgres/tickets_repository.go:131-143 | a superseded retry is reachable, and after it some continuation claims the event again within the other worker's lease |
| LayoutLocks.StepKeeps | migrations/000006_lock_seat_layout_after_showtime.up.sql:18-79 | every statement of every seat or showtime transaction keeps: inventory matches layout, locks and rows are exclusive, and each transaction's checks still hold |
| LayoutLocks.InterleavingsMatch | internal/postgres/admin_repository.go:552-578 | after any statement-level interleaving each committed showtime's inventory is exactly its studio's seats |
| LayoutLocks.NoStudioLockCycle | migrations/000006_lock_seat_layout_after_showtime.up.sql:1-16 | transactions waiting for one another's studio locks never form a cycle |
| LayoutLocks.StudioLocksProtectInventory | internal/postgres/admin_repository.go:628-660 | both, from an empty database |
| LayoutProgress.SeatCommitTells | migrations/000006_lock_seat_layout_after_showtime.up.sql:18-64 | a committed seat statement changed that seat alone, and its studios had no showtimes unless its layout stayed |
| LayoutProgress.ShowtimeCommitTells | internal/postgres/admin_repository.go:628-660 | a committed showtime statement left exactly its studio's seats as inventory, or removed the showtime and its inventory |
| LayoutProgress.AllowedCommit | migrations/000006_lock_seat_layout_after_showtime.up.sql:18-79 | in an idle database every transaction that the layout rules allow can run to its commit |
| LayoutProgress.SomeoneProceeds | migrations/000006_lock_seat_layout_after_showtime.up.sql:1-16 | whenever a transaction waits for a studio lock, one that holds a lock waits for none |
| AdminSafety.EveryHistoryIsSound | internal/admin/memory_repository.go:34-316 | after any sequence of mutations every inventory is the recomputed one, same-studio showtimes never share an instant, positions are unique, and the audit trail reproduces the live identifiers of every kind |
| AdminSafety.InventoryKeptIff | internal/admin/memory_repository.go:209-297 | any mutation keeps stored inventory equal to recomputation exactly when it does not create a seat under the identifier of one whose studio has showtimes |
| AdminSafety.AuditsKept | internal/admin/service.go:261-306 | a mutation and its audit event together keep the trail replayable |
| AdminSafety.ListedShowtimesFollow | internal/admin/memory_repository.go:56-73 | in list order each showtime of a studio ends no later than the next one of that studio starts |
| AdminSafety.InventoryMatchesIff | internal/admin/memory_repository.go:209-227 | over any calls from an empty repository, whatever identifiers they carry, inventory is the recomputed one throughout exactly when no call does that |
| AdminSafety.SeatsCanBeTaken | internal/admin/memory_repository.go:209-227 | the repository accepts such a call after some history |
| AdminAnswers.AcceptedIff | internal/admin/memory_repository.go:34-316 | a mutation is accepted exactly when all it names exists and carrying it out leaves no clash of showtimes, no shared seat position, and every scheduled studio's layout untouched |
| AdminAnswers.RefusalsAreTrue | internal/admin/memory_repository.go:34-316 | each error names what is wrong |
| AdminAnswers.OneEntryWritten | internal/admin/memory_repository.go:34-447 | an accepted mutation puts or removes the one entry it names, with its audit event, and leaves every other entry and inventory alone; a refused one changes nothing |
| AdminAnswers.InventoryIsLayout | internal/admin/memory_repository.go:123-132 | a stored inventory has one row for each seat of the studio and no other, at the showtime's price, in identifier order |
| AdminMemory.MemoryRepository.SaveShowtime | internal/admin/memory_repository.go:34-98 | create and update: the refusal, or the new showtime, its materialised seats and the audit event, and nothing else |
| AdminMemory.MemoryRepository.MaterializeShowtimeSeats | internal/admin/memory_repository.go:123-132 | the loop and sort yield exactly the studio's seats in identifier order at the base price |
| AdminMemory.MemoryRepository.HasOverlappingShowtime | internal/admin/memory_repository.go:134-144 | true exactly when another showtime of the studio meets the half-open interval |
| AdminMemory.MemoryRepository.UpdateSeat | internal/admin/memory_repository.go:256-278 | the refusal, in the order the code checks, or the new seat and the audit event |
| AdminService.SaveShowtime | internal/admin/service.go:383-422 | invalid input changes nothing; otherwise exactly the normalised mutation is made and audited |
| AdminService.SaveSeat | internal/admin/service.go:280-306 | the same for seats, with trimmed row, number and type |
| AdminService.SeatAskedIff | internal/admin/service.go:280-306 | a seat is asked for exactly when actor, studio and the three texts are there, with the texts trimmed |
| AdminService.StudioAskedIff | internal/admin/service.go:261-279 | the same for a studio |
| AdminService.ShowtimeAskedIff | internal/admin/service.go:383-422 | a showtime is asked for exactly when actor, movie, studio, two instants in order, an acceptable price and a three-letter currency are there |
| AdminService.ShowtimeCanBeResent | internal/admin/service.go:395-414 | a requested showtime lasts, keeps the value of its price, has a three-letter currency, and can be sent back unchanged exactly when its price fits the column |
| AdminService.ServiceKeepsInvariants | internal/admin/service.go:261-306 | whatever the service asks for keeps the repository's invariants |
| AdminService.CurrencyCodesAreFixed | internal/admin/service.go:450-461 | normalised currency codes are three letters A to Z and normalise to themselves |
| Price.NormalizePrice | internal/admin/service.go:424-439 | the code with its loops computes the specified normal form or refusal |
| Price.NumeralAccepted | internal/admin/service.go:424-434 | inside any white space, a numeral with a whole part is accepted exactly when it has at most two decimals and at most twelve digits |
| Price.AcceptedIsNumeral | internal/admin/service.go:424-434 | nothing but such numerals is accepted |
| Price.NormalizeIsByValue | internal/admin/service.go:435-439 | two accepted texts have equal normal forms exactly when they denote equal numbers |
| Price.NormalizedPrice | migrations/000001_initial.up.sql:65 | normalising keeps the number; the result fits NUMERIC(12,2) exactly when it has at most ten whole digits, and exactly then it is accepted again, as itself |
| Price.LongWholesAreLost | internal/admin/service.go:432-434 | every whole part of eleven or twelve digits is accepted once and refused when it comes back |
| Price.SomePriceIsLost | internal/admin/service.go:432-434 | there is such a price |
| BookingMemory.MemoryRepository.CreateHold | internal/booking/memory_repository.go:41-74 | the stored order, the refusal, or the new hold in all three maps |
| BookingMemory.MemoryRepository.CancelOrder | internal/booking/memory_repository.go:99-117 | everything due expires first, then the order is cancelled and its seats freed, or the call refused |
| BookingMemory.MemoryRepository.ExpirePendingHolds | internal/booking/memory_repository.go:119-170 | exactly min(limit, due) earliest-expiring due orders expire in both order maps and free the seats they still hold |
| BookingMemory.MemoryRepository.ReleaseLocked | internal/booking/memory_repository.go:158-165 | frees exactly the seats the order holds |
| BookingAnswers.OrderTransitions | internal/booking/memory_repository.go:99-156 | whatever the step, an order becomes EXPIRED exactly when overdue and an expiry takes it or anyone cancels something, CANCELLED exactly by its own user in time; an expiry takes the earliest |
| BookingAnswers.SeatTransitions | internal/booking/memory_repository.go:136-165 | unless a hold is asked for, a seat is freed exactly when the order it is held for ends, and no other changes |
| BookingAnswers.CancelAnswersIff | internal/booking/memory_repository.go:99-117 | a cancellation is granted exactly to the order's own user in time |
| BookingAnswers.NewKeyAnswersIff | internal/booking/service.go:52-95 | under a new key: invalid exactly when something is blank or a seat is named twice, refused exactly when a seat is not free, and otherwise one order is stored with the trimmed names in order |
| BookingService.RunsAgree | internal/booking/memory_repository.go:49-73 | in every run the idempotency map and the order map agree, and a key once taken stays with its order |
| BookingService.RetriesAreIdempotent | internal/booking/service.go:57-71 | after a grant and any run, a request with the same user and key changes nothing: it returns the stored order for the same showtime and seats in any order and padding, and is refused otherwise |
| BookingService.PaddingIsIgnored | internal/booking/service.go:153-174 | rearranging and padding the seat names does not change the canonical list |
| BookingService.SameSeatsIffSameList | internal/booking/service.go:184-194 | canonical lists coincide exactly when the trimmed names are the same multiset |
| BookingService.NewKeyHoldsExactlyItsSeats | internal/booking/memory_repository.go:57-70 | a new key is granted exactly when every named seat is in the showtime and free, and then holds exactly those seats |
| BookingService.ValidateAndSortSeatIDs | internal/booking/service.go:153-174 | the loop refuses blank and repeated names and otherwise yields the canonical list |
| BookingService.KeyFindsOwnOrder | internal/booking/memory_repository.go:32-38 | for names without NUL a lookup finds exactly the stored order of that user and key |
| BookingService.KeysNeverCollideIff | internal/booking/memory_repository.go:176-178 | two users' composite keys can never coincide exactly when neither name followed by NUL begins the other |
| BookingService.CollidingUserGetsOthersOrder | internal/booking/memory_repository.go:49-55 | whenever one name followed by NUL begins another, there are keys under which, after the first user's hold and any run, the second user's valid request is answered with the first one's order |
| BookingIndex.SeatsIndexOrders | internal/booking/memory_repository.go:57-70 | after any run from an inventory without holds, from the hold clock on, a seat is unavailable exactly when it is sold or a pending, unexpired order lists it |
| BookingService.BatchesExpireAll | internal/booking/memory_repository.go:136-156 | enough bounded expiries reach the state of expiring everything due at once |
| PaymentsMemory.MemoryRepository.ProcessWebhookEvent | internal/payments/memory_repository.go:87-142 | the result is one that some iteration order of the map allows |
| PaymentsMemory.SingleValuedIff | internal/payments/memory_repository.go:97-139 | a new event has a single result exactly when at most one payment bears its reference or it would change none of those that do |
| PaymentsMemory.LocalRunsAreDeterministic | internal/payments/memory_repository.go:97-139 | over every run from unpaid orders with the local provider's replies, references stay unique and every event has a single result at every instant |
| PaymentsMemory.PermutedEventsAgree | internal/payments/memory_repository.go:97-139 | for a pending payment whose reference no other payment bears or is given, two runs in which the same events count, in time and a success among them, end with the same paid order and tickets, whatever else the runs do |
| PaymentsMemory.LocalEventsAgree | internal/payments/fake_provider.go:34-42 | with the local provider, whose references name their orders, this holds of every pending payment |
| PaymentsMemory.NamedReferencesAreUnique | internal/payments/fake_provider.go:34-42 | references named after their orders are unique |
| PaymentsMemory.RunsSettle | internal/payments/memory_repository.go:103-138 | over every run PAID, SUCCEEDED and one ticket per item coincide, refunds are owed only on orders that ended unpaid, and settled payments stay so |
| PaymentsMemory.RunsFromUnpaidSettle | internal/payments/memory_repository.go:103-138 | in particular from any unpaid orders and no payments |
| PaymentsMemory.EventSettles | internal/payments/memory_repository.go:97-139 | a new event for a reference that one payment bears pays the order in time, or ends it and owes the refund, or keeps the first failure, and leaves every other order and payment alone |
| PaymentsMemory.QuoteAnswersIff | internal/payments/memory_repository.go:29-57 | the price of the first item is quoted exactly while the order can be paid and has no payment |
| PaymentsMemory.SaveAnswersIff | internal/payments/memory_repository.go:59-85 | a reply is stored exactly when the order has no payment and can be paid |
| PaymentsMemory.EarlyEventCanBeRedelivered | internal/payments/memory_repository.go:141-141 | an event that came before its payment leaves no trace and takes effect when redelivered |
| TicketsMemory.MemoryRepository.ClaimTicketDeliveries | internal/tickets/memory_repository.go:50-65 | as many due deliveries as the limit allows are leased, the others untouched |
| TicketsMemory.RetryKeepsCompletedIff | internal/tickets/memory_repository.go:83-106 | completed deliveries survive claims and completions, and a retry exactly when it is not for one of them |
| TicketsMemory.DeliveryTransitions | internal/tickets/memory_repository.go:50-106 | a claim leases open due events, as many as the limit allows; every operation leaves all other events alone |
| TicketsMemory.ScanAnswersIff | internal/tickets/memory_repository.go:137-157 | a scan is answered by the first ticket that bears the token |
| TicketsMemory.TokenAdmitsOnce | internal/tickets/memory_repository.go:137-157 | over any scans a token admits one visitor exactly when its first ticket was issued and some scan presents it, and never two, even if tickets share it |
| TicketsMemory.ScansUseFirst | internal/tickets/memory_repository.go:137-157 | any scans leave every ticket in its place and use up exactly the issued tickets that are the first to bear a presented token |
| Catalog.TraversalShowsEachOnce | internal/catalog/service.go:53-72 | following cursors while the table changes never goes back or repeats, and a finished traversal has shown every movie present throughout exactly once |
| Catalog.FixedTableIsListed | internal/postgres/movies_repository.go:65-76 | on a fixed table the pages concatenate to the sorted list and the number of pages is bounded |
| Catalog.ListMovies | internal/catalog/service.go:40-73 | a page holds the first rows after the cursor and has a next cursor exactly when more follow |
| Catalog.MemoryRepository.ListMovies | internal/catalog/memory_repository.go:21-33 | the scan selects exactly the first `limit` rows after the cursor |
| Catalog.SortMovies | internal/catalog/memory_repository.go:35-42 | sorts any movies in place, newest first, strictly so when none occurs twice |
| RateLimiter.ClientRateLimiter.Allow | internal/httpapi/rate_limit.go:32-49 | answers and updates the client's bucket as specified |
| RateLimiter.AdmissionsAreBounded | internal/httpapi/rate_limit.go:36-48 | any half-open stretch of n windows admits at most 10(n + 1) requests of one key |
| RateLimiter.RefusedIffWindowFull | internal/httpapi/rate_limit.go:40-45 | a request is refused exactly when its key's window is still open and has admitted ten |
| RateLimiter.WindowOpensWithAdmission | internal/httpapi/rate_limit.go:40-43 | a window opens at the very request it first admits |
| RateLimiter.BoundHoldsIffClockAfterZero | internal/httpapi/rate_limit.go:40-43 | the bound holds for all runs of a clock exactly when the clock starts after the zero instant |

## Left out

- Database.Database.ProcessWebhookEvent: row locks inside a transaction are not modelled; a transaction is one step that commits or changes nothing.
- LayoutLocks.NoStudioLockCycle: speaks of the studio locks only; row and foreign-key locks of PostgreSQL are not ordered by the SQL shown.
- LayoutLocks.Step: statements are steps of a state machine on values rather than methods, because their interleaving is what is studied; price and currency of inventory rows are not part of it.
- AdminMemory.MemoryRepository.SaveShowtime: Create and Update differ only in the existence check and are one method with a flag, as for studios, movies and cinemas; a cancelled context is not modelled.
- AdminService.Delete: the four deletions that trim the actor are one method; identifiers are numbers, so their trimming is not modelled.
- Machine.PlaceHoldStep: currencies and joined columns (titles, names, emails) are not modelled; the database clock and the application clock are one clock; user ids come from a token and are numbers.
- Machine.CancelStep: identifiers of the other operations are numbers, so a malformed one, which PostgreSQL refuses, does not occur.
- Uuid.Parse: speaks of the texts of `uuid` in PostgreSQL (hexadecimal digits in either case, optional hyphens after each group of four, optional braces); the driver's encoding is not part of this model.
- DeliveryBoard.Enabled: lease and retry delay are one duration, as the worker is configured; a worker that stops is one that takes no further step.
- The JSON and base64 form of the paging cursor is not part of this model.
- Handlers, routing, error envelopes and logging in internal/httpapi: plumbing.
- Tokens, bcrypt, HMAC, SHA-256, QR hashing and JSON: library calls; a webhook event is modelled after its verification, a ticket by its code.
- internal/seed, OMDb, the web applications, scripts and compose files: clients and deployment.
- Movie and cinema field validation, poster addresses, dates, the scheduling and seat-inventory read repositories: easy members.
- Strings are sequences of code points; ill-formed UTF-8 is not modelled.
