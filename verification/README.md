# Ticket reservation engine: a verified model

This project models the reservation engine of the ticket reservation lab and proves properties of it.
It covers quantity and seat reservation, cancel, confirm and expiry, the expiration worker, the PostgreSQL
rules they rely on, and the three readers and writers that must agree with the same tables: the consistency
audit, the inventory view and the fixture reset. Nothing was executed; every row of the Model table is proved
by the Dafny verifier (`dafny verify dfyconfig.toml`).

## How the model is built

- **Tables and statements.** `Tables` declares one datatype per table, `Ordering` the `ORDER BY column, id` of
  the queries, `Totals` sums of item quantities. `Spec` says what each statement and each request does, as
  functions from store to store.
- **The services as they run.** `Persistence.Session` is a class whose fields are the tables and whose methods
  are the repository statements (guarded UPDATEs, inserts refused by a unique index, the expiry of stale
  holds), with commit, rollback and savepoints. `Services` holds the three service classes with their
  branches, loops, error exits and rollbacks, and `Worker` the expiration loop. Every method is proved equal
  to its function in `Spec`, from any store, consistent or not.
- **The law of the tables.** `Invariant.Inv` is conservation (each counter is the sum of its items, never above
  the total), parent/child agreement (status, deadline, event), shape (one item, or one or more distinct
  seats), one reservation per key, one active row per seat, and rooted events. The CHECK constraints on the
  counters are not assumed; they follow.
- **Runs.** `Operations.Exec` is one atomic operation with the ids and the clock reading it chose; `Runs` and
  `Draining` reason about every finite sequence of them.
- **Interleavings.** `Concurrent` runs any number of transactions one statement at a time under READ COMMITTED:
  a statement sees the last committed store overlaid with its own transaction's writes (the default
  isolation level, as `src/app/db/session.py:13-20` sets none); row locks and
  unique-index entries last until commit, rollback or rollback to a savepoint; FOR UPDATE, UPDATE and index
  inserts wait; SKIP LOCKED passes over; a transaction may be aborted between any two statements; the clock
  may advance at any time. Beside its state each transaction carries what the clock showed when it began, which no
  statement looks at (`Readings.BeganAt`); its clock readings are measured against that. `Progress` states what a transaction knows at each statement, `Isolation` and
  `Stability` that commits of others cannot take it away, `Steps` that each statement keeps it, and
  `Refinement` that every interleaving is a run of atomic operations in commit order. `Refusals` does the same
  for the answers of requests that end without a commit, `Scans` for what a batch picks, or fails to, beside
  locked rows; `Reachable`, `Readings` (when what was read from the clock), `Deadlock` and `Endings` draw the
  consequences. `Walks` builds traces from fresh systems, and `DeadlockWitness` three that end in a deadlock.

What the outside world supplies is a parameter: the clock reading, generated ids (assumed unused), the
caller (a visitor session with an optional user), the configured lifetime of a hold, and what a turn of the
worker's loop meets. From the request schema the model takes `quantity > 0` and a non-empty seat list without
duplicates, so requested seats are a set; passed straight to the service an empty list creates a reservation
without children (`Outcomes.EmptyListIsChildless`), and lists with duplicates are not modelled.

## Where the code and its documentation differ

The reset is documented to remove only stress-seeded events, but the prefix it selects by contains
underscores and goes into a LIKE pattern unescaped, where an underscore matches any character. An event named
`Mystress seeded: open day` is deleted too (`Reset.LookAlike`). The reset removes exactly the prefixed events
if and only if no event carries such a look-alike name (`Reset.PicksOnlySeededIff`).

## When requests can deadlock

Waits for anything but a key in flight or a second ticket type go up: seats by id, then parent reservations by
id, then towards a later clock reading, then ticket types. There is no cycle of waits, and always somebody who
can go on, as long as (1) requests in flight under one (session, key) pair are both quantity requests, or both
seat requests with a common seat, as any plain retry is, or one of each kind while no batch has picked both a
seat and a quantity reservation, and (2) at most one batch has picked items of two ticket types
(`Deadlock.NoDeadlock`, `Deadlock.SomebodyCanGo`). For each of the three things this excludes there are traces
from fresh systems that end in a deadlock: any two seat requests for disjoint seats under one key
(`DeadlockWitness.SameKeyOtherSeat`), a quantity and a seat request under one key with a batch that has picked
both kinds (`DeadlockWitness.KeyAcrossKinds`), two batches over two ticket types
(`DeadlockWitness.TwoMixedBatches`). No request loops, so one that is left alone runs to its end
(`Endings.StatementsRunOut`,
`Endings.StaysNear`, `Endings.RunsToItsEnd`).

## Model

| member | source | states |
|---|---|---|
| Persistence.Session.ReserveTicketQuantity | src/app/modules/reservations/repository.py:206-239 | updates the row and answers true exactly when the ticket type belongs to the event and sold + reserved + quantity is within the total; then reserved grows by the quantity and nothing else changes |
| Persistence.Session.ReleaseReservedQuantity | src/app/modules/reservations/repository.py:322-347 | releases exactly when reserved covers the quantity; sold untouched |
| Persistence.Session.ConfirmReservedQuantity | src/app/modules/reservations/repository.py:349-379 | moves reserved to sold exactly when reserved covers the quantity and sold + reserved is within total |
| Persistence.Session.AddReservation | src/app/modules/reservations/models.py:29-33 | the insert is refused exactly when a row has the same session and key, and then changes nothing |
| Persistence.Session.AddReservationSeats | src/app/modules/reservations/models.py:115-125 | the inserts go through exactly when no row, reserved or confirmed, is on a listed seat; then there is one reserved row per seat |
| Persistence.Session.ExpireReservationsForSeats | src/app/modules/reservations/repository.py:266-320 | in any store the reservations that hold one of the seats in a reserved row run out by then lose their reserved status, parent and all reserved rows, and nothing else changes |
| Services.QuantityReservationService.Reserve | src/app/modules/reservations/service.py:65-157 | the whole method with its two conflict exits is one atomic operation; unless a reservation is made the committed store is unchanged, stock increment undone |
| Services.QuantityReservationService.ResolveConflictOrReplay | src/app/modules/reservations/service.py:159-177 | undoes the transaction first, then answers from the committed store alone |
| Services.SeatReservationService.Reserve | src/app/modules/reservations/service.py:208-301 | the whole method is one atomic operation; unless a reservation is made the committed store is unchanged, earlier expiries undone |
| Services.SeatReservationService.ResolveConflictOrReplay | src/app/modules/reservations/service.py:303-321 | undoes the transaction first, then answers from the committed store alone |
| Services.ReservationLifecycleService.TransitionQuantity | src/app/modules/reservations/service.py:577-613 | the item loop succeeds exactly when the step-by-step function does, with its store |
| Services.ReservationLifecycleService.TransitionSeats | src/app/modules/reservations/service.py:615-638 | the loop over seat rows, which stops at the first row not reserved, is one all-or-nothing update of rows that exist and are all reserved |
| Services.ReservationLifecycleService.TransitionReserved | src/app/modules/reservations/service.py:551-575 | a parent that is no longer reserved is left alone; otherwise children and parent move together or the call fails |
| Services.ReservationLifecycleService.LockOwned | src/app/modules/reservations/service.py:529-549 | the row when it is of the session of the caller, or of the user the caller is logged in as; otherwise nothing after a rollback |
| Services.ReservationLifecycleService.Cancel | src/app/modules/reservations/service.py:362-419 | the method with its replay, conflict, late-expiry and inventory-conflict exits is one atomic operation, committed |
| Services.ReservationLifecycleService.Confirm | src/app/modules/reservations/service.py:421-480 | the same for confirm |
| Services.ReservationLifecycleService.ExpireBatch | src/app/modules/reservations/service.py:482-527 | from any store the batch with its savepoints is the in-order fold of all-or-nothing transitions over the selected rows, and counts the successes |
| Services.FailedRowLeavesNoTrace | src/app/modules/reservations/service.py:508-527 | from any store a row that fails leaves store and count as if it had not been selected; all other rows are unaffected |
| Services.TransitionFrame | src/app/modules/reservations/service.py:551-575 | from any store a successful transition changes the status of its own parent and of no other |
| Services.SeatsMoveTogether | src/app/modules/reservations/service.py:615-638 | in any store the rows of a seat reservation take the target status together exactly when there is one and all are reserved, and no other row changes |
| ItemLoop.LoopIsAggregate | src/app/modules/reservations/service.py:594-613 | for any item list with repeated ticket types the loop succeeds iff every item is reserved and each ticket type's summed quantity passes the guard; then each counter moves by exactly that sum |
| ItemLoop.QuantityTransitionIsAggregate | src/app/modules/reservations/service.py:577-613 | the same for the whole quantity transition, which also refuses an empty item list |
| Invariant.FreshInv | src/app/modules/events/models.py:65-77 | newly created events, ticket types with zero counters and seats satisfy the invariant |
| Invariant.CountersWithinBounds | src/app/modules/events/models.py:34-50 | the CHECK constraints on the counters follow from the invariant |
| Operations.ExecKeepsInv | src/app/modules/reservations/service.py:65-527 | every operation with any outcome keeps conservation, agreement, shape, key uniqueness and seat exclusivity |
| Transitions.GuardsNeverFail | src/app/modules/reservations/service.py:590-638 | in a consistent store no transition of any reservation to any target raises the inventory conflict |
| Operations.ExpireAll | src/app/modules/reservations/service.py:507-527 | in a consistent store a batch over reserved rows counts all of them and expires exactly them |
| Outcomes.QuantityOutcome | src/app/modules/reservations/service.py:85-144 | made iff no reservation of either kind has the key and sold + reserved + quantity is within the total of a ticket type of the event; replayed iff the key holds a quantity reservation; otherwise a stock conflict; only a made request changes anything |
| Outcomes.LeftIsGranted | src/app/modules/reservations/repository.py:206-239 | in a consistent store a request under an unused key is made iff the reserved and confirmed items of the ticket type leave the quantity free |
| Outcomes.QuantityEffect | src/app/modules/reservations/service.py:110-144 | what a made request leaves behind and answers, column by column: the reservation of the session and user of the caller, one reserved item, the reserved counter up by the quantity |
| Outcomes.SeatsOutcome | src/app/modules/reservations/service.py:227-293 | made iff the key is unused, every seat is in the event and none has a confirmed hold or a reserved one expiring after now; replayed iff the key holds a seat reservation; told that seats are missing iff the key holds none and some seat is not in the event, else that there is a conflict |
| Outcomes.SeatsEffect | src/app/modules/reservations/service.py:249-287 | a made request expires exactly the stale holders of its seats with all their rows, holds exactly the requested seats for the session and user of the caller, and answers them ascending |
| Outcomes.QuantityLookupExact | src/app/modules/reservations/repository.py:121-164 | the lookup misses iff no quantity reservation has the key, and never meets several rows |
| Outcomes.QuantityLookupCounts | src/app/modules/reservations/repository.py:121-164 | in any store the lookup misses iff no item of a quantity reservation is under the key, and fails iff there are several |
| Outcomes.SeatsLookupFound | src/app/modules/reservations/repository.py:166-204 | the lookup returns the reservation of the key with exactly its seats, each once, in ascending order |
| Outcomes.EmptyListIsChildless | src/app/modules/reservations/schemas.py:35 | why the schema asks for a seat: an empty list passed to the service makes a reservation without children |
| Outcomes.CrossKindRefused | src/app/modules/reservations/repository.py:147-151 | a key held by the other kind creates nothing and ends in an error |
| Outcomes.LifecycleOutcome | src/app/modules/reservations/service.py:381-480 | replay, conflict, late expiry or transition: which one happens to a reservation of the session or user of the caller, what it leaves behind, and the answer: id, event, kind, deadline, the new status, and exactly the one item or the seats in ascending order, each in that status |
| Outcomes.FoundByOwner | src/app/modules/reservations/repository.py:55-67 | not found iff the reservation does not exist, or is of another session and the caller is not logged in as its user; no visitor without a user finds the reservation of another session |
| Outcomes.DetailRows | src/app/modules/reservations/repository.py:71-93 | in any store a detail is made of exactly the rows of the reservation, items by ticket type and id, seats by seat and id |
| Outcomes.LifecycleSettles | src/app/modules/reservations/service.py:381-480 | after any owned call the reservation is no longer reserved, and an error is the transition conflict |
| Outcomes.LifecycleRepeats | src/app/modules/reservations/service.py:381-385 | any further call with any target changes nothing; repeating a successful one gives its answer again |
| Runs.RunKeepsInv | src/app/modules/reservations/service.py:65-527 | every store of every run satisfies the invariant |
| Runs.RunEvolves | src/app/modules/reservations/service.py:558-575 | over any stretch of any run rows keep their identity, a reservation leaves RESERVED at most once and never changes again, sold never decreases, and no child joins an existing parent |
| Runs.HoldEnds | src/app/modules/reservations/service.py:392-405 | an operation ends a reserved hold only as the call of its session or user, as a seat request reading the clock at or past the deadline, or as a batch whose instant is past it; and confirms it only as the owner's confirm no later than the deadline |
| Runs.MakerFindsIt | src/app/modules/reservations/service.py:112-120 | after a made request of either kind and any run, a cancel or confirm is answered not found iff it is of another session and not logged in as the user who made the request |
| Runs.HoldSafeUntilDeadline | src/app/modules/reservations/repository.py:107-110 | over any run that stays before the deadline and contains no owner's call on it a hold is unchanged |
| Runs.QuantityRetryAfterRun | src/app/modules/reservations/service.py:85-93 | after a made request and any run, a retry with the key returns the original id and item with the current status and moves no stock |
| Runs.SeatsRetryAfterRun | src/app/modules/reservations/service.py:227-235 | the same for seats: the retry returns the original answer, its list of seats included, with the current status, whatever it asks for |
| Draining.BatchExpiresExactly | src/app/modules/reservations/repository.py:97-120 | without competing locks a batch takes the first reserved holds with a deadline before its instant, by deadline and id, of those it is restricted to, counts them, and changes no other reservation |
| Draining.BatchDrains | src/app/modules/reservations/repository.py:107-119 | without competing locks a batch counts min(size, overdue) and lowers the number of overdue holds by that |
| Draining.BatchAdvances | src/app/modules/reservations/repository.py:114-118 | a stale row not taken by a batch moves up by the batch size |
| Draining.NobodyOvertakes | src/app/modules/reservations/repository.py:114-118 | no operation puts another reservation ahead of a row, except a new hold that runs out no later |
| Draining.BoundedWait | src/app/workers/expiration.py:28-39 | a row with k rows up to it is settled once size times the number of full batches run after its deadline reaches k, whatever else is committed in between, requests that read the clock before the deadline included |
| Worker.ExpirationWorker.RunExpirationWorker | src/app/workers/expiration.py:15-45 | any number of turns of the loop, failed ones included, leave the committed store of the successful batches alone, with their counts |
| Worker.WorkerIsARun | src/app/workers/expiration.py:28-43 | the worker's life is a run of operations with one full batch per successful turn |
| Worker.WorkerSettles | src/app/workers/expiration.py:28-43 | an overdue hold is settled after ceil(rank / batch size) successful turns, however many turns fail |
| Scans.BatchPicksFirstFree | src/app/modules/reservations/repository.py:107-119 | under any interleaving a batch that comes to settle rows has picked the first holds, by deadline and id, that a store committed while it was in flight shows reserved and run out, of those it is restricted to, except rows that, when it came to them in its scan, were locked by somebody else or settled; run out at an instant it read from the clock while in flight, or at the one it was given; if there were no such rows, and no hold made meanwhile was overdue from the start, it commits as a full batch |
| Scans.EmptyBatchFoundNothing | src/app/modules/reservations/service.py:497-505 | a batch that ends without picking anything answers 0, and unless its size is 0 every stale row of a store committed while it was in flight was, when it came to it in its scan, locked by somebody else or settled |
| Isolation.CommitIsQuiet | src/app/modules/reservations/repository.py:291-320 | a commit changes nothing that the holder of disjoint locks relies on |
| Progress.TxCovered | src/app/modules/reservations/repository.py:295-320 | at every statement of every request each uncommitted write is backed by a lock or index entry the transaction holds |
| Stability.TxStable | src/app/modules/reservations/repository.py:280-302 | what a transaction knows, the list of stale holders read before the parent lock included, survives commits of others |
| Steps.RowsStep | src/app/modules/reservations/service.py:507-527 | under any interleaving settling rows never meets a failing guard |
| Steps.AdvanceStep | src/app/modules/reservations/service.py:65-527 | every statement of every request keeps what the transaction knows, and its commit is exactly one atomic operation |
| Refinement.StepRefines | src/app/modules/reservations/service.py:65-527 | a step of the system keeps the system invariant and either leaves the committed store alone or is one atomic operation, answered as that operation answers and acting on an instant between the beginning of the request and now, or the one given to the batch; the answers given without a commit are those of `Refusals.RefusalsLinearize` |
| Refusals.RefusalsLinearize | src/app/modules/reservations/service.py:87-177 | every request that ends without a commit, by a conflict, seats not found, not found or a replay, is answered as the atomic operation answers in some store committed between its beginning and its end, acting at an instant between the two |
| Refusals.ConflictsAreReal | src/app/modules/reservations/service.py:249-293 | a conflict has its reason in a store committed while the request was in flight: a key of the other kind, fewer tickets than asked for left by reserved and confirmed items, or a requested seat sold or held beyond the moment the request came in, never a hold that had run out by then |
| Readings.ReadingsAreReal | src/app/modules/reservations/service.py:249 | under any interleaving the instant a transaction acts on is what the clock showed at a statement of its own that reads it, or the instant given to the batch |
| Readings.LateNeverConfirms | src/app/modules/reservations/service.py:421-480 | no step of a request that came in after the deadline of a hold confirms it, however long it waited for the row |
| Readings.LateCallExpires | src/app/modules/reservations/service.py:392-405 | a cancel or confirm that came in after the deadline and commits has found the hold reserved, expires it and nothing else, and answers the transition conflict |
| Readings.ConfirmedUnderLock | src/app/modules/reservations/service.py:421-480 | whatever any trace has confirmed was, at some moment with the clock not past its deadline, reserved and locked by its owner's confirm |
| Refinement.EveryInterleavingIsARun | src/app/modules/reservations/service.py:65-527 | for every interleaving of any number of requests and batches the committed store is that of the atomic operations run in commit order |
| Refinement.StartInv | src/app/modules/events/models.py:19-98 | a system of freshly created events without requests satisfies the system invariant |
| Refinement.TraceEvolves | src/app/modules/reservations/service.py:558-575 | one transition per lifetime and growing sales under every interleaving |
| Reachable.NoLostUpdates | src/app/modules/reservations/repository.py:217-219 | no two transactions have uncommitted writes to the same row of any table |
| Reachable.AnswersAreClean | src/app/modules/reservations/service.py:507-527 | under every interleaving no request ends in the inventory conflict or in an ambiguous key, and a batch returns exactly the number of rows it locked |
| Reachable.FailureLeavesNothing | src/app/modules/reservations/service.py:137-144 | a request ending in an error or aborted leaves no lock and no write, and no change unless the error reports an expired hold |
| Reachable.UsedKeyMakesNothing | src/app/modules/reservations/models.py:29-33 | once a key is committed no request carrying it commits anything, whatever the interleaving of retries |
| Reachable.ReplayIsTheOriginal | src/app/modules/reservations/service.py:167-174 | a replay answers with the one reservation committed under the key, its item and its current status |
| Reachable.SeatsReplayIsTheOriginal | src/app/modules/reservations/service.py:311-318 | the same for seats: the replay lists the seats of the one reservation under the key in ascending order; the only other end without a commit is that the requested seats are not all in the event |
| Reachable.HoldSafeUnderConcurrency | src/app/modules/reservations/service.py:392-405 | under every interleaving a hold whose owner makes no call on it is unchanged while the clock is before its deadline |
| Deadlock.WaitRises | src/app/modules/reservations/service.py:237-257 | a wait between transactions that are not exposed goes up: seats by id, then parents by id, then later `now`, then ticket types |
| Deadlock.CyclesAreExposed | src/app/modules/reservations/repository.py:255-302 | every cycle of waiting transactions contains one waiting for a key in flight, or for a ticket type while holding one |
| Deadlock.NoDeadlock | src/app/modules/reservations/repository.py:291-320 | as long as requests in flight under one key are both quantity requests, or seat requests with a common seat, or of different kinds while no batch has picked both kinds, and at most one batch has picked items of two ticket types, there is no cycle of waits |
| Deadlock.SomebodyCanGo | src/app/modules/reservations/repository.py:291-320 | under the same condition some transaction can run its next statement as long as one is unfinished |
| Endings.StatementsRunOut | src/app/modules/reservations/service.py:65-527 | every statement brings its request nearer to its end, whatever it reads: no request loops |
| Endings.RunsToItsEnd | src/app/modules/reservations/service.py:65-527 | from any state of the system a request whose competitors are done ends by running its own statements |
| DeadlockWitness.SameKeyOtherSeat | src/app/modules/reservations/service.py:253-287 | for any two disjoint non-empty seat sets of any event, any caller, key and lifetime, a trace from a fresh system to a deadlock of the two seat requests |
| DeadlockWitness.KeyAcrossKinds | src/app/modules/reservations/service.py:98-134 | a trace to a deadlock of a quantity and a seat request under one key with one batch, which has picked both kinds and mixes no ticket types |
| DeadlockWitness.TwoMixedBatches | src/app/modules/reservations/service.py:508-518 | a trace to a deadlock of two batches that each picked items of two ticket types |
| Audit.CheckExact | src/app/modules/stress_admin/repository.py:52-255 | each check passes iff the condition it names holds in the store its query read |
| Audit.AuditExact | src/app/modules/stress_admin/service.py:114-219 | despite the detail limit and the grouping `ok` holds iff all six conditions do, and there are details iff not `ok` |
| Audit.DetailsExact | src/app/modules/stress_admin/service.py:173-208 | every detail names a record that breaks its check and carries the numbers of that record; every such record is listed unless a hundred sooner ones are; checks in their order, at most a hundred each |
| Audit.AuditPassesDuringWorkload | src/app/modules/stress_admin/service.py:131-173 | queries run at any points between the steps of any workload, each seeing what is committed by then, never fail a structural check |
| Inventory.ViewExists | src/app/modules/events/service.py:103-108 | there is no view iff the event does not exist |
| Inventory.SeatsAgreeWithHolds | src/app/modules/events/repository.py:45-73 | the seats listed are exactly those of the event, each once, by label and id, available iff no reserved or confirmed row takes the seat, else held or sold as that row says |
| Inventory.TwiceHeldTwiceListed | src/app/modules/events/repository.py:54-65 | the outer join yields one row for a seat iff it has at most one active row |
| Inventory.StockAgreesWithItems | src/app/modules/events/service.py:112-128 | sold and reserved as shown are the sums of the confirmed and of the reserved items, availability is the total minus both and never negative |
| Inventory.TypesInOrder | src/app/modules/events/repository.py:33-43 | the ticket types listed are exactly those of the event, each once, by name and id, with the total, sold and reserved of its row and what they leave available |
| Reset.StressAdminService.DeleteEvents | src/app/modules/events/models.py:59-63 | refused iff a reservation, item or seat row still refers to what would go; otherwise takes ticket types and seats along |
| Reset.StressAdminService.Reset | src/app/modules/stress_admin/service.py:81-112 | from any store: refused and undone iff a remaining child names a ticket type or seat of a picked event; otherwise exactly the picked events and what belongs to them are gone |
| Reset.StartsWithExact | src/app/modules/stress_admin/service.py:88-95 | an unescaped prefix matches iff every character but the underscores agrees |
| Reset.PickedExactly | src/app/modules/stress_admin/service.py:88-95 | a name is picked iff it has the prefix or is a look-alike, never both |
| Reset.PicksOnlySeededIff | src/app/modules/stress_admin/service.py:83-88 | the picked events are those with the prefix or a look-alike name, so the prefixed ones alone iff no event has a look-alike name |
| Reset.LookAlike | src/app/modules/stress_admin/service.py:28 | a concrete name that is deleted without having been seeded |
| Reset.ResetKeepsInv | src/app/modules/stress_admin/service.py:88-110 | in a consistent store the reset is never refused and keeps the whole invariant for what remains |
| Reset.ResetSparesOthers | src/app/modules/stress_admin/service.py:98-109 | exactly the rows of other events remain, unchanged |

## Left out

- Deadlock.NoDeadlock: speaks of cycles of waits; a cycle that the excluded requests do form is broken by PostgreSQL aborting one transaction, which the model allows at any point but does not force.
- Draining.BoundedWait: counts batches that meet no competing lock, because SKIP LOCKED may pass over a row as long as others hold it; what a batch picks beside locks is `Scans.BatchPicksFirstFree`.
- Worker.ExpirationWorker.RunExpirationWorker: the endless loop is any finite number of its turns; sleeping and logging are not modelled.
- Foreign-key share locks and locks on child rows: whoever writes a child holds its parent's lock (`Progress.TxCovered`), so they add no wait between the modelled requests.
- Users, password hashing, login and session tokens: a caller is a session id with an optional user id.
- Foreign keys to visitor sessions and users: callers are taken to exist.
- Event, ticket type and seat creation and stress seeding: the initial state, with zero counters.
- Reset running beside live reservations: not guaranteed by the code; the reset is modelled alone.
- The lookup of a single reservation for reading, timestamps, string lengths, 32-bit overflow and UUID generation (ids are assumed unused).
- Names of ticket types and the three parts of a seat label: each is one position to sort by.
- HTTP routing, error handlers, logging, connection pools, Redis and migrations.
