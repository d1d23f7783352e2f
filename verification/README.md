# Verified model of the queue system

A Dafny model of the ticket engine and of the services that consume its events, with proofs.

| file | what it holds |
|---|---|
| `Basics.dfy` | optional columns, times, decimal numerals, printed ticket numbers |
| `Transitions.dfy`, `Tickets.dfy` | the status table, ticket rows, guarded moves, the events they log, replay |
| `EventLog.dfy` | the hash chain of a ticket's log |
| `Routing.dfy`, `Fairness.dfy` | choosing the next ticket; bounds over sequences of calls |
| `StoreSpec.dfy` | the tables, and what each transaction does to them |
| `StoreInvariants.dfy`, `StoreRuns.dfy` | what every transaction keeps, and safety over whole runs |
| `StoreEffects.dfy`, `SweepPolicy.dfy`, `Announcements.dfy` | what each command answers, does to its ticket, and tells the outbox and the log |
| `Choice.dfy` | whom a call takes, in terms of the tables |
| `StoreTimes.dfy` | the order of a ticket's stamps over runs |
| `StoreFairness.dfy`, `StoreWaiting.dfy`, `StoreStarvation.dfy` | fairness, quotas and waiting for the calls of runs, and where they fail |
| `Store.dfy` | the store as a class that updates its tables in place, each method proved equal to its transaction |
| `Selects.dfy` | the cascade of a call select by select, each on its own snapshot |
| `Locking.dfy` | interleaved transactions, by their statements on tickets, appointments and routing rows, under row locks held to commit |
| `LockingFairness.dfy`, `LockingCheckIns.dfy` | fairness and waiting of the committed calls, and when an appointment is filed twice |
| `LockingRuns.dfy`, `LockingSerial.dfy` | interleavings that can happen, among them every run of whole transactions |
| `RecallRace.dfy` | one ticket's row and log while recalls run beside the updates |
| `Outbox.dfy`, `OutboxRuns.dfy`, `OutboxService.dfy` | the outbox protocol, its guarantees, and the poller and worker classes that run it |
| `Notifications.dfy`, `Delivery.dfy`, `DeliveryHistory.dfy`, `Mailer.dfy` | retry delays, runs of deliveries, what rows tell of them, and the sending class |
| `RateLimit.dfy` | the token bucket |
| `Kiosk.dfy`, `KioskApp.dfy` | the kiosk's offline buffer against the server's deduplication |

How the parts fit together:

* A command of the store is one whole transaction, a function from tables to tables and a reply. What the database
  or the environment chooses (the pick among equal ranks, the order of a batch, fresh ids, the clock, policies,
  counters, holidays, tickets locked by others) is recorded in the command and constrained to what the SQL admits.
  The class in `Store.dfy` runs the statements in the order of the source and is proved to do just that.
* `Fairness.dfy` speaks of sequences of calls that each took a least-ranked ticket for the routing row they found.
  `StoreFairness.dfy` shows that the calls of any run are such a sequence. `Selects.dfy` says the same of calls whose
  selects see different snapshots, and `Locking.dfy` shows that the committed calls of every interleaving are such.
  Each call that commits there is a call command of `StoreSpec.dfy` (`Locking.CommittedCallIsACommand`); for the other
  transactions `Locking.dfy` shares only the row updates.
* The classes for the poller, the worker and the kiosk return the steps they took as a ghost result and prove that
  these are a possible run of the protocol in which the guarantees are stated.

Where the code and the naive reading differ, the model follows the code:

* Replay ignores nulls, so after a transfer or a returned no-show it still shows the old counter and call time.
  `StoreRuns.ReachableReplay` says exactly when these two fields agree.
* A request id is looked up together with its action but stored under the id alone. `StoreRuns.ReplayIsSilentIff`
  says exactly when a replay is silent, `StoreRuns.ReusedIdRecallsTwice` what happens otherwise.
* The streak bound needs named priority classes; the HTTP layer supplies them
  (`services/queue-service/internal/httpapi/handler.go:128-130`), the store does not. `StoreStarvation.StreakBoundIff`
  says for which sets of classes the bound holds.
* The queue ahead of a waiting ticket can grow: by unholds, transfers, returned no-shows and backdated creations. The
  waiting bound is for runs without them (`StoreWaiting.QueueGrowsIff`).
* A check-in reads the appointment without a lock and updates it whatever its status is by then, so two concurrent
  check-ins can both commit (`LockingRuns.ConcurrentCheckInsFileTwice`). `LockingCheckIns.FiledTwiceIffLateCommit` says
  exactly when.
* A recall reads the ticket without a lock, so its event can follow that of a later update and the replay then shows a
  serving ticket as called (`RecallRace.LateRecallShowsCalled`). `RecallRace.AgreesThroughoutIff` says exactly when.
* Check-in creates every ticket with the regular class, so calling an appointment resets the streak; bounded waiting of
  regular walk-ins therefore assumes ratio and boost 0.
* Time-only paging loses events at a tie cut by a page (`Outbox.TimePagingSkipsIffTieIsCut`).
* Outbox rows are stamped with the start of their transaction, so a row may appear behind a cursor. The protocol allows
  that: such rows are `late` for the poller and outside `OrderlyRun` for the worker.
* The poller's saved offset can go back (`OutboxRuns.FailedLoadTurnsSavedBack`): exactly when a start fails to load it
  and the first page saved from there ends before it (`OutboxRuns.SavedTurnsBackIff`).
* The retry delay overflows a 64-bit word from the 32nd attempt on (`Notifications.RetryDelayIsIntendedIff`).
* A payload buffered between a synchronisation's read and its write is overwritten (`Kiosk.BufferedDuringSyncIsLost`).

To verify: `dafny verify dfyconfig.toml`.

## Model

| member | source | states |
|---|---|---|
| `Store.TicketStore.NewStore` | services/queue-service/internal/store/postgres/store.go:35-45 | an empty store; a streak limit that is not positive becomes 3 |
| `Store.TicketStore.CreateTicket` | services/queue-service/internal/store/postgres/store.go:47-114 | the new tables and the reply are the create command's: a known request id answers its ticket and changes nothing, an unknown service fails, otherwise number, row, index, outbox and log entry |
| `Store.TicketStore.CallNext` | services/queue-service/internal/store/postgres/store.go:189-294 | the reported pick is a least-ranked unlocked waiting ticket for the routing row read under the lock (or none waits), and tables and reply are the call's: lookup, refusals in order, window reset, selection, call, record, routing update, logs |
| `Store.TicketStore.CallInLockedSection` | services/queue-service/internal/store/postgres/store.go:224-293 | the part of a call behind the routing lock, with the empty result recorded and the found ticket called |
| `Store.TicketStore.SelectNextTicket` | services/queue-service/internal/store/postgres/store.go:238-261 | the cascade run on the service's unlocked waiting tickets under the preferences computed from the locked row |
| `Store.TicketStore.AutoNoShow` | services/queue-service/internal/store/postgres/store.go:296-422 | the sweep's tables and count: at most the batch size of overdue called tickets, longest called first, each returned to the queue or ended |
| `Store.TicketStore.NoShowTicket` | services/queue-service/internal/store/postgres/store.go:424-509 | tables and reply of a manual no-show, with counter and call time as the row has them after the update |
| `Store.TicketStore.CheckInAppointment` | services/queue-service/internal/store/postgres/store.go:718-816 | tables and reply of a check-in; a failure after the appointment was marked rolls the mark back |
| `Store.TicketStore.UpdateTicketStatus` | services/queue-service/internal/store/postgres/store.go:1539-1648 | the generic guarded status update with its dedup lookup and its choice among the error replies |
| `Store.TicketStore.StartServing` | services/queue-service/internal/store/postgres/store.go:818-820 | tables and reply of a start: only from called and only at the ticket's counter, stamping served_at |
| `Store.TicketStore.CompleteTicket` | services/queue-service/internal/store/postgres/store.go:822-824 | tables and reply of a completion: only from serving, stamping completed_at |
| `Store.TicketStore.CancelTicket` | services/queue-service/internal/store/postgres/store.go:826-828 | tables and reply of a cancellation: only while waiting |
| `Store.TicketStore.HoldTicket` | services/queue-service/internal/store/postgres/store.go:830-832 | tables and reply of a hold: only while waiting |
| `Store.TicketStore.UnholdTicket` | services/queue-service/internal/store/postgres/store.go:834-836 | tables and reply of an unhold: only from held, back to waiting |
| `Store.TicketStore.RecallTicket` | services/queue-service/internal/store/postgres/store.go:1650-1701 | tables and reply of a recall: it logs and records, and leaves the row as it is |
| `Store.TicketStore.TransferTicket` | services/queue-service/internal/store/postgres/store.go:846-925 | tables and reply of a transfer: the ticket is requeued at the target service without counter, its log says where it came from |
| `Store.TicketStore.LockRoutingState` | services/queue-service/internal/store/postgres/store.go:967-988 | the routing row is created when missing, then read |
| `Store.TicketStore.StoreRoutingState` | services/queue-service/internal/store/postgres/store.go:990-1015 | the routing row written back is the updated one |
| `Store.TicketStore.NextTicketNumber` | services/queue-service/internal/store/postgres/store.go:1276-1289 | the next number is one more than the last, for this branch and service alone |
| `Store.TicketStore.InsertOutboxEvent` | services/queue-service/internal/store/postgres/store.go:1291-1440 | outbox and ticket log both receive the event |
| `Store.TicketStore.InsertTicketEvent` | services/queue-service/internal/store/postgres/store.go:1446-1477 | the log grows by the next link of the ticket's hash chain |
| `Store.TicketStore.FindActionRequest` | services/queue-service/internal/store/postgres/store.go:1499-1537 | the recorded answer for this id under this action |
| `Store.TicketStore.InsertActionRequest` | services/queue-service/internal/store/postgres/store.go:1703-1710 | the first record of an id stays |
| `StoreEffects.CreationIssuesIff` | services/queue-service/internal/store/postgres/store.go:58-78 | a creation issues a ticket exactly if its request id is new and the service has a code; otherwise no table changes and the reply says which |
| `StoreEffects.CreationIssues` | services/queue-service/internal/store/postgres/store.go:79-114 | the ticket is the one asked for: its columns, its class, its time or the clock's, and a printed number that reads as the service's code and the next number |
| `StoreEffects.CheckInIssuesIff` | services/queue-service/internal/store/postgres/store.go:729-781 | a first check-in issues a ticket exactly if the appointment is of this tenant and branch and still scheduled, the day is no holiday and the service has a code; otherwise no table changes and the reply names the first check that failed |
| `StoreEffects.CheckInIssues` | services/queue-service/internal/store/postgres/store.go:769-816 | the ticket of a check-in is a regular one of the appointment's service, and the appointment alone is marked |
| `StoreEffects.CallIsRefusedFor` | services/queue-service/internal/store/postgres/store.go:215-230 | what a refused call is answered: service, permission, counter, availability, in this order, with no table changed |
| `StoreEffects.CallWritesTheRow` | services/queue-service/internal/store/postgres/store.go:1094-1100 | a call leaves its ticket called at the calling counter since the given time or now, and every other row alone |
| `StoreEffects.ActionIsAnswered` | services/queue-service/internal/store/postgres/store.go:1599-1625 | the answer to every first request for an action, from tenant, branch, status and counter of its ticket; any answer but success leaves all tables alone |
| `StoreEffects.ReleaseUndoesHold` | services/queue-service/internal/store/postgres/store.go:830-836 | a held ticket is in no queue, and its release makes all rows what they were before the hold |
| `StoreEffects.OnlyTheCallingCounterStarts` | services/queue-service/internal/store/postgres/store.go:818-820 | a called ticket is started by the counter that called it and refused to any other |
| `StoreEffects.TransferMovesTheQueue` | services/queue-service/internal/store/postgres/store.go:878-895 | a transferred ticket waits at the target service and nowhere else, with the age, class and schedule that it had |
| `StoreEffects.LastEventTellsStatus` | services/queue-service/internal/store/postgres/store.go:1291-1440 | in every run the last event of a ticket's log, by its name, tells the ticket's status |
| `SweepPolicy.BatchIsLongestOverdue` | services/queue-service/internal/store/postgres/store.go:316-327 | a sweep takes only tickets called for its grace and unlocked, the longest called first, all of them while the batch has room |
| `SweepPolicy.SweepTreatsItsBatch` | services/queue-service/internal/store/postgres/store.go:368-404 | each ticket of the batch by the policy of its tenant, branch and service: unchanged within the policy's grace, else back in the queue or ended as the policy says; without a policy by the sweep's grace and the configured flag; all other rows unchanged |
| `SweepPolicy.SweepWithRoom` | services/queue-service/internal/store/postgres/store.go:296-422 | with room for all, a called unlocked ticket loses its call exactly if both the sweep's and its policy's grace are over |
| `SweepPolicy.SweepCountsChanges` | services/queue-service/internal/store/postgres/store.go:406-421 | the sweep's answer is the number of rows that it changed |
| `Announcements.CreationIsAnnounced` | services/queue-service/internal/store/postgres/store.go:1291-1318 | a creation writes one outbox row and one log event of equal kind, payload and time, describing the new row and the request |
| `Announcements.CheckInIsAnnounced` | services/queue-service/internal/store/postgres/store.go:1291-1318 | so does a check-in |
| `Announcements.CallIsAnnounced` | services/queue-service/internal/store/postgres/store.go:1320-1347 | so does a call, with its counter and its time |
| `Announcements.ActionIsAnnounced` | services/queue-service/internal/store/postgres/store.go:1349-1440 | so does every executed action, by the name of its event: stamps and counter of the row it leaves, or where a transfer leads and comes from |
| `Announcements.SweepIsAnnounced` | services/queue-service/internal/store/postgres/store.go:398-404 | each event of a sweep tells the call that ended and whether the ticket is back in the queue |
| `Announcements.OutboxIsInOrder` | services/queue-service/internal/store/postgres/store.go:1291-1440 | in every run with a clock that does not go back, the outbox is in order of its times, each the time of the command that wrote the row |
| `Tickets.GuardIsTheTable` | services/queue-service/internal/store/transitions.go:5-28 | each update's WHERE clause admits exactly the statuses that the transition table lists for its action (start also needs the right counter) |
| `Tickets.FinalIsFinal` | services/queue-service/internal/store/transitions.go:5-28 | no action's guard holds of a done, cancelled or no-show ticket |
| `StoreRuns.StepMoves` | services/queue-service/internal/store/postgres/store.go:296-925 | every command does to every existing ticket exactly the move that its lookup and its guard decide: row and log change by that move, or not at all |
| `StoreRuns.StatusChangesArePermitted` | services/queue-service/internal/store/transitions.go:5-28 | every row change is the command's own move, and the transition table permits the command's action from the old status; the sweep is included |
| `StoreRuns.FinalForever` | services/queue-service/internal/store/postgres/store.go:818-925 | over any run a done, cancelled or no-show row never changes again |
| `StoreRuns.CallsOfATicketAlternate` | services/queue-service/internal/store/postgres/store.go:1291-1440 | in every reachable state two called events of a ticket have a transfer or a returned no-show between them, and the last call stands exactly in the counter statuses |
| `StoreRuns.ReachableShape` | services/queue-service/internal/store/postgres/store.go:383-397 | in every reachable state counter_id is set exactly in called, serving, done and no_show, and completed_at exactly in done |
| `Tickets.MoveKeepsOrder` | services/queue-service/internal/store/postgres/store.go:1573-1597 | the order of a row's stamps survives a move exactly when the move is not stamped before the stamp it follows |
| `StoreTimes.StampsAreActionTimes` | services/queue-service/internal/store/postgres/store.go:1573-1597 | in every run each stamp of a ticket is the time of a creation, call, start or completion executed on that ticket before |
| `StoreTimes.StampsStayOrdered` | services/queue-service/internal/store/postgres/store.go:1094-1100 | in every run whose executed actions on each ticket have non-decreasing times, created <= called <= served <= completed for serving and done rows, whatever a transfer left behind |
| `StoreTimes.CommandsInOrderKeepStamps` | services/queue-service/internal/store/postgres/store.go:1573-1597 | in particular when the commands of the run, executed or not, have non-decreasing times for each ticket |
| `EventLog.PreimageInjective` | services/queue-service/internal/store/ticket_events.go:38-42 | the text joined with bars determines all hashed fields when the fields before the payload hold no bar |
| `EventLog.BarsWouldConfuse` | services/queue-service/internal/store/ticket_events.go:38-42 | with bars allowed there, two different entries share one text |
| `EventLog.AppendVerifies` | services/queue-service/internal/store/postgres/store.go:1446-1477 | appending keeps the chain verifiable: consecutive numbers, linked hashes, recomputed digests |
| `EventLog.LastHashPinsTheLog` | services/queue-service/internal/store/ticket_events.go:38-42 | two verifying logs with the same last hash are equal entry by entry, for a digest without collisions on the compared texts |
| `EventLog.EveryHashPinsItsHistory` | services/queue-service/internal/store/ticket_events.go:38-42 | any stored hash determines the whole history up to it |
| `StoreRuns.StoredLogsAreTamperEvident` | services/queue-service/internal/store/postgres/store.go:1446-1477 | in every reachable state a verifying log that ends in a ticket's stored hash is the stored log |
| `Tickets.RehydrateTicket` | services/queue-service/internal/store/ticket_events.go:44-92 | the loop computes the recursive replay, and fails exactly on an undecodable payload |
| `Tickets.MoveIsFaithful` | services/queue-service/internal/store/postgres/store.go:1291-1440 | the event a move logs keeps replay and row in agreement and the calls of the ticket alternating |
| `Tickets.ReplayMatchesRow` | services/queue-service/internal/store/ticket_events.go:44-92 | field by field when replay and row agree: always on nine fields; on counter and call time exactly when the row still has them or the ticket was never called |
| `StoreRuns.ReachableReplay` | services/queue-service/internal/store/ticket_events.go:44-92 | the same in every reachable state; in the counter statuses replay and row agree on all these fields |
| `Routing.NormalizeWindow` | services/queue-service/internal/store/postgres/store.go:1262-1267 | a positive window is kept, any other becomes 10 |
| `Routing.TargetIsNearest` | services/queue-service/internal/store/postgres/store.go:1269-1274 | for ratios 0..100 the target lies in 0..window and within half a ticket of the exact share |
| `Routing.SelectFirst` | services/queue-service/internal/store/postgres/store.go:1069-1115 | an ordered select finds a first match, and nothing exactly when nothing matches |
| `Routing.NextAppointmentTicket` | services/queue-service/internal/store/postgres/store.go:1053-1067 | the two passes find the first appointment by preferred class and then by schedule |
| `Routing.NextWalkinTicket` | services/queue-service/internal/store/postgres/store.go:1117-1131 | the two passes find the first walk-in by preferred class and then by age |
| `Routing.UpdateNextTicket` | services/queue-service/internal/store/postgres/store.go:1017-1051 | the cascade of up to eight selects refines one order: it finds a candidate of least rank (tier, preferred class, sort columns), and none exactly when nobody waits unlocked |
| `Choice.CallTakesTheChosen` | services/queue-service/internal/store/postgres/store.go:238-261 | on the tables, without ranks: a call can take exactly a ticket of the first kind on offer (boosted, within the quota, walk-in, other appointment), of the wanted class if there is one, first by schedule or age; and nobody exactly if its queue is empty |
| `Choice.BoostedAppointmentIsCalled` | services/queue-service/internal/store/postgres/store.go:256-258 | if an unlocked waiting appointment of the service is scheduled within the boost minutes of the call, such an appointment is called |
| `Choice.NoBoostedTicketNoBoost` | services/queue-service/internal/store/postgres/store.go:256-258 | if there is none, the call can take exactly the tickets that it could take without boost |
| `Choice.RunCallsTheChosen` | services/queue-service/internal/store/postgres/store.go:189-294 | so at every call of every run |
| `Choice.BoostedSeenThroughout` | services/queue-service/internal/store/postgres/store.go:1017-1026 | select by select: a boosted appointment that all selects of a call saw makes it take a boosted one |
| `StoreFairness.RunIsATrace` | services/queue-service/internal/store/postgres/store.go:990-1015 | over any run a service's routing row is the fold of window reset and update over its successful calls, each of which took a least-ranked ticket for the row before it |
| `Fairness.FullStreakCallsRegular` | services/queue-service/internal/store/postgres/store.go:244-261 | at a full streak a waiting regular walk-in forces a regular call |
| `Fairness.StreakCountsSinceRegular` | services/queue-service/internal/store/postgres/store.go:990-1006 | the streak is the number of calls of named irregular classes since the last regular call |
| `Fairness.CountersAfterCall` | services/queue-service/internal/store/postgres/store.go:246-252 | the counters after a call: served within the window in force, afresh when it is full or has shrunk below what was served |
| `Fairness.RegularWithinLimit` | services/queue-service/internal/store/postgres/store.go:990-1015 | any limit + 1 consecutive calls that each see a regular walk-in include a regular call |
| `Fairness.WaitIsBounded` | services/queue-service/internal/store/postgres/store.go:1117-1131 | under ratio and boost 0 a regular walk-in that keeps waiting has waited fewer than (ahead + 1) * (limit + 1) calls |
| `Fairness.CalledWithinBound` | services/queue-service/internal/store/postgres/store.go:1117-1131 | with k older regular walk-ins ahead, which nobody joins, it is called within (k + 1) * (limit + 1) calls |
| `StoreFairness.StoreCallsRegularWithinLimit` | services/queue-service/internal/store/postgres/store.go:189-294 | the streak bound for the successful calls of every run in which tickets are created under named classes |
| `StoreStarvation.UnnamedClassCanStarve` | services/queue-service/internal/store/postgres/store.go:990-1015 | without that guard: for every n a run from the empty store with n calls that each pass a waiting regular walk-in |
| `StoreStarvation.StreakBoundIff` | services/queue-service/internal/store/postgres/store.go:990-1015 | over any set of classes that creations may use: the streak bound holds of all runs from the empty store exactly if the set does not contain both the empty and the regular class |
| `StoreWaiting.QueueGrowsIff` | services/queue-service/internal/store/postgres/store.go:846-925 | the regular walk-ins ahead of a ticket grow by a command exactly if it creates an older one, or unholds, transfers in or returns one; decided from command and tables before it runs |
| `StoreWaiting.UnholdGrowsTheQueue` | services/queue-service/internal/store/postgres/store.go:834-836 | such growth: an older held walk-in is released |
| `StoreWaiting.QueueAheadShrinks` | services/queue-service/internal/store/postgres/store.go:1117-1170 | over a run of commands that put nobody ahead, the queue ahead only shrinks, at each call at least by the called ticket |
| `StoreWaiting.StoreWaitIsBounded` | services/queue-service/internal/store/postgres/store.go:1117-1170 | bounded waiting for runs of the store: no command acts on the ticket or puts anybody ahead, calls find it unlocked and without quota and boost; k is counted in the tables at the start |
| `Fairness.CountersStayInWindow` | services/queue-service/internal/store/postgres/store.go:990-1015 | for any arrivals and policies 0 <= appointment_served <= total_served < the window of the last call |
| `StoreFairness.StoreCountersStayInWindow` | services/queue-service/internal/store/postgres/store.go:990-1015 | the same for the routing rows of every reachable state of the store |
| `Fairness.QuotaBounds` | services/queue-service/internal/store/postgres/store.go:249-255 | from a fresh window m calls take at least the quota while an appointment is always on offer, and at most the quota while a walk-in is |
| `Fairness.ExactQuota` | services/queue-service/internal/store/postgres/store.go:1262-1274 | with both on offer at every call, exactly (m / w) * t + min(m mod w, t) appointments |
| `StoreFairness.StoreExactQuota` | services/queue-service/internal/store/postgres/store.go:249-255 | the exact quota for the calls of a run of the store |
| `Locking.EveryInterleavingKeepsInv` | services/queue-service/internal/store/postgres/store.go:967-1170 | every interleaving of calls, select by select, with bookings, check-ins and the other actions keeps: ticket, appointment and routing locks exclusive, what a call read is still committed, routing rows folded, waiting periods spent once |
| `Locking.NoPeriodGivenTwice` | services/queue-service/internal/store/postgres/store.go:189-294 | under every interleaving a waiting period of a ticket goes to at most one committed call |
| `Locking.EveryCallIsGivenOne` | services/queue-service/internal/store/postgres/store.go:189-294 | and every committed call is given one |
| `Locking.CalledTwiceQueuedBetween` | services/queue-service/internal/store/postgres/store.go:189-294 | in terms of the tables: between two committed calls of a ticket some commit has queued it anew |
| `LockingSerial.EveryRunIsAnInterleaving` | services/queue-service/internal/store/postgres/store.go:47-925 | every run of commands that find nothing locked is an interleaving, statement by statement, that leads to the same tickets, appointments and routing rows |
| `LockingCheckIns.ChosenAppointmentIsLocked` | services/queue-service/internal/store/postgres/store.go:1087-1091 | while a call holds a ticket, no check-in can mark the ticket's appointment |
| `LockingCheckIns.MarkedAppointmentIsSkipped` | services/queue-service/internal/store/postgres/store.go:1087-1091 | while a check-in has marked an appointment, no select sees a ticket of it |
| `Locking.RoutingFoldsCommittedCalls` | services/queue-service/internal/store/postgres/store.go:967-1015 | under every interleaving a routing row is the fold over its service's committed calls in commit order, each obeying the row it locked |
| `Locking.CommittedCallIsACommand` | services/queue-service/internal/store/postgres/store.go:189-294 | under every interleaving a committed call is, at its commit, the store's own call command, with the tickets that not all its selects saw as locked: possible there and leaving the same ticket and routing rows |
| `Selects.PickIsBestOfSeen` | services/queue-service/internal/store/postgres/store.go:1017-1170 | select by select, each on its own snapshot: a call ranks its pick no worse than any ticket that all its selects saw |
| `Selects.CascadeFindsBestIff` | services/queue-service/internal/store/postgres/store.go:1017-1051 | on one snapshot the selects find exactly the tickets of least rank |
| `LockingFairness.InterleavedCallsAreFair` | services/queue-service/internal/store/postgres/store.go:244-261 | the streak bound under every interleaving in which inserted tickets name their class: limit + 1 committed calls in a row, each with a regular walk-in in sight of all its selects, include a regular one, whatever appointments compete |
| `LockingFairness.InterleavedWaitIsBounded` | services/queue-service/internal/store/postgres/store.go:1117-1170 | the waiting bound under every interleaving: while commits leave a regular walk-in alone, put nobody ahead, and calls see it with all their selects under ratio and boost 0, fewer than (k + 1) * (limit + 1) calls of its service commit |
| `LockingCheckIns.FiledTwiceIffLateCommit` | services/queue-service/internal/store/postgres/store.go:738-816 | under every interleaving an appointment has two tickets exactly when a check-in of it was committed whose update had found it checked in already, the status that the update does not ask for |
| `LockingCheckIns.LockKeepsStatus` | services/queue-service/internal/store/postgres/store.go:769-776 | from that update to the commit the row lock keeps the status that the update found |
| `LockingCheckIns.FiledOnceIfGuarded` | services/queue-service/internal/store/postgres/store.go:769-776 | so if no update finds its appointment checked in, which a guard would ensure, no appointment has two tickets |
| `LockingRuns.ConcurrentCheckInsFileTwice` | services/queue-service/internal/store/postgres/store.go:738-816 | without that guard: an interleaving in which two check-ins of one appointment both commit a ticket |
| `LockingRuns.AppointmentIsCalled` | services/queue-service/internal/store/postgres/store.go:1053-1115 | an interleaving in which a booked appointment is checked in, found by the cascade's last selects and called |
| `RecallRace.RecallIsFaithfulIff` | services/queue-service/internal/store/postgres/store.go:1650-1701 | the event of a recall keeps a ticket's replay and row in agreement exactly when the columns it read are still the row's |
| `RecallRace.AgreesThroughoutIff` | services/queue-service/internal/store/postgres/store.go:1446-1477 | recalls running beside the updates: the replay matches the row at every moment of a run exactly when no recall appends an event that is out of date |
| `RecallRace.AgreesIffUndisturbed` | services/queue-service/internal/store/postgres/store.go:1650-1701 | with ever later call times, exactly when no update of the ticket is committed between a recall's read and its append |
| `RecallRace.ReplayStatusIff` | services/queue-service/internal/store/ticket_events.go:44-92 | at any moment the replay shows the row's status unless the last event is that of a recall appended when the ticket was no longer called |
| `RecallRace.LateRecallShowsCalled` | services/queue-service/internal/store/postgres/store.go:1650-1701 | from any called ticket: a run that serves it and ends with a log that shows it called |
| `RecallRace.EveryRunKeepsInv` | services/queue-service/internal/store/postgres/store.go:1446-1477 | late recalls or not, the hash chain verifies and two calls of a ticket have a requeue between them |
| `StoreInvariants.StepKeepsInv` | services/queue-service/internal/store/postgres/store.go:47-1710 | every transaction keeps rows, logs, chains, index, actions, appointments and numbers consistent |
| `StoreInvariants.RunKeepsInv` | services/queue-service/internal/store/postgres/store.go:47-1710 | so does every run |
| `StoreRuns.KnownRequestIsSilent` | services/queue-service/internal/store/postgres/store.go:200-212 | a request with a recorded answer changes no table and gets that answer |
| `StoreRuns.FirstExecutionIsRecorded` | services/queue-service/internal/store/postgres/store.go:1703-1710 | a first execution records its answer exactly if the id was not yet used for another action |
| `StoreRuns.ReplayIsSilentIff` | services/queue-service/internal/store/postgres/store.go:1499-1537 | after a first execution and any run, a replay changes nothing and answers the same if and only if no other action had used the id, or both find nobody to call with the routing row in place |
| `StoreRuns.ReplayIsSilentIffIdUnused` | services/queue-service/internal/store/postgres/store.go:1499-1537 | for first executions that were given a ticket: silent with the same ticket exactly when the id was unused |
| `StoreRuns.ReusedIdRecallsTwice` | services/queue-service/internal/store/postgres/store.go:1650-1710 | a counterexample for reused ids: such a recall executes and logs twice |
| `StoreRuns.FirstExecutionLogsOnce` | services/queue-service/internal/store/postgres/store.go:1291-1440 | a first answer logs one event to the outbox and one of equal kind and payload to the ticket's log; any other outcome logs nothing and moves no ticket |
| `StoreRuns.SweepLogsWhatItCounts` | services/queue-service/internal/store/postgres/store.go:336-420 | the sweep logs as many events as it counts tickets |
| `StoreRuns.ReachableDualLogs` | services/queue-service/internal/store/postgres/store.go:1291-1477 | in every reachable state a ticket's outbox events and its log tell the same story |
| `StoreRuns.ReachableNumbering` | services/queue-service/internal/store/postgres/store.go:1276-1289 | in every reachable state the numbers issued for a branch and service are 1..n in issue order, check-ins included |
| `TicketNumbers.NumberRoundTrip` | services/queue-service/internal/store/postgres/store.go:73-77 | the printed number parses back to service code and sequence number, for any code |
| `StoreRuns.ReachableCheckIn` | services/queue-service/internal/store/postgres/store.go:718-816 | in every reachable state an appointment is checked in exactly when one ticket refers to it, and never do two |
| `Outbox.PageJumpsNothing` | services/realtime-service/internal/store/postgres/store.go:22-50 | a keyset page holds exactly the events between the cursor and its own end |
| `Outbox.PageDrains` | services/realtime-service/internal/store/postgres/store.go:22-50 | a page takes the batch size, or all there is, off what lies ahead of the cursor |
| `Outbox.TimePagingRefinesKeyset` | services/notification-service/internal/store/postgres/store.go:23-51 | without ties, time-only pages and keyset pages are the same pages |
| `Outbox.TimePagingSkipsIffTieIsCut` | services/notification-service/internal/store/postgres/store.go:23-51 | whatever page is returned, time-only paging passes over an event exactly when the batch ends inside a tie: for some event fewer than the limit are earlier and more than the limit are not later |
| `Outbox.TieCutLosesAnEvent` | services/notification-service/internal/store/postgres/store.go:23-51 | such a tie: two events of one instant and a batch of one |
| `OutboxRuns.TieIsPassedOver` | services/notification-service/internal/worker/worker.go:70-91 | a run without failures in which the worker's saved offset passes an event it never handled |
| `OutboxRuns.PassedOverForever` | services/notification-service/internal/worker/worker.go:70-98 | an event so passed over is handled in no continuation of the run |
| `OutboxRuns.RunKeepsInv` | services/realtime-service/cmd/realtime-service/main.go:153-195 | every run of producer, poller, worker, cleaner and restarts keeps the protocol's invariant |
| `OutboxRuns.LifeIsExact` | services/realtime-service/cmd/realtime-service/main.go:153-195 | at any moment of any life of the poller its broadcasts are, in strictly increasing keyset order, exactly the events it had ahead of it, from its start to its cursor |
| `OutboxRuns.OneLifeBroadcastsExactly` | services/realtime-service/cmd/realtime-service/main.go:131-195 | when inserts lie above the page being broadcast: exactly the stored and since inserted events after the starting offset, for any batch sizes, ties included |
| `OutboxRuns.InsertIntoThePageIsMissed` | services/realtime-service/cmd/realtime-service/main.go:160-169 | why the end of the page and not the cursor: a run in which an event inserted between the two is never broadcast |
| `OutboxRuns.EveryReachedEventIsHeard` | services/realtime-service/cmd/realtime-service/main.go:153-195 | over all restarts an event inserted ahead of cursor and saved offset and reached by the cursor has been broadcast; until then it is in the table, ahead of the saved offset |
| `OutboxRuns.EventAheadIsBroadcast` | services/realtime-service/cmd/realtime-service/main.go:153-195 | at least once over all restarts, said of runs: an event inserted above the page being broadcast and the saved offset is broadcast by the time the cursor has passed it, and kept until then |
| `OutboxRuns.HistoryIsBroadcasts` | services/realtime-service/cmd/realtime-service/main.go:160-169 | the histories that these results speak of are the events that the run's steps broadcast |
| `OutboxRuns.CleanupLeavesWhatIsAhead` | services/realtime-service/cmd/realtime-service/main.go:173-191 | after a tick that read the worker's offset and cleaned up, an event of the table is gone exactly if it is earlier than both the cursor's time and that offset |
| `OutboxRuns.CleanupSparesBothReaders` | services/realtime-service/internal/store/postgres/store.go:93-102 | an event that clean-up removes lies behind the poller's cursor and strictly before the worker's saved offset, and was broadcast unless it had been inserted late |
| `OutboxRuns.CursorsOnlyAdvance` | services/realtime-service/cmd/realtime-service/main.go:160-180 | the worker's saved offset never goes back in any run; the poller's cursor never does within a life |
| `OutboxRuns.StartIsBehindIff` | services/realtime-service/cmd/realtime-service/main.go:131-140 | a start leaves the cursor before the saved offset exactly when it fails to load one past the epoch |
| `OutboxRuns.SavedTurnsBackIff` | services/realtime-service/cmd/realtime-service/main.go:131-176 | over all runs: the poller's saved offset goes back exactly when a start fails to load it and the first page that this life saves ends before it |
| `OutboxRuns.SavedOffsetOnlyAdvances` | services/realtime-service/cmd/realtime-service/main.go:131-176 | in particular it never goes back in runs without a failed load at start-up |
| `OutboxRuns.FailedLoadTurnsSavedBack` | services/realtime-service/cmd/realtime-service/main.go:131-140 | a run with such a failed load after which the saved offset has gone back |
| `OutboxRuns.WorkerHandlesExactlyOnce` | services/notification-service/internal/worker/worker.go:70-98 | without failures, ties or inserts behind it, the worker handles exactly the events up to its cursor, each once, in strictly ascending order |
| `OutboxRuns.WorkerHandlesAtLeastOnce` | services/notification-service/internal/worker/worker.go:70-98 | with failures anywhere: all events up to the saved offset are handled, and an event not handled is still in the table |
| `OutboxService.OutboxTables.ListOutboxEvents` | services/realtime-service/internal/store/postgres/store.go:22-50 | the returned rows are a keyset page; a limit that is not positive becomes 100 |
| `OutboxService.OutboxTables.ListEventsSince` | services/notification-service/internal/store/postgres/store.go:23-51 | the returned rows are a time-only page; a limit that is not positive becomes 50 |
| `OutboxService.OutboxTables.CleanupOutbox` | services/realtime-service/internal/store/postgres/store.go:93-102 | exactly the events before the bound go, none for the zero time |
| `OutboxService.Poller.constructor` | services/realtime-service/cmd/realtime-service/main.go:131-140 | start-up: the saved offset, or the epoch with the zero id |
| `OutboxService.Poller.Poll` | services/realtime-service/cmd/realtime-service/main.go:153-195 | one tick sends the page after the offset, moves the offset to its end even if saving fails, cleans up behind both cursors, and is a possible run of the protocol |
| `OutboxService.Worker.Run` | services/notification-service/internal/worker/worker.go:70-91 | one pass handles the page since the saved time and saves its last time, nothing if a statement fails, and is a possible run of the protocol |
| `Notifications.RetryDelayIsIntendedIff` | services/notification-service/internal/worker/worker.go:250-261 | with 64-bit wrap-around the delay is min(5 * 2^(n-1), 300) seconds exactly for n <= 31 and thirteen later attempts |
| `Notifications.LateAttempts` | services/notification-service/internal/worker/worker.go:250-261 | from attempt 56 on the computed delay is zero |
| `DeliveryHistory.DelaysInSeconds` | services/notification-service/internal/worker/worker.go:250-261 | the delays up to attempt 31 in seconds: 5, 10, 20, 40, 80, 160 and then 300 |
| `DeliveryHistory.RowTellsHistory` | services/notification-service/internal/worker/worker.go:215-248 | after any run a notification's row is what its hand-overs make it: their number, the outcome and error of the latest, the time it was sent, or else when to try again |
| `DeliveryHistory.SentIffSucceeded` | services/notification-service/internal/store/postgres/store.go:182-189 | a notification is sent exactly if one of its hand-overs succeeded; that one is the only success and the last hand-over, and the row bears its time |
| `DeliveryHistory.RetriesKeepTheirDelay` | services/notification-service/internal/store/postgres/store.go:152-160 | a retry is listed no earlier than the delay after the hand-over before it |
| `DeliveryHistory.LettersAndAddresses` | services/notification-service/internal/worker/worker.go:219-237 | in every run each dead letter gives the right reason, and a row keeps channel, recipient and message of its post |
| `Delivery.RetryTimesAreIntendedIff` | services/notification-service/internal/worker/worker.go:236-243 | in all runs all retries are set to the intended time exactly when there are at most 32 attempts |
| `Delivery.SendsAndLetters` | services/notification-service/internal/worker/worker.go:215-248 | in every run a notification is sent at most maxAttempts times and has exactly one dead letter iff it failed |
| `Delivery.FinalForever` | services/notification-service/internal/store/postgres/store.go:182-217 | sent and failed notifications never change again and are never sent again |
| `Delivery.RetriesUseUpAttempts` | services/notification-service/internal/worker/worker.go:202-213 | over any run the attempts left drop by at least the number of retries |
| `Delivery.FailingSendsAreBuried` | services/notification-service/internal/worker/worker.go:229-239 | failing retries end in failed after exactly maxAttempts sends, with one dead letter |
| `Mailer.NotificationTables.ListDueNotifications` | services/notification-service/internal/store/postgres/store.go:152-180 | pending notifications due by now, soonest first, up to the limit (50 if not positive) |
| `Mailer.SoonestAreListed` | services/notification-service/internal/store/postgres/store.go:156-163 | a page lists pending notifications whose time has come, soonest first, and leaves out none due before one that it lists |
| `Mailer.PassTakesAllAwaited` | services/notification-service/internal/worker/worker.go:202-213 | a pass with room hands over once each notification whose time has come, and no other |
| `Mailer.Sender.constructor` | services/notification-service/internal/worker/worker.go:43-68 | missing batch size and maximum of attempts become 50 and 3 |
| `Mailer.Sender.DeliverNotification` | services/notification-service/internal/worker/worker.go:215-248 | rows, dead letters and sends after one hand-over, in each of its four outcomes |
| `Mailer.Sender.SendNotification` | services/notification-service/internal/worker/worker.go:160-177 | a new notification is stored as pending and handed over at once |
| `Mailer.Sender.ProcessRetries` | services/notification-service/internal/worker/worker.go:202-213 | a retry pass is a run that hands over each notification of one due page once, in order |
| `RateLimit.AvailableIsLeastRoom` | services/queue-service/internal/httpapi/ratelimit.go:77-95 | the tokens on hand are the minimum over all windows of the burst plus the refill less the admitted |
| `RateLimit.AdmittedIffRoom` | services/queue-service/internal/httpapi/ratelimit.go:77-95 | a request is admitted iff every window that ends with it has room for one more |
| `RateLimit.IntervalBound` | services/queue-service/internal/httpapi/ratelimit.go:77-95 | no interval admits more than burst + refill |
| `RateLimit.ExactLimit` | services/queue-service/internal/httpapi/ratelimit.go:63-95 | the same in seconds and requests: admitted iff for every i <= j the admitted i..j-1 plus one are at most burst + rate * (t_j - t_i); tokens stay in 0..burst |
| `RateLimit.TokenLimiter.constructor` | services/queue-service/internal/httpapi/ratelimit.go:63-75 | 60 per minute and bursts of 20 unless configured |
| `RateLimit.TokenLimiter.Allow` | services/queue-service/internal/httpapi/ratelimit.go:77-95 | the answer is the exact admission of the key's last request; the other keys' buckets do not change |
| `Kiosk.NeverTwoTickets` | services/queue-service/internal/store/postgres/store.go:58-98 | in every run, whatever is lost, late or repeated, no request id has two tickets |
| `Kiosk.KioskExactlyOnce` | apps/kiosk-app/app.js:249-271 | if nothing is buffered while a synchronisation runs, each issued payload awaits its first answer, is buffered, or has exactly one ticket; overlapping synchronisations included |
| `Kiosk.WriteLosesNothingIff` | apps/kiosk-app/app.js:269-270 | a write-back loses nothing exactly when everything buffered since its read is to be written back or has its ticket |
| `Kiosk.OtherStepsLoseNothing` | apps/kiosk-app/app.js:171-247 | nothing but a write-back can lose a payload |
| `Kiosk.BufferedDuringSyncIsLost` | apps/kiosk-app/app.js:242-271 | a run in which a payload buffered during a synchronisation vanishes |
| `KioskApp.UnansweredInOrder` | apps/kiosk-app/app.js:249-271 | the kept payloads stand in the order in which they were stored |
| `KioskApp.KioskDevice.IssueTicket` | apps/kiosk-app/app.js:171-209 | an answered post shows the server's ticket, otherwise a local one is shown and the payload buffered; a possible run of the protocol |
| `KioskApp.KioskDevice.SyncOfflineTickets` | apps/kiosk-app/app.js:249-271 | the buffer keeps, in order, exactly the unacknowledged payloads (none after a fully acknowledged synchronisation), the acknowledged ones have tickets; a possible run of the protocol |

## Left out

- StoreRuns.ReplayIsSilentIff: whole transactions are the steps, so two concurrent first executions of one request id inside CallNext are not covered; the source does not repeat its lookup behind the routing lock.
- StoreRuns.ReachableCheckIn: whole transactions are the steps; for interleaved check-ins see LockingCheckIns.FiledTwiceIffLateCommit.
- StoreRuns.ReachableReplay: whole transactions are the steps; for a recall that reads before another transaction commits and appends after it see RecallRace.AgreesThroughoutIff, for one ticket at a time.
- Locking.EveryInterleavingKeepsInv: a transaction is its statements on tickets, appointments and routing rows, without request ids, sequences and logs; a select with FOR UPDATE SKIP LOCKED, with the update that follows it, is one statement on one snapshot.
- Routing.TargetIsNearest: the target count is computed exactly instead of in 64-bit floating point.
- RateLimit.ExactLimit: tokens and times are real numbers instead of 64-bit floating point; the mutex makes each request one step.
- EventLog.LastHashPinsTheLog: the digest is any function without collisions on the compared texts; a stored payload and timestamp are exactly what was hashed, so the database's normalisation of JSON and its microsecond clock are not modelled.
- Delivery.SendsAndLetters: runs are free of crashes and store errors; after a crash between insert and delivery a notification stays pending without a due time and is not retried.
- OutboxRuns.EveryReachedEventIsHeard: one poller process at a time; broadcasting means handing to the hub, whose delivery to browsers is lossy.
- Store.TicketStore.CallNext: the counter's status text, the count of its services and the service policy arrive as inputs of the command.
- Store.TicketStore.AutoNoShow: one clock reading serves the whole batch.
- Kiosk.KioskExactlyOnce: localStorage is not lost or edited by others, and check-in requests are not buffered.
- Error returns of the database abort the transaction without effect; the model has no half-open transaction left behind by an error that the deferred rollback does not see.
- The columns area, channel and phone hash, which nothing in the core reads back.
- Sequence numbers are unbounded instead of 64-bit.
- SHA-256, UUID generation, JSON and RFC 3339 formatting: abstract functions and fresh inputs.
- HTTP handlers, sessions and roles, logging, telemetry and configuration files.
- Templates, channel preferences, queue-position reminders and providers: a send is an arbitrary success or failure.
- The overlap flag of the poll loop, which a single goroutine never finds set.
- Admin tables, approvals, device configuration, analytics, single sign-on, the hub and the other browser apps.
- The other services' rate limiters, which repeat this one.
