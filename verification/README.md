# Drova: dispatch, trips, messaging and fares

Drova is a ride-hailing backend of Go services that talk over Kafka and keep their state in PostgreSQL and Redis.
This project models its protocols and algorithms in Dafny and proves what they keep over every run:

- **Outbox and relays** (`Outbox`, `OutboxOnce`, `OutboxProgress`, `OutboxRelay`, `TripOutbox`): the trip service
  commits a trip and its message together; any number of relays drain the outbox, and each of their calls can fail or
  be the last one before a crash.
- **Trip lifecycle** (`TripLifecycle`, `TripHistory`, `TripRepository`): conditional UPDATEs form a state machine that
  is raced by accepts, the search timeout, the stale sweep and cancels.
- **Driver store** (`DriverStore`, `DriverPlaces`, `DriverService`): hashes, geo sets and heartbeats in Redis, the
  busy marker, and the expanding-ring search for the nearest available driver.
- **Driver dispatch** (`Dispatch`, `DispatchTimers`, `DispatchQueue`, `DispatchExclusion`, `DispatchDeclineBound`,
  `DispatchDeclineTight`, `DispatchDecline`, `DispatchDuplicate`, `DispatchConservation`, `DispatchOrigin`,
  `TripConsumer`): a trip is offered to one driver under a timer, then accepted, declined, timed out, cancelled,
  extended on reconnect, or queued; the service may restart at any time.
- **Kafka consumers** (`ConsumeLoop`, `ConsumeOutcomes`, `RetryOffsets`, `RetryOutcomes`, `RetryLadder`,
  `RetryClimb`, `RetryBounds`, `RetryPlaces`, `RetryConsumer`): cumulative commits, three delayed retry topics shared by all
  services, and the dead-letter queue.
- **Algorithms** (`RateLimiter`, `RouteSampling`, `Fares`): the sliding-window script, route down-sampling, quotes,
  the billed amount of a shortened trip, and the split of a payment.

`Common` holds what several modules share.

## How to read it

A protocol is a `State`, an `Action` for each atomic step, a total function `Apply` in which a step that is not enabled
changes nothing, and `Run` for a whole sequence of actions. Nondeterminism (call outcomes, what a search picked, which
timer fires) is in the actions, so a lemma over all `acts` speaks about every interleaving of these steps and every
failure that is one of them. The handlers are also classes with the source's mutable fields: each method is proved to
change the fields as the step function says, and each loop as a run of such steps, so the theorems about runs apply to the
code-shaped methods. Some state fields only remember the past (`order`, `created`, `trail`, `origin`, `seen`, `timedOut`,
`calls`, `failed`, `gaps`, `runs`); no step decides by them, except that `created` keeps new outbox ids fresh.

Where a promise does not hold of the code, the code is kept and the exact condition is proved:

- A lost acknowledgement, or a relay transaction that is given up after it has published something, leaves an extra copy
  of a row in the log, and nothing else does: `OutboxOnce.OneCopyStep`, `OutboxOnce.CopiesAreCounted`.
- A completed event clears the busy marker without looking at the offers: `Dispatch.OffersHeldStep`.
- Separate find and mark can pick one driver twice: `Dispatch.HeldOffer`.
- A reconnect frees a driver that has already accepted: `Dispatch.ReconnectKeepsOnlyOffers`.
- The reconnect timer ends with the call that started it, so the offer loses its timer exactly when the reconnecting
  driver had one open: `DispatchTimers.ReconnectKeepsTimersIff`.
- Registering under another package leaves the driver in the geo set of the old one: `DriverStore.RegisteredUnderIff`.
- A restart loses the trips on offer and leaves their drivers marked, and other ends lose a trip as well:
  `DispatchConservation.TripLostIffEnded`, `Dispatch.MarkedUntilFreed`.
- A decline resets the exclusion list; the bound on timeouts then grows with the declines, exactly by n - 2 for each:
  `DispatchExclusion.DeclineForgetsTimeouts`, `DispatchDeclineBound.TimeoutsBoundedByDeclines`,
  `DispatchDeclineTight.DeclineBoundIsReached`.
- A failed no-drivers-found publish puts a trip in two places: `DispatchDuplicate.FailedNoticeDuplicates`.
- Payment is requested whatever the status: `TripLifecycle.BilledTripIsCompletedIff`, `TripLifecycle.BilledNeverCompletedIff`.
- In the retry loop the log line says that the commit is skipped, but the next commit is cumulative and takes the record
  along: `RetryOffsets.LostIffCommittedOver`.
- A comment at shared/messaging/kafka.go:312-314 says that a failed retry publish is never due to the message itself; the
  envelope embeds the raw payload as JSON, so a payload that is not JSON cannot be wrapped and is dropped:
  `ConsumeLoop.InvalidPayloadNotRetried`.
- Requests that draw equal sorted-set members evade the rate limit: `RateLimiter.LimitKeptIffNeverOverfilled`.

## Model

| member | source | states |
|---|---|---|
| `Outbox.CreatedMessageNeverLost` | services/trip-service/internal/infrastructure/events/outbox_relay.go:54-101 | for every interleaving of any number of relays with publish, mark, commit and crash failures: the created-message of a committed trip is an unpublished outbox row, or a broker record with the same topic and payload |
| `Outbox.NoRowLockedTwice` | services/trip-service/internal/infrastructure/events/outbox_relay.go:62-65 | in every reachable state two open relay transactions never hold the same row |
| `Outbox.InvRun` | services/trip-service/internal/infrastructure/events/outbox_relay.go:54-101 | the inductive invariant behind both: rows and log agree with what was committed, locks are disjoint, every locked row is unpublished, and each transaction marks exactly the published prefix of its batch |
| `Outbox.InvStep` | services/trip-service/internal/infrastructure/events/outbox_relay.go:54-101 | each single call of a relay, each insert and each cleanup keeps the invariant |
| `OutboxOnce.CopiesAreCounted` | services/trip-service/internal/infrastructure/events/outbox_relay.go:54-101 | in every run, with any relays, failures and crashes, the broker holds one copy of a row for each time a step stranded it, plus one if the row is settled or in flight |
| `OutboxOnce.ExactlyOnceIffNothingStranded` | services/trip-service/internal/infrastructure/events/outbox_relay.go:54-101 | every row is in the log exactly once when settled or in flight, and otherwise not at all, if and only if no step of the run was a lost acknowledgement, a failed mark, or a failed commit or crash of a transaction that had published something |
| `OutboxOnce.OneCopyStep` | services/trip-service/internal/infrastructure/events/outbox_relay.go:87-100 | the same for one step of any kind |
| `OutboxOnce.CopiesStep` | services/trip-service/internal/infrastructure/events/outbox_relay.go:87-100 | a step adds an extra copy of a row exactly if it strands that row |
| `OutboxOnce.StrandsSomeRow` | services/trip-service/internal/infrastructure/events/outbox_relay.go:87-100 | the condition a relay can see, on its own transaction and the outcome of its call, holds exactly if some row is stranded |
| `OutboxOnce.ExactlyOnce` | services/trip-service/internal/infrastructure/events/outbox_relay.go:54-101 | so without such a step every row is published at most once and every settled row exactly once; failed publishes, and crashes and failed commits of transactions that had published nothing, are harmless |
| `OutboxOnce.SettledOnceIffNeverStranded` | services/trip-service/internal/infrastructure/events/outbox_relay.go:54-101 | a settled row is in the log once plus as often as it was stranded |
| `OutboxOnce.CrashRepublishes` | services/trip-service/internal/infrastructure/events/outbox_relay.go:87-100 | a concrete run that publishes a row twice: publish, crash, publish again |
| `Outbox.LogIsPrefixOfOutbox` | services/trip-service/internal/infrastructure/events/outbox_relay.go:62-100 | with one relay and ids committed in order, the log without repeats is at every moment a prefix of the outbox in id order, whatever failed before |
| `Outbox.InOrderRun` | services/trip-service/internal/infrastructure/events/outbox_relay.go:62-100 | the two counters behind it: the settled rows are the first m, the broker has seen the first k of them, and m <= k |
| `Outbox.SelectionIsInterval` | services/trip-service/internal/infrastructure/events/outbox_relay.go:62-65 | the SKIP LOCKED query without other transactions reads the next consecutive unpublished rows |
| `Outbox.ChoiceIsPrefix` | services/trip-service/internal/infrastructure/events/outbox_relay.go:62-65 | an ascending choice that skips only larger ids is a prefix of the candidates |
| `Outbox.FirstOccurrencesExtend` | services/trip-service/internal/infrastructure/events/outbox_relay.go:87-91 | publishing the row at position p after the first k were seen leaves the first max(k, p + 1) as the log without repeats |
| `OutboxProgress.TicksDrain` | services/trip-service/internal/infrastructure/events/outbox_relay.go:54-101 | from any state without an open transaction, k undisturbed ticks take 100 k rows off the unpublished ones, or all of them |
| `OutboxProgress.AllDelivered` | services/trip-service/internal/infrastructure/events/outbox_relay.go:54-101 | the same from any state with the invariant, for every row ever committed, by steps of the relays alone |
| `OutboxProgress.EveryTripIsAnnounced` | services/trip-service/internal/infrastructure/events/outbox_relay.go:54-101 | no reachable state is stuck: even if every relay crashes where it is, some further ticks deliver the created-message of every trip |
| `OutboxProgress.TickPublishes` | services/trip-service/internal/infrastructure/events/outbox_relay.go:54-101 | one undisturbed tick appends its selection to the log in id order and marks exactly these rows published |
| `OutboxProgress.SelectionSize` | services/trip-service/internal/infrastructure/events/outbox_relay.go:62-65 | the selection is all unpublished rows, or the hundred lowest ids among them |
| `OutboxProgress.CreatedIsBacklog` | services/trip-service/internal/infrastructure/repository/postgres.go:40-75 | a committed trip adds exactly one unpublished row with its message; a trip that exists adds nothing |
| `OutboxProgress.CleanupIsExact` | services/trip-service/internal/infrastructure/events/outbox_relay.go:44-46 | the delete removes exactly the expired published rows |
| `OutboxRelay.Backend.CreateTripWithOutbox` | services/trip-service/internal/infrastructure/repository/postgres.go:40-75 | trip row and outbox row appear together, or nothing changes; false for a duplicate id or any failing statement |
| `OutboxRelay.Backend.SelectUnlocked` | services/trip-service/internal/infrastructure/events/outbox_relay.go:62-65 | returns the lowest unlocked unpublished ids, ascending, at most 100 |
| `OutboxRelay.Backend.BeginRelay` | services/trip-service/internal/infrastructure/events/outbox_relay.go:55-84 | locks the selection and reads a prefix of it |
| `OutboxRelay.Backend.PublishMessage` | services/trip-service/internal/infrastructure/events/outbox_relay.go:87-91 | the current entry reaches the log unless the publish failed outright; an error ends the loop |
| `OutboxRelay.Backend.MarkPublished` | services/trip-service/internal/infrastructure/events/outbox_relay.go:92-95 | the row joins the marked rows, or the transaction is aborted |
| `OutboxRelay.Backend.CommitRelay` | services/trip-service/internal/infrastructure/events/outbox_relay.go:98-100 | exactly the marked rows become published, or nothing does; the locks are gone |
| `OutboxRelay.Backend.CleanupOld` | services/trip-service/internal/infrastructure/events/outbox_relay.go:44-46 | exactly the expired published rows disappear |
| `OutboxRelay.Backend.ServeOne` | services/trip-service/internal/infrastructure/events/outbox_relay.go:87-96 | one round as a run of its one or two actions: published and marked, or the loop stops |
| `OutboxRelay.Backend.ServeNext` | services/trip-service/internal/infrastructure/events/outbox_relay.go:87-96 | the body of the loop keeps its progress: the served prefix, what was appended, and the run so far |
| `OutboxRelay.Backend.ServeBatch` | services/trip-service/internal/infrastructure/events/outbox_relay.go:87-96 | the loop is a run of publish and mark actions; it serves the longest prefix of the batch whose calls succeed, appends one entry more only if that publish took effect, and touches no other transaction |
| `OutboxRelay.Backend.Drain` | services/trip-service/internal/infrastructure/events/outbox_relay.go:54-101 | one tick is a run of outbox actions, so the theorems about runs cover it; the new log, the new rows and the absence of leftover locks as functions of the query result and the call outcomes |
| `TripOutbox.TripMessagesArrive` | services/trip-service/internal/infrastructure/repository/postgres.go:40-75 | the trip service and its relays together: the created-message of every trip, and both messages of every trip that its search timeout cancelled, wait in the outbox or have reached the broker; for any other trip no such pair was ever written |
| `TripOutbox.EveryMessageArrives` | services/trip-service/internal/infrastructure/events/outbox_relay.go:54-101 | from every reachable state of trip service and relays, whatever has failed or crashed so far, some further steps of the relays alone bring every committed message to the broker |
| `TripOutbox.CommittedMessageArrives` | services/trip-service/internal/infrastructure/events/outbox_relay.go:54-101 | whatever calls, relays, failures and crashes occur, every message the trip service committed waits in the outbox or has reached the broker |
| `TripOutbox.LinkedRun` | services/trip-service/internal/infrastructure/repository/postgres.go:241-265 | the rows of the outbox are written with the messages of the trip transactions, one for one and in order |
| `TripOutbox.ServiceIsItsOwnRun` | services/trip-service/internal/infrastructure/repository/postgres.go:40-75 | seen from the trips, the relays are not there |
| `TripLifecycle.HistoryIsLegal` | services/trip-service/internal/infrastructure/repository/postgres.go:161-231 | under any order and repetition of handler calls and failures, the status history is a prefix of searching, accepted, driver_arrived, in_progress, completed, paid, or one of its first three non-empty prefixes followed by cancelled; completed_at is set iff the status is completed or paid; a driver implies accepted in the history; a rating is in 1..5 and only in those two states |
| `TripLifecycle.HistoryRun` | services/trip-service/internal/infrastructure/repository/postgres.go:161-213 | the inductive form: the history is legal, empty iff there is no row, and ends in the present status |
| `TripLifecycle.StepOnRow` | services/trip-service/internal/infrastructure/repository/postgres.go:170-276 | what any one call may do to one row: at most one arrow of the diagram; driver and completion time are written only on their own arrow; it keeps the column invariants |
| `TripLifecycle.UpdateTripIff` | services/trip-service/internal/infrastructure/repository/postgres.go:161-213 | an update succeeds if and only if the call works and the pair of statuses is one of the eight arrows, written out; it then writes the status, the time of a completion or cancellation, or the driver, and nothing else |
| `TripHistory.HistoriesAreExact` | services/trip-service/internal/infrastructure/repository/postgres.go:161-231 | the status histories of a trip over all runs are exactly the prefixes of searching, accepted, driver_arrived, in_progress, completed, paid and the first three non-empty ones followed by cancelled: nothing else happens, and each of these does |
| `TripHistory.StatusMovesIff` | services/trip-service/internal/infrastructure/repository/postgres.go:161-276 | which call moves a trip to which status, from which one and under which condition, in both directions |
| `TripHistory.ColumnsAreHistory` | services/trip-service/internal/infrastructure/repository/postgres.go:170-231 | over all runs: rider and creation time, driver, completion time, and cancellation time of a row hold a value exactly if the call that writes it happened; no failed, refused or repeated call leaves a trace |
| `TripHistory.RatingIsLast` | services/trip-service/internal/infrastructure/repository/postgres.go:361-375 | the stored rating is the last one from 1 to 5 given by the rider of the trip after its completion |
| `TripLifecycle.SoundRun` | services/trip-service/internal/infrastructure/repository/postgres.go:161-276 | the column invariants of every row in every reachable state |
| `TripLifecycle.WrittenOnce` | services/trip-service/internal/infrastructure/repository/postgres.go:185-205 | driver columns and completed_at, once set, are the same in every later state of the run |
| `TripLifecycle.DriverOnlyAfterAccept` | services/trip-service/internal/infrastructure/events/driver_consumer.go:69-83 | a stored driver implies that the trip was accepted at some time |
| `TripLifecycle.ContenderWins` | services/trip-service/internal/infrastructure/repository/postgres.go:217-276 | a searching trip leaves searching exactly when the call is an accept, a timeout, a sweep past its age, or a cancel whose statement succeeds |
| `TripLifecycle.ExactlyOneWinner` | services/trip-service/internal/infrastructure/repository/postgres.go:170-276 | as soon as one contender has run, exactly one call of the whole run has taken the trip out of searching |
| `TripLifecycle.ExitsRun` | services/trip-service/internal/infrastructure/repository/postgres.go:170-276 | the number of exits from searching is 1 if the trip has another status, else 0 |
| `TripLifecycle.OneAnnouncementPerTrip` | services/trip-service/internal/infrastructure/events/driver_consumer.go:69-101 | at most one driver_assigned message per trip is ever published and it names the driver stored in the row |
| `TripLifecycle.AnnouncedStep` | services/trip-service/internal/infrastructure/events/driver_consumer.go:77-100 | the inductive step, for every kind of call |
| `TripLifecycle.TimeoutPairIffTimeoutWon` | services/trip-service/internal/infrastructure/grpc/grpc_handler.go:52-74 | the no-drivers and cancelled messages of a trip are in the outbox exactly as often as its search timeout won, which is at most once; then the trip is cancelled without a driver; the created-message is there exactly once per trip |
| `TripLifecycle.OutboxRun` | services/trip-service/internal/infrastructure/repository/postgres.go:241-265 | the inductive form, with the number of timeout wins bounded by the exits from searching |
| `TripLifecycle.OutboxStep` | services/trip-service/internal/infrastructure/repository/postgres.go:241-265 | what one call does to the three message counts of a trip |
| `TripLifecycle.AnnouncedIffWinnerPublished` | services/trip-service/internal/infrastructure/events/driver_consumer.go:77-100 | a trip has exactly one announcement if the publish of the accept that won it took effect, and none otherwise: a redelivered accept repairs nothing |
| `TripLifecycle.PaymentRequestedRegardlessOfStatus` | services/trip-service/internal/infrastructure/events/driver_consumer.go:160-215 | a step adds a payment request for a trip iff it is a completed event of that trip, the trip can be read and has a fare, and the publish takes effect; the status plays no part |
| `TripLifecycle.BilledTripIsCompletedIff` | services/trip-service/internal/infrastructure/events/driver_consumer.go:160-167 | the trip that is billed is completed or paid exactly if it was before, or its row was in progress and the UPDATE of this event worked |
| `TripLifecycle.BilledNeverCompletedIff` | services/trip-service/internal/infrastructure/events/driver_consumer.go:160-215 | over whole runs: a trip is billed without being completed exactly if some completed event got as far as the request and none found the trip in progress with a working UPDATE |
| `TripLifecycle.PaymentOfCancelledTrip` | services/trip-service/internal/infrastructure/events/driver_consumer.go:160-162 | a concrete run in which payment is requested for a cancelled trip |
| `TripRepository.Repository.CreateTripWithOutbox` | services/trip-service/internal/infrastructure/repository/postgres.go:40-75 | new searching row plus created-message, or no change |
| `TripRepository.Repository.UpdateTrip` | services/trip-service/internal/infrastructure/repository/postgres.go:170-213 | the conditional UPDATE: succeeds exactly along an arrow of the diagram; otherwise error for an unknown status, a failed call or no affected row |
| `TripRepository.Repository.CancelTrip` | services/trip-service/internal/infrastructure/repository/postgres.go:215-231 | cancels from searching, accepted and driver_arrived only, and reports whether it did |
| `TripRepository.Repository.ExpireSearch` | services/trip-service/internal/infrastructure/repository/postgres.go:233-239 | cancels a searching trip only and reports whether it did |
| `TripRepository.Repository.ExpireSearchWithOutbox` | services/trip-service/internal/infrastructure/repository/postgres.go:241-265 | row and all messages commit together, or nothing does, wherever the transaction fails |
| `TripRepository.Repository.ExpireStaleSearching` | services/trip-service/internal/infrastructure/repository/postgres.go:267-276 | cancels exactly the searching rows older than the limit and counts them |
| `TripRepository.Repository.RateTrip` | services/trip-service/internal/infrastructure/repository/postgres.go:361-375 | rates only 1..5, only completed or paid trips of the same user |
| `TripRepository.Repository.HandleTripAccepted` | services/trip-service/internal/infrastructure/events/driver_consumer.go:69-101 | announces only after its own UPDATE succeeded; reports success exactly if the announcement was acknowledged |
| `TripRepository.Repository.HandleTripCompleted` | services/trip-service/internal/infrastructure/events/driver_consumer.go:150-215 | ignores a refused transition and requests payment; reports success exactly if the trip can be read and the request, if there is a fare, was acknowledged |
| `TripRepository.Repository.HandleStatusUpdate` | services/trip-service/internal/infrastructure/events/driver_consumer.go:231-245 | succeeds exactly along the arrow into the new status |
| `TripRepository.Repository.RunSearchTimeout` | services/trip-service/internal/infrastructure/grpc/grpc_handler.go:52-74 | reports a cancellation exactly when the timeout won |
| `DriverStore.HeadIsClosestEligible` | services/driver-service/internal/service/service.go:91-163 | a non-empty result starts with a closest eligible driver of the whole package, whatever the ring radii, the cap of 100 and the reaping; all results are eligible and distinct |
| `DriverStore.EmptyMeansNoneNear` | services/driver-service/internal/service/service.go:96-163 | an empty result although an eligible driver is within 1500 km means that 100 ineligible entries are at least as near |
| `DriverStore.SmallestRingDecides` | services/driver-service/internal/service/service.go:21-30 | the smallest of the rings of 5, 25, 100, 500 and 1500 km that shows an available driver decides: one within a ring that is not hidden behind a hundred others confines all results to that ring |
| `DriverStore.EmptyRingHides` | services/driver-service/internal/service/service.go:97-155 | a ring without a result shows that every available driver in it has a hundred entries as near that are not available |
| `DriverStore.CandidatesInOrder` | services/driver-service/internal/service/service.go:118-155 | the filtered ring holds exactly the eligible entries, in ascending distance, without repetition |
| `DriverStore.ReapedKeepsEligible` | services/driver-service/internal/service/service.go:134-141 | reaping changes nobody's eligibility or busy marker and drops no eligible driver from the geo set |
| `DriverStore.BusyStep` | services/driver-service/internal/service/service.go:218-242 | the marker of a busy driver changes exactly on a clear that names its trip or a new mark |
| `DriverStore.FreeStep` | services/driver-service/internal/service/service.go:218-233 | a free driver becomes busy only by being marked |
| `DriverStore.AvailabilityAfter` | services/driver-service/internal/service/service.go:35-89 | after registering a driver is available exactly if it is free, after going offline or losing its heartbeat never, and nobody else is affected |
| `DriverStore.BusySurvives` | services/driver-service/internal/service/service.go:63-83 | the marker survives every sequence of registrations, moves, offline, heartbeat expiry, reaping searches, and clears for other trips |
| `DriverStore.RegisteredUnderIff` | services/driver-service/internal/service/service.go:71-77 | registering adds an entry and removes none: afterwards the driver can be found under a package exactly if it is free, not excluded, and the package is the new one or already listed it; it is listed under the new package alone if and only if no other listed it before |
| `DriverStore.OldPackageStillOffers` | services/driver-service/internal/service/service.go:71-163 | so a free driver that registers under another package still heads a search of the old one if it is nearest there, with the new package in its hash |
| `DriverStore.NearestIsFoundFirst` | services/driver-service/internal/service/service.go:91-163 | an eligible driver within 1500 km that is nearer than every other entry of its package is the first result |
| `DriverStore.EntryStep` | services/driver-service/internal/service/service.go:268-277 | an entry of a geo set goes away only when the driver goes offline while registered under that package, or when a search of that package meets it without a heartbeat |
| `DriverStore.OfflineKeepsOldEntry` | services/driver-service/internal/service/service.go:71-77 | going offline and coming back does not remove the entry under the old package |
| `DriverPlaces.RegisteredAt` | services/driver-service/internal/service/service.go:45-79 | a registration stores the driver under its package at the position it sends, or at the demo location if a coordinate is zero; no other entry changes |
| `DriverPlaces.RegisteredAs` | services/driver-service/internal/service/service.go:56-82 | its hash then holds its name, or Driver for an empty one, its package, and its marker as it was; its heartbeat starts; no other driver changes |
| `DriverPlaces.RegisteredIsFoundThere` | services/driver-service/internal/service/service.go:35-163 | a free driver that registers within 1500 km and nearer than every other entry of its package heads the next search |
| `DriverPlaces.MovedTo` | services/driver-service/internal/service/service.go:244-258 | a move of a registered driver stores its new position under its own package and renews the heartbeat; one without a position or by an unknown driver changes nothing |
| `DriverPlaces.MovedIsFoundThere` | services/driver-service/internal/service/service.go:91-258 | a free driver that moves nearer than every other entry of its package heads the next search |
| `DriverPlaces.FartherIsNotFirst` | services/driver-service/internal/service/service.go:91-163 | a driver with an available one strictly nearer is not the first result |
| `DriverPlaces.LeftAs` | services/driver-service/internal/service/service.go:268-277 | going offline takes the driver out of its own package only, ends its heartbeat, and drops the hash exactly if it is free |
| `DriverPlaces.MarkedAs` | services/driver-service/internal/service/service.go:218-242 | marking and clearing write the marker of one driver and nothing else; a clear for another trip writes nothing |
| `DriverPlaces.FoundIsAvailable` | services/driver-service/internal/service/service.go:121-147 | every result has a stored name, a heartbeat and no trip, and is not excluded |
| `DriverPlaces.NoDeadDriverLeft` | services/driver-service/internal/service/service.go:134-141 | after a search no registered driver without a heartbeat is left among those it scanned, except excluded ones |
| `DriverService.Service.RegisterDriver` | services/driver-service/internal/service/service.go:35-89 | sets name, slug, position and heartbeat; creates the busy field only if it is missing |
| `DriverService.Service.UpdateLocation` | services/driver-service/internal/service/service.go:244-258 | ignores a zero coordinate and an unknown driver |
| `DriverService.Service.SetBusy` | services/driver-service/internal/service/service.go:218-222 | marks the driver with the trip |
| `DriverService.Service.ClearBusy` | services/driver-service/internal/service/service.go:224-242 | frees the driver only if the marker names this trip |
| `DriverService.Service.GoOffline` | services/driver-service/internal/service/service.go:268-277 | leaves the geo set and drops the heartbeat; the hash goes only if the driver is free |
| `DriverService.Service.GeoSearch` | services/driver-service/internal/service/service.go:97-111 | the nearest entries within the radius, ascending, at most 100 |
| `DriverService.Service.ScanRing` | services/driver-service/internal/service/service.go:118-155 | returns the available part of the ring as judged before the scan, and takes exactly the dead registered drivers of the ring, that are not excluded, out of the store |
| `DriverService.Service.FindAvailableDrivers` | services/driver-service/internal/service/service.go:91-163 | the nested loop stops at the first ring with an available driver and returns that ring's available drivers; its effect on the store is exactly the removal of the dead among those it scanned |
| `DriverService.SameCandidates` | services/driver-service/internal/service/service.go:118-155 | reaping in earlier rings does not change who is eligible in later ones |
| `Dispatch.NoDriverHoldsTwoOffers` | services/driver-service/internal/events/consumer.go:105-346 | in every reachable state an outstanding offer marks its driver busy with that trip, so no driver holds two offers, provided no completed event names the driver of an outstanding offer |
| `Dispatch.OffersHeldStep` | services/driver-service/internal/events/consumer.go:105-346 | for every kind of step: it keeps that property if and only if it is not such a completion |
| `Dispatch.OffersHeldRun` | services/driver-service/internal/events/consumer.go:105-346 | the property over whole runs |
| `Dispatch.HeldComplete` | services/driver-service/internal/events/consumer.go:285-302 | the completed handler, which does not look at the offers, keeps it iff the event does not name the driver of an outstanding offer |
| `Dispatch.HeldOffer` | services/driver-service/internal/events/consumer.go:125-140 | offering a trip to a driver keeps it iff no other trip is offered to that driver |
| `DispatchOrigin.SearchEffect` | services/driver-service/internal/events/consumer.go:112-142 | whether a search leaves an offer of its own event to the driver found, a queue entry, or its own message in flight again, as what was found and the publish outcome decide; no other offer, timer, queue entry, message or marker changes |
| `DispatchOrigin.FailedSearchComesBack` | services/driver-service/internal/events/consumer.go:125-138 | a search whose publish failed leaves exactly its own event as the newest message in flight, and no offer |
| `DispatchOrigin.SamePackageAndPickup` | services/driver-service/internal/events/consumer.go:112-346 | over whole runs with declines, failures, timeouts, reconnects, queue passes and restarts: if the searches of a trip that consume no message all ask for one package and pickup, so does every event of that trip in flight, waiting, on offer and under a timer |
| `DispatchOrigin.EventIsItsHistory` | services/driver-service/internal/events/consumer.go:112-346 | in runs without declines and duplicates every event of a trip is its first search, with exactly the drivers that let an offer of it time out on the list, in the order they were asked |
| `DispatchOrigin.OkStep` | services/driver-service/internal/events/consumer.go:112-346 | no step makes up an event: only a search that consumes no message and a timeout bring a new one |
| `Dispatch.OverlappingSearchesBreakIt` | services/driver-service/internal/events/consumer.go:125-139 | two searches that pick the same driver before either marks it break it at the second mark |
| `Dispatch.HeldReconnect` | services/driver-service/internal/grpc/handler.go:30-66 | a reconnect keeps it, whether the timer is extended or a stale marker cleared |
| `Dispatch.ReconnectKeepsOnlyOffers` | services/driver-service/internal/grpc/handler.go:36-44 | after a reconnect the driver is marked exactly with its outstanding offer, and free otherwise |
| `Dispatch.AcceptedThenReconnected` | services/driver-service/internal/grpc/handler.go:38-43 | so a driver that accepted and then reconnects is free in the middle of its trip |
| `Dispatch.RestartStrandsMarkers` | services/driver-service/internal/events/consumer.go:174-183 | a restart of the service keeps every busy marker, the queue and the messages in flight, and leaves no offer behind any marker |
| `Dispatch.MarkedUntilFreed` | services/driver-service/internal/events/consumer.go:204-302 | a driver marked without an offer is freed by a step if and only if it is its reconnect, its decline, a completed event of that trip for it, or a cancel of that trip, not on offer, that names it |
| `Dispatch.MarkedThroughout` | services/driver-service/internal/events/consumer.go:204-302 | over whole runs such a marker stays until the first of those steps |
| `Dispatch.KeyedStep` | services/driver-service/internal/events/consumer.go:54-94 | offers, waiting events, timers and messages stay under their own trip id, and every waiting trip is in the set of its package |
| `Dispatch.KeyedRun` | services/driver-service/internal/events/consumer.go:54-94 | the same over whole runs |
| `DispatchTimers.OneToOneStep` | services/driver-service/internal/events/consumer.go:105-110 | offers and live timers stay in one-to-one correspondence across a step if and only if no search hits an offered or waiting trip and no parent context ends under a timer |
| `DispatchTimers.OneToOneRun` | services/driver-service/internal/events/consumer.go:105-220 | the correspondence over whole runs |
| `DispatchTimers.OpenOfferCanTimeOut` | services/driver-service/internal/events/consumer.go:146-172 | whenever an offer is open its timer is running, and its firing removes exactly that offer, frees exactly its driver and re-queues the trip with the driver excluded |
| `DispatchTimers.NoTwoTimersPerOffer` | services/driver-service/internal/events/consumer.go:105-110 | at most one live timer per trip |
| `DispatchTimers.SpawnOverOfferBreaks` | services/driver-service/internal/events/consumer.go:105-110 | an offer stored over another one leaves an orphan timer |
| `DispatchTimers.ReconnectContextLosesTimer` | services/driver-service/internal/grpc/handler.go:38 | the restarted timer hangs on the context of the call; when that ends the offer stays open without a timer |
| `DispatchTimers.ReconnectKeepsTimersIff` | services/driver-service/internal/grpc/handler.go:30-66 | the exact condition on the call: after a reconnect whose context has ended, every offer still has its timer if and only if the driver had no open offer when it called |
| `DispatchTimers.ReconnectSpawnsIff` | services/driver-service/internal/events/consumer.go:185-202 | a reconnect starts a timer exactly if the driver has an open offer |
| `DispatchTimers.ReconnectLosesOneTimer` | services/driver-service/internal/events/consumer.go:185-202 | and then that offer stays open with no timer at all, while every other offer and timer is as before |
| `DispatchTimers.TimersSoundStep` | services/driver-service/internal/events/consumer.go:105-202 | what holds without any condition on contexts: every live timer is that of the open offer of its trip, and an offer has its own timer or has lost it for good |
| `DispatchTimers.OneToOneIsSoundAndRunning` | services/driver-service/internal/events/consumer.go:105-110 | the one-to-one correspondence is that invariant with no timer lost |
| `DispatchQueue.PassLosesAndDuplicatesNothing` | services/driver-service/internal/events/consumer.go:317-346 | one pass over the queue: every waiting trip still waits with an equal event or is offered with it to a driver that was free; distinct trips get distinct drivers; no offer is dropped; the package index stays complete, also when notifying fails |
| `DispatchQueue.PassRun` | services/driver-service/internal/events/consumer.go:317-346 | the inductive form over any number of iterations |
| `DispatchQueue.PassIsRun` | services/driver-service/internal/events/consumer.go:317-346 | a pass is a run of its iterations |
| `DispatchQueue.IterationEffect` | services/driver-service/internal/events/consumer.go:322-344 | the exact effect of one iteration on the queue, the offers and every busy marker |
| `DispatchQueue.IterationIndex` | services/driver-service/internal/events/consumer.go:317-346 | an iteration leaves its trip in the set of its package exactly if it still waits, takes it out of the set it was read from otherwise, and moves no other trip |
| `DispatchExclusion.TimeoutsBoundedByPool` | services/driver-service/internal/events/consumer.go:164-170 | without declines and with each search message delivered at most once, n drivers give at most n timed-out offers per trip, over restarts, given-up messages, and reconnects whose context ends |
| `DispatchExclusion.ListSurvives` | services/driver-service/internal/events/consumer.go:125-140 | the exclusion list counts the timeouts of its trip exactly, has no repeats, survives the waiting queue, and the driver on offer is never on it |
| `DispatchExclusion.InvStep` | services/driver-service/internal/events/consumer.go:112-346 | the invariant behind both: each trip is in one place at most, and its list names distinct pool drivers, one per timeout that it has not forgotten |
| `DispatchExclusion.ExtendedIsListed` | services/driver-service/internal/events/consumer.go:167-169 | a timeout extends the list by a driver not yet on it |
| `DispatchExclusion.NoRepeatsFit` | services/driver-service/internal/events/consumer.go:167-169 | a list without repeats is no longer than the pool it is drawn from |
| `DispatchExclusion.DeclineForgetsTimeouts` | services/trip-service/internal/infrastructure/events/driver_consumer.go:124-132 | the message after a decline can be answered with any eligible driver but the decliner, so also with one that timed out |
| `DispatchDeclineBound.TimeoutsBoundedByDeclines` | services/trip-service/internal/infrastructure/events/driver_consumer.go:103-147 | when drivers on offer may decline and each decline is answered by one search message at any later time, n drivers and d declines give at most d (n - 2) + n timed-out offers per trip |
| `DispatchDeclineBound.AccountedRun` | services/trip-service/internal/infrastructure/events/driver_consumer.go:124-132 | the accounting behind it: the timeouts of a trip are those on its list plus those its list has forgotten, and a decline makes it forget at most n - 2 more |
| `DispatchDeclineBound.DeclineInv` | services/trip-service/internal/infrastructure/events/driver_consumer.go:124-132 | one decline keeps the exclusion invariant, with the forgotten timeouts written down |
| `DispatchDeclineBound.AnswerStep` | services/driver-service/internal/events/consumer.go:112-142 | the search message of a declined trip puts the trip back into one place with a good list |
| `DispatchDeclineBound.TrackedIffNotEnded` | services/driver-service/internal/events/consumer.go:112-346 | over whole runs with declines: a trip that was searched for is in flight, waiting, on offer, or owed its search message after a decline, if and only if no step ended its search for good; it is never both owed and somewhere |
| `DispatchDeclineBound.OwedComesBackIff` | services/trip-service/internal/infrastructure/events/driver_consumer.go:103-147 | a declined trip is nowhere until its search message arrives, and a step brings it back exactly if it is the arrival of that message |
| `DispatchDeclineBound.SomewhereOrOwed` | services/driver-service/internal/events/consumer.go:204-239 | a step takes a trip from where it is exactly if it ends its search, and leaves it owed a message exactly if it is a decline by the driver on offer |
| `DispatchDeclineTight.DeclineBoundIsReached` | services/trip-service/internal/infrastructure/events/driver_consumer.go:103-147 | the bound is exact: for every pool of n >= 2 drivers and every d some run has d declines and d (n - 2) + n timed-out offers of one trip |
| `DispatchDeclineTight.AllTimeOut` | services/driver-service/internal/events/consumer.go:146-172 | any list of drivers not yet excluded can be asked in turn, each offer timing out and extending the list |
| `DispatchDecline.DeclinesRemoveTheBound` | services/trip-service/internal/infrastructure/events/driver_consumer.go:103-147 | without a bound on declines there is none on timeouts: for every n and any three drivers there is a run in which the offers of one trip time out n times, with n + 1 declines |
| `DispatchDecline.Round` | services/trip-service/internal/infrastructure/events/driver_consumer.go:103-147 | one round of it: the new search asks a driver that has timed out before, which times out again, and the next one asked declines |
| `DispatchDuplicate.FailedNoticeDuplicates` | services/driver-service/internal/events/consumer.go:126-130 | a search that finds nobody leaves its trip both queued and in flight if and only if the no-drivers-found publish fails |
| `DispatchDuplicate.DuplicateBreaksBound` | services/driver-service/internal/events/consumer.go:126-130 | after one such failure, a single driver and no decline suffice for two timed-out offers of one trip |
| `DispatchConservation.TripLostIffEnded` | services/driver-service/internal/events/consumer.go:112-346 | over whole runs with restarts: a trip that was searched for is in flight, waiting or on offer if and only if no step ended its search; ends are an answer, a cancel, the expiry of the queue entry, a timeout whose publish failed, a search message that is given up or dead-lettered, and a restart while the trip is on offer; a trip never searched for is nowhere |
| `DispatchConservation.LeavesIffEnds` | services/driver-service/internal/events/consumer.go:112-346 | the same for one step of any kind |
| `DispatchConservation.GoneStaysGone` | services/driver-service/internal/events/consumer.go:112-346 | only its first search brings a trip in; one that has left does not come back |
| `DispatchConservation.FireConserves` | services/driver-service/internal/events/consumer.go:164-171 | a timeout keeps its trip exactly if the search message was published, and leaves the others where they are |
| `DispatchConservation.SearchConserves` | services/driver-service/internal/events/consumer.go:112-142 | a search puts its own trip somewhere, whatever was found and whatever failed, and moves no other trip |
| `DispatchConservation.CancelLeavesNothing` | services/driver-service/internal/events/consumer.go:252-283 | a cancelled trip leaves no offer, no timer, no queue or index entry and no busy driver, and disturbs no other trip |
| `DispatchConservation.ResponseClosesOffer` | services/driver-service/internal/events/consumer.go:204-239 | an answer closes the offer and its timer; an accept keeps the marker, its own decline clears it, an answer naming another driver does not free the driver on offer |
| `TripConsumer.FoundIsSearchResult` | services/driver-service/internal/events/consumer.go:125-133 | what the ring search promises is what the dispatch steps assume of it: the first result is a closest available driver |
| `TripConsumer.Consumer.WaitingStore` | services/driver-service/internal/events/consumer.go:54-66 | stores the event and indexes it under its package |
| `TripConsumer.Consumer.WaitingDelete` | services/driver-service/internal/events/consumer.go:68-82 | removes event and index entry, if there is one |
| `TripConsumer.Consumer.WaitingClaim` | services/driver-service/internal/events/consumer.go:84-94 | takes the event; a second claim finds nothing |
| `TripConsumer.Consumer.SpawnTimer` | services/driver-service/internal/events/consumer.go:105-110 | stores the offer with a fresh timer |
| `TripConsumer.Consumer.LoadAndDelete` | services/driver-service/internal/events/consumer.go:210-220 | takes the offer and stops its timer |
| `TripConsumer.Consumer.OfferTrip` | services/driver-service/internal/events/consumer.go:137-139 | marks the driver, then stores the offer |
| `TripConsumer.Consumer.HandleFindAndNotifyDrivers` | services/driver-service/internal/events/consumer.go:112-142 | the search handler as the search step, with a closest available driver as the pick, or with every available driver within 1500 km hidden behind a hundred others |
| `TripConsumer.Consumer.ResponseTimeout` | services/driver-service/internal/events/consumer.go:146-172 | acts only on an offer to its own driver |
| `TripConsumer.Consumer.ExtendTimerForDriver` | services/driver-service/internal/events/consumer.go:176-202 | restarts the timer only of an offer to this driver |
| `TripConsumer.Consumer.RegisterDriver` | services/driver-service/internal/grpc/handler.go:30-66 | the reconnect step; returns the trip of the driver exactly if it is still on offer to it |
| `TripConsumer.Consumer.Restart` | services/driver-service/internal/events/consumer.go:174-183 | the memory of the process is gone, Redis is not |
| `TripConsumer.Consumer.HandleDriverResponse` | services/driver-service/internal/events/consumer.go:204-239 | ends the offer; a decline clears the marker |
| `TripConsumer.Consumer.HandleTripCancelled` | services/driver-service/internal/events/consumer.go:252-283 | leaves the queue, ends the offer and frees the driver on offer, else the driver the event names |
| `TripConsumer.Consumer.HandleTripCompleted` | services/driver-service/internal/events/consumer.go:285-302 | clears the marker of the driver the event names |
| `TripConsumer.Consumer.MatchWaitingTrip` | services/driver-service/internal/events/consumer.go:322-344 | one iteration over the queue, with a closest available driver as the pick |
| `TripConsumer.Consumer.TryMatchWaiting` | services/driver-service/internal/events/consumer.go:317-346 | the loop handles each member of the package set once, as a run of queue iterations, and loses nothing |
| `ConsumeLoop.NoOffsetSkipped` | shared/messaging/kafka.go:278-335 | across crashes and restarts, every offset below the committed one had its handler succeed, has a record in the first retry topic, or was given up after three failed publishes |
| `ConsumeLoop.InvRun` | shared/messaging/kafka.go:278-335 | the invariants behind it, for every sequence of call outcomes |
| `ConsumeLoop.InvalidPayloadNotRetried` | shared/messaging/kafka.go:315-329 | a payload that is not valid JSON is never in the retry topic: once passed, it succeeded or was dropped |
| `ConsumeLoop.CallsAreConsecutive` | shared/messaging/kafka.go:278-309 | within one run the handler is called on consecutive offsets from the committed one |
| `ConsumeLoop.CommitMovesForward` | shared/messaging/kafka.go:332-334 | the committed offset never moves back, and moves only to just behind a settled message |
| `ConsumeLoop.NoFailureNoDrop` | shared/messaging/kafka.go:315-329 | if no publish ever failed, nothing was dropped |
| `ConsumeOutcomes.CommittedIsLastCommit` | shared/messaging/kafka.go:332-334 | over all runs with crashes and restarts the committed offset is one more than the offset handled last before the last commit that took effect, and zero before the first |
| `ConsumeOutcomes.VerdictsDecide` | shared/messaging/kafka.go:278-335 | one run over any messages, each handled, retried after 0, 1 or 2 failed publishes, or given up after three: all are committed, exactly the handled ones succeeded, the first retry topic holds exactly the retried ones in order, exactly the given-up ones are dropped, and the failed publishes of each are counted |
| `ConsumeOutcomes.AllSucceed` | shared/messaging/kafka.go:278-335 | when every call succeeds, three calls for each of n messages leave n committed and handled, none retried, none dropped |
| `ConsumeOutcomes.MessageEnds` | shared/messaging/kafka.go:278-335 | the calls for one message leave exactly what its verdict says, and the next fetch |
| `ConsumeOutcomes.RestartResumes` | shared/messaging/kafka.go:259-268 | after a crash or shutdown the next run handles first the message behind the last effective commit |
| `ConsumeOutcomes.PausesFromOne` | shared/messaging/kafka.go:271-297 | after k failed fetches in a row of a new run the pause is 2^k seconds, but at most 30 |
| `ConsumeOutcomes.FetchBacksOff` | shared/messaging/kafka.go:271-297 | the same from any state in which the pause is at its initial second |
| `ConsumeOutcomes.StopsIff` | shared/messaging/kafka.go:280-327 | a run stops exactly when the process dies or shutdown cuts off a fetch or a pause between retry publishes, and then nothing else changes |
| `ConsumeOutcomes.CancelledIsFailure` | shared/messaging/kafka.go:304-334 | shutdown in the handler, a publish or the commit is a failure of that call |
| `ConsumeLoop.Consumer.FetchMessage` | shared/messaging/kafka.go:279-297 | fetch, shutdown, or a doubled backoff of at most 30 seconds |
| `ConsumeLoop.Consumer.CallHandler` | shared/messaging/kafka.go:299-310 | a success goes to the commit, a failure to the retry publish |
| `ConsumeLoop.Consumer.PublishToRetry` | shared/messaging/kafka.go:316-318 | appends the record unless the payload cannot be encoded or the publish failed |
| `ConsumeLoop.Consumer.WaitBackoff` | shared/messaging/kafka.go:319-329 | three attempts, then give up; shutdown stops the loop without a commit |
| `ConsumeLoop.Consumer.CommitMessages` | shared/messaging/kafka.go:332-334 | a failed commit is only logged; the loop goes on with the next offset |
| `ConsumeLoop.Consumer.Resolve` | shared/messaging/kafka.go:278-335 | one call, with the invariant kept |
| `ConsumeLoop.Consumer.RouteToRetry` | shared/messaging/kafka.go:314-330 | the bounded inner loop ends in the commit or at shutdown |
| `ConsumeLoop.Consumer.Process` | shared/messaging/kafka.go:299-335 | one message from handler to commit |
| `ConsumeLoop.Consumer.Consume` | shared/messaging/kafka.go:278-335 | the whole loop equals the run of the state machine from the committed offset, and leaves only at shutdown or death |
| `RetryOffsets.LostIffCommittedOver` | shared/messaging/kafka.go:361-399 | in the retry loop, over whole runs with crashes: a record is lost if and only if, in one run of the consumer, its handler failed, the publish of its next attempt failed outright with no earlier run having handled or forwarded it, and a later commit of the same run took effect |
| `RetryOffsets.LossStep` | shared/messaging/kafka.go:392-398 | what one step loses: a commit that takes effect loses the recorded failed publishes of its run, and nothing else loses a record or brings one back |
| `RetryOffsets.GapsRecorded` | shared/messaging/kafka.go:387-395 | the recorded failures are exactly the outright failed publishes since the last restart, a lost acknowledgement excluded |
| `RetryOffsets.LostStaysLost` | shared/messaging/kafka.go:361-399 | a record passed this way is never delivered again |
| `RetryOffsets.CommittedIsSettledOrSkipped` | shared/messaging/kafka.go:361-399 | what holds in any case: a committed offset is settled or had its commit skipped |
| `RetryOffsets.SkippedCommitIsUndone` | shared/messaging/kafka.go:392-398 | the shortest loss: one failed publish, then one ordinary commit; with a lost acknowledgement in its place nothing is lost |
| `RetryOutcomes.CommittedIsLastCommit` | shared/messaging/kafka.go:398 | over all runs the committed offset is one more than the offset at hand in the last commit that took effect |
| `RetryOutcomes.VerdictsDecide` | shared/messaging/kafka.go:361-399 | one run over any records, each discarded, handled, passed on, passed on with a lost acknowledgement, or failed to be passed on: the committed offset is just behind the last of the first three kinds, every record is where its verdict puts it, and exactly the failed ones below that offset are lost |
| `RetryOutcomes.RecordEnds` | shared/messaging/kafka.go:361-399 | the calls for one record leave exactly what its verdict says |
| `RetryOutcomes.StopsIff` | shared/messaging/kafka.go:349-383 | a run stops exactly when the process dies or shutdown cuts off a fetch or the wait for a due record |
| `RetryOffsets.Consumer.FetchMessage` | shared/messaging/kafka.go:349-376 | discards what does not decode or has no handler here |
| `RetryOffsets.Consumer.CallHandler` | shared/messaging/kafka.go:385-386 | a success goes to the commit, a failure to the next level |
| `RetryOffsets.Consumer.PublishToRetry` | shared/messaging/kafka.go:387-395 | a failed publish leaves the record without a commit and moves on |
| `RetryOffsets.Consumer.CommitMessages` | shared/messaging/kafka.go:398 | a cumulative commit whose error is ignored |
| `RetryOffsets.Consumer.ConsumeRetryLoop` | shared/messaging/kafka.go:338-400 | the whole loop equals the run of the state machine from the committed offset |
| `RetryLadder.LadderIsSound` | shared/messaging/kafka.go:450-485 | every record of retry level i is the main-topic message it stems from, unchanged, with attempt i after i runs; every dead letter says 3 retries and closes 4 runs, the last at least 36 minutes after the first |
| `RetryLadder.LadderDelays` | shared/messaging/kafka.go:447-480 | in this order: a record of the first retry topic is due one minute after the run that failed, of the second five minutes after, of the third thirty; no run came before its record was due |
| `RetryLadder.SoundRun` | shared/messaging/kafka.go:310-330 | the inductive form, with group and scheduled time of every record |
| `RetryLadder.PublishedIsSound` | shared/messaging/kafka.go:450-485 | a failed run of a due record publishes a sound record one level up, or a sound dead letter at the top |
| `RetryLadder.FailurePublishes` | shared/messaging/kafka.go:385-485 | what one failed run publishes, field by field: message, first failing service, and origin unchanged, attempt one higher, due after 1, 5 or 30 minutes by level, and after the third retry topic a dead letter with 3 retries |
| `RetryClimb.LadderIsClimbed` | shared/messaging/kafka.go:385-485 | any message that can be wrapped climbs the whole ladder when its four runs fail: one record on each level with the times written out, and one dead letter with 3 retries and runs after 0, 1, 6 and 36 minutes |
| `RetryClimb.Recovers` | shared/messaging/kafka.go:385-398 | after one, two or three failures a successful run ends the climb there |
| `RetryClimb.PassedOrLeft` | shared/messaging/kafka.go:361-383 | a record the service has no handler for is passed at once, one that is not due is left alone, and a produced message is appended to the main topic for every service |
| `RetryBounds.OneMessageBounded` | shared/messaging/kafka.go:235-254 | when k services handle the topic and share the retry topics, one message, among any others, causes at most k + k^2 + k^3 + k^4 handler runs and k^4 dead letters |
| `RetryBounds.RunsAndLettersBounded` | shared/messaging/kafka.go:235-254 | so n messages cause at most n times as many |
| `RetryBounds.RedeliveryTerminates` | shared/messaging/kafka.go:361-399 | every handler run for a message lowers a measure of that message that is never negative and that no later step raises |
| `RetryBounds.BoundIsReached` | shared/messaging/kafka.go:361-399 | the bound is exact: a message whose every handler run fails reaches it once nothing of it is left to consume, whatever the other messages do |
| `RetryBounds.ConsumePotential` | shared/messaging/kafka.go:378-398 | for one message or for all: a republished failure pays for its run exactly, a success at least, and the records of other messages change nothing |
| `RetryBounds.BoundedRun` | shared/messaging/kafka.go:361-399 | the accounting over whole runs, for one message or for all |
| `RetryPlaces.ExactlyOnePlace` | shared/messaging/kafka.go:310-330 | with one handling service a message with a valid JSON payload is at every moment in exactly one of awaiting, retry 1, 2, 3, dead letters or succeeded, and never dropped; one that is not JSON is in exactly one of awaiting, succeeded or dropped; the handler runs behind a message are those of its place |
| `RetryPlaces.WrappableNeverDropped` | shared/messaging/kafka.go:310-330 | in every sound state a valid JSON message is not among the dropped ones |
| `RetryPlaces.UnwrappableNeverRetried` | shared/messaging/kafka.go:310-330 | in every sound state a message that is not JSON is on no retry level and no dead letter |
| `RetryPlaces.ConservedRun` | shared/messaging/kafka.go:310-330 | the inductive form, for one message or for all |
| `RetryPlaces.HandleMoves` | shared/messaging/kafka.go:310-330 | a handler run puts the record, taken out of its place, into exactly one other place, with one run more behind it |
| `RetryPlaces.AlwaysFailingRunsFourTimes` | shared/messaging/kafka.go:450-485 | with one handling service, a message whose every handler run fails, whatever the others do, is on the level of its run count until it was run 4 times, and then is one dead letter with its payload unchanged and 3 retries |
| `RetryPlaces.FailingNeverDone` | shared/messaging/kafka.go:310-330 | a message that always fails and can be wrapped never ends as succeeded or dropped |
| `RetryConsumer.CommitLast` | shared/messaging/kafka.go:385-398 | committing after the handler reaches the same state as moving the position first |
| `RetryConsumer.Broker.PublishToRetryTopic` | shared/messaging/kafka.go:450-485 | attempts 1 to 3 go to the retry topics with delays of 1, 5 and 30 minutes, later ones to the dead-letter queue |
| `RetryConsumer.Broker.RunHandler` | shared/messaging/kafka.go:385-396 | a failure is routed one level up, one that cannot be wrapped is dropped |
| `RetryConsumer.Broker.HandleMain` | shared/messaging/kafka.go:310-334 | one message of the main topic |
| `RetryConsumer.Broker.ProcessDue` | shared/messaging/kafka.go:385-398 | one due record of a retry topic |
| `RetryConsumer.Broker.RetryRound` | shared/messaging/kafka.go:368-398 | one record as a run of at most two actions: skipped without a handler, else a wait until it is due and its consumption |
| `RetryConsumer.Broker.RetryNext` | shared/messaging/kafka.go:368-398 | the body of the loop extends the run so far by one consumption |
| `RetryConsumer.Broker.ConsumeRetryLoop` | shared/messaging/kafka.go:338-400 | the loop over a retry topic is a run: it consumes consecutive records, one per outcome and in order, and stops only when one of the two runs out |
| `RateLimiter.ScriptRefinesSlidingLog` | services/user-service/internal/middleware/ratelimit.go:11-24 | on a non-decreasing clock and distinct members the trimmed, expiring sorted set takes exactly the decisions of a log that never forgets |
| `RateLimiter.RunMirrors` | services/user-service/internal/middleware/ratelimit.go:11-24 | at the present and every later moment the stored set is the admission history cut to the window, so trimming and key expiry are unobservable |
| `RateLimiter.ScriptMirrors` | services/user-service/internal/middleware/ratelimit.go:11-24 | one request keeps that and is admitted iff fewer than limit members are in the window |
| `RateLimiter.AtMostLimitPerWindow` | services/user-service/internal/middleware/ratelimit.go:11-24 | at most limit requests are admitted in any half-open window, wherever it ends |
| `RateLimiter.SlidingLogBounded` | services/user-service/internal/middleware/ratelimit.go:11-24 | the same bound for the reference limiter |
| `RateLimiter.RefusedIffWindowFull` | services/user-service/internal/middleware/ratelimit.go:17-23 | a request is refused exactly when limit requests are in the window that ends with it |
| `RateLimiter.TwentyPerSecond` | services/user-service/internal/middleware/ratelimit.go:26-50 | with the constants of the program: at most 20 admitted requests in any 1000 ms, and a refusal exactly when 20 were admitted in the 1000 ms that end with the request |
| `RateLimiter.KeyIsBounded` | services/user-service/internal/middleware/ratelimit.go:18-22 | a key is kept for exactly one window after the last admitted request and holds one to limit members, on any clock |
| `RateLimiter.CountIsCardinality` | services/user-service/internal/middleware/ratelimit.go:17 | for distinct members ZCARD counts requests |
| `RateLimiter.LimitKeptIffNeverOverfilled` | services/user-service/internal/middleware/ratelimit.go:11-24 | without any premise on the members: every window stays within the limit if and only if no request ever met a window of exactly limit admitted requests with two equal ones among them |
| `RateLimiter.OverfillStep` | services/user-service/internal/middleware/ratelimit.go:17-23 | the same for one request |
| `RateLimiter.MembersBounded` | services/user-service/internal/middleware/ratelimit.go:11-24 | as a set, the members in any window never exceed the limit, with or without equal ones |
| `RateLimiter.CountVersusMembers` | services/user-service/internal/middleware/ratelimit.go:17 | requests and members in a window differ exactly if two requests are equal |
| `RateLimiter.EqualMembersEvadeTheLimit` | services/user-service/internal/middleware/ratelimit.go:19 | with the program's window and limit, any number of requests that draw the same time and salt is admitted |
| `RateLimiter.Limiter.RateLimit` | services/user-service/internal/middleware/ratelimit.go:26-50 | a window of 1000 ms and a limit of 20 per client; clients do not affect each other; a Redis error lets the request pass |
| `RouteSampling.SamplesIncrease` | services/driver-service/internal/sim/simulator.go:163-174 | on a route longer than n >= 2 the sampled indices increase strictly and stay in range |
| `RouteSampling.SampleGap` | services/driver-service/internal/sim/simulator.go:166-169 | consecutive indices are the floor of the step apart, or one more, and one more only if the step is not whole |
| `RouteSampling.SampleEnds` | services/driver-service/internal/sim/simulator.go:166-172 | the first and the last point of the route are taken |
| `RouteSampling.StepFloor` | services/driver-service/internal/sim/simulator.go:166-168 | truncating the product with the real-valued step is the integer quotient i(len-1)/(n-1) |
| `RouteSampling.TakenIsSample` | services/driver-service/internal/sim/simulator.go:168 | the position the loop computes is that quotient and is within the route |
| `RouteSampling.SampleRoute` | services/driver-service/internal/sim/simulator.go:163-174 | returns a short route whole, else exactly n points at those positions with both ends kept |
| `Fares.QuotesStrictlyOrdered` | services/trip-service/internal/service/service.go:227-245 | the four quotes of a route differ by 300, 200 and 500 cents, and each is the tariff rounded to the nearest cent |
| `Fares.QuoteInWholeUnits` | services/trip-service/internal/service/service.go:227-245 | a route of k whole kilometres and m whole minutes costs the base price plus 150 k + 30 m cents |
| `Fares.OneMore` | services/trip-service/internal/service/service.go:227-236 | one kilometre more costs exactly 150 cents more, one minute more exactly 30, on every route |
| `Fares.QuoteIsPriced` | services/trip-service/internal/service/service.go:227-245 | every quote is the base price plus 15 cents for every 100 metres and half a cent for every second, rounded to the nearest cent, half a cent away from zero |
| `Fares.QuoteMonotone` | services/trip-service/internal/service/service.go:227-236 | a longer or slower route never gets a lower quote |
| `Fares.EstimatePackagesPriceWithRoute` | services/trip-service/internal/service/service.go:122-129 | one quote each for economy, comfort, van and business, in this order, priced by the tariff from 500, 800, 1000 and 1500 cents |
| `Fares.BilledBetweenTenthAndQuote` | services/trip-service/internal/infrastructure/events/driver_consumer.go:173-188 | the billed amount is at most the quote and at least a tenth of it, rounded down |
| `Fares.BilledByDistance` | services/trip-service/internal/infrastructure/events/driver_consumer.go:173-188 | the bill without a division: the quote from 95 percent of the planned distance on or with nothing to compare, the driven part of the quote rounded down from a tenth on, a tenth of the quote below |
| `Fares.BilledMonotoneInDistance` | services/trip-service/internal/infrastructure/events/driver_consumer.go:173-188 | driving further never lowers the bill, also across the 10 and 95 percent thresholds |
| `Fares.BillTrip` | services/trip-service/internal/infrastructure/events/driver_consumer.go:173-188 | the handler's computation of the amount |
| `Fares.FeeAndPayout` | services/payment-service/internal/store/store.go:52-63 | fee and payout add up to the amount, or to one cent less, and to the amount exactly when 5 divides it; the fee is a fifth rounded down |
| `Fares.DivisionTruncates` | services/payment-service/internal/store/store.go:52-63 | the integer division of the shares truncates toward zero for amounts of either sign |
| `Fares.SettleTwice` | services/payment-service/internal/store/store.go:52-63 | a repeated success event changes the time of payment only, never the money |
| `Fares.SavedThenSettled` | services/payment-service/internal/store/store.go:22-63 | a saved payment is settled by the success of its own session with the two shares of its amount, and is left alone by every other session; so are the other rows |
| `Fares.PaymentStore.MarkSuccess` | services/payment-service/internal/store/store.go:52-63 | settles exactly the rows of the session, with the shares of their own amounts, and leaves every other row alone |

## Left out

- HTTP, gRPC and WebSocket plumbing, JWT, mail, tracing, migrations, log cleaning and validators: no protocol state.
- Stripe, Mapbox, Elasticsearch and Mongo calls, the fare route cache, and chat rooms.
- The search index and the user cache: a late created event regresses the index, and the cache adds only easy members.
- Partition keys and several partitions: `ConsumeLoop`, `RetryOffsets` and `RetryLadder` have one log per topic, without
  rebalancing, retention or compaction.
- The dead-letter logger (shared/messaging/kafka.go:402-443) only logs and commits.
- Message decoding errors of the handlers count as handler failures in the loops and are not steps of `Dispatch` or `TripLifecycle`.
- Floating point: quotes, shares and sampling steps are exact reals, so the last store of `sampleRoute` repeats the value
  that is already there, and rounding of float64 products is not modelled.
- The great-circle formula: the distance is an arbitrary function of a point in the search, and an input of the bill.
- Redis failures inside the driver store and the waiting store, which the code treats as empty answers; a command is
  atomic, and the expiry of heartbeats and of waiting events is a step of its own (`HeartbeatExpires`, `WaitingExpires`).
- Clocks: Redis expiry in `RateLimiter` uses the clock of the request; in `RetryLadder` time is one counter for all services.
- The delays themselves (15-second offer, search timeout, relay tick, backoff jitter): a timer may fire at any moment.
- Handlers, timers, reconnects and queue iterations of dispatch are atomic steps, and a restart falls between two of them;
  the one overlap that breaks an invariant is stated in `Dispatch.OverlappingSearchesBreakIt`. The queue pass that follows a reconnect or a freed driver is a step of its own.
- Go pointer aliasing: `pendingInfo` and events are values; that `append` may share the backing array of an exclusion list is not modelled.
- The simulator's driving, nearby-driver listing, demo locations and avatar or plate helpers.
- The fare rows, trip texts and addresses of PostgreSQL; a row keeps the columns the transitions read or write.
- The route check of the decline handler (services/trip-service/internal/infrastructure/events/driver_consumer.go:111-114): without a route no search message is sent, which is a run in which it never arrives.
- OutboxRelay.Backend.Drain: is one undisturbed tick; interleavings with other relays and crashes inside it are the runs of `Outbox`.
- TripLifecycle.TimeoutPairIffTimeoutWon: counts rows in the outbox; that they wait there or reach the broker is `TripOutbox.TripMessagesArrive`, where the two inserts of one transaction are one step.
- Fares.EstimatePackagesPriceWithRoute: requires a first route, since the program indexes it without a check.
- RouteSampling.SampleRoute: requires n >= 2 for a longer route; the only caller passes 16, and n = 1 divides by zero in floating point.
- Fares.PaymentStore.Save: does not model failing inserts; a payment row keeps the session, the amount, the shares and the time of payment.
- RetryPlaces.ExactlyOnePlace: assumes that publishes to the retry topics and the dead-letter queue succeed; `ConsumeLoop` and `RetryOffsets` say what happens when they fail.
- DispatchExclusion.TimeoutsBoundedByPool: assumes that each search message is delivered at most once; `DispatchDuplicate.DuplicateBreaksBound` shows why.
- DispatchDeclineBound.TimeoutsBoundedByDeclines: lets only the driver on offer decline; a late decline of another driver makes the trip service search a second time, which is again a duplicate.
